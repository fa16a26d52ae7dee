/**
 What every field of approval and audit evidence holds, and under which name its JSON form
 carries it: each lemma goes from the inputs of a forward function to the fields of its result.
 */
module EvidenceFields {
  import opened Texts
  import opened Bytes
  import opened Json
  import opened ContractJson
  import opened Grammar
  import opened Objects
  import opened Packet
  import opened ContractPolicy
  import opened PolicyMeaning
  import opened Approval
  import opened ApprovalProofs
  import opened AuditJson
  import opened Audit
  import Timestamps

  // ---------------------------------------------------------------- requests

  lemma {:induction false} AskCodesAgree(rs: seq<Reason>)
    requires AskReasons(rs).Some?
    ensures AskCodes(AskReasons(rs).value) == ReasonCodes(rs)
  {
    if rs != [] {
      AskCodesAgree(rs[1..]);
      var head, tail := AskReasonOf(rs[0]).value, AskReasons(rs[1..]).value;
      assert AskReasons(rs).value == [head] + tail;
      assert AskCodes([head] + tail) == [AskCode(head)] + AskCodes(tail);
      assert ReasonCodes(rs) == [ReasonCode(rs[0])] + ReasonCodes(rs[1..]);
    }
  }

  /** The fields of a request, from the policy decision it was made of. */
  predicate RequestFields(policy: Policy, at: Text, r: Request) {
    && r.contractVersion == CONTRACT_VERSION && r.schemaId == APPROVAL_REQUEST_SCHEMA && r.status == REQUESTED
    && r.policyRef.schemaId == policy.schemaId && r.policyRef.decisionId == policy.decisionId
    && r.policyRef.packetHash == policy.packetRef.packetHash
    && r.requesterRef == policy.actorRef && r.sessionRef == policy.sessionRef && r.projectRef == policy.projectRef
    && r.resourceRefs == policy.resourceRefs
    && |r.capabilities| == |policy.capabilities|
    && (forall i :: 0 <= i < |r.capabilities| ==> r.capabilities[i] == policy.capabilities[i].capability)
    && AskCodes(r.reasons) == ReasonCodes(policy.reasons)
    && r.requestedAt == at && r.expiresAt == policy.expiresAt
  }

  lemma DraftFields(policy: Policy, reasons: seq<AskReason>, at: Text, id: Text)
    requires AskReasons(policy.reasons) == Some(reasons)
    ensures RequestFields(policy, at, DraftRequest(policy, reasons, at).(requestId := id))
  {
    AskCodesAgree(policy.reasons);
  }

  /** Every field of a created request; its identity is the digest of its own JSON form. */
  lemma CreatedFields(p: Primitives, t: Tables, policy: Policy, at: Text, r: Request)
    requires CreateRequest(p, t, policy, at) == Approval.Ok(r)
    ensures RequestFields(policy, at, r)
    ensures IsDigestOf(p, r.requestId, APR, Print(RequestJson(p, r)))
  {
    CreateExactly(p, t, policy, at);
    AskingReasons(t, policy);
    var reasons := AskReasons(policy.reasons).value;
    DraftFields(policy, reasons, at, r.requestId);
    CreatedPassesDecide(p, t, policy, at, r);
    RequestHashes(p, r);
  }

  /** The header, the lists and the times of a decision that has the shape approval insists on. */
  lemma ShapeChecks(t: Tables, policy: Policy)
    requires PolicyShape(t, policy)
    ensures policy.contractVersion == CONTRACT_VERSION && policy.schemaId == POLICY_SCHEMA
    ensures PrefixedDigest(policy.decisionId, POL) && policy.packetRef.schemaId == PACKET_SCHEMA
    ensures PrefixedDigest(policy.packetRef.packetHash, SHA256_PREFIX)
    ensures Identifier(policy.packetRef.packetId, PKT, 12, 68) && Identifier(policy.packetRef.idempotencyKey, IDEM, 13, 133)
    ensures ReferenceWith(policy.actorRef, IDENTITY) && ReferenceWith(policy.sessionRef, SESSION)
    ensures ReferenceWith(policy.projectRef, PROJECT) && ReferenceWith(policy.profileRef, POLICY) && policy.riskLevel <= 8
    ensures SortedReferences(policy.resourceRefs) && SortedCapabilities(Names(policy.capabilities))
    ensures TimeOrdered(policy.evaluatedAt, policy.expiresAt)
  {
  }

  /** The verdicts and reasons of such a decision fit its profile, risk and capabilities. */
  lemma ShapeVerdicts(t: Tables, policy: Policy)
    requires CapabilitiesShape(t, policy) && ReasonsShape(t, policy) && policy.profileRef == t.profile
    ensures forall i :: 0 <= i < |policy.capabilities| ==> Verdict(t, policy.capabilities[i])
    ensures RiskRequiresApproval in policy.reasons <==> policy.riskLevel >= 5
    ensures CapabilityRequiresApproval in policy.reasons <==> AnyReason(policy.capabilities, CapabilityRequiresApproval)
    ensures policy.requiresApproval <==> policy.decision == ContractPolicy.ApprovalRequired
  {
  }

  /** What every decision that becomes a request had to satisfy. */
  lemma CreatedChecks(p: Primitives, t: Tables, policy: Policy, at: Text, r: Request)
    requires CreateRequest(p, t, policy, at) == Approval.Ok(r)
    ensures PolicyShape(t, policy) && policy.profileRef == t.profile && policy.capabilities != []
    ensures forall i :: 0 <= i < |policy.capabilities| ==> Verdict(t, policy.capabilities[i])
    ensures policy.decision == ContractPolicy.ApprovalRequired && policy.requiresApproval && policy.reasons != []
    ensures Within(policy.evaluatedAt, at, policy.expiresAt)
  {
    CreateExactly(p, t, policy, at);
    CreatedNames(p, t, policy, at);
    GrantedCapabilities(t, policy);
    ShapeVerdicts(t, policy);
    AskingReasons(t, policy);
  }

  /** Which decisions are refused, and as what. */
  lemma CreateRefusals(p: Primitives, t: Tables, policy: Policy, at: Text)
    ensures var r, shape, asks := CreateRequest(p, t, policy, at), PolicyShape(t, policy), policy.decision == ContractPolicy.ApprovalRequired;
            && (r == Approval.Err(ApprovalNotRequired) <==> shape && !asks)
            && (r == Approval.Err(InvalidRequestTime) <==> shape && asks && Timestamps.Instant(at).None?)
            && (r == Approval.Err(RequestExpired) <==>
                  shape && asks && Timestamps.Instant(at).Some? && !Within(policy.evaluatedAt, at, policy.expiresAt))
            && (r == Approval.Err(InvalidPolicyDecision) <==>
                  || !shape
                  || (asks && Within(policy.evaluatedAt, at, policy.expiresAt)
                      && policy.decisionId != PolicyId(p, policy.packetRef.packetHash, policy.evaluatedAt)))
  {
    CreateExactly(p, t, policy, at);
    if PolicyShape(t, policy) && policy.decision == ContractPolicy.ApprovalRequired { AskingReasons(t, policy); }
  }

  // ---------------------------------------------------------------- decisions

  /** The lines a decision's identity is made of. */
  function DecisionText(requestId: Text, i: HumanInput): Text {
    APPROVAL_DECISION_SCHEMA + [LF] + requestId + [LF] + OutcomeWord(i.outcome) + [LF] + i.decidedAt
    + [LF] + i.approverRef + [LF] + i.sessionRef + [LF] + HumanCode(i.reason)
  }

  lemma LinesStep(t: Text, ts: seq<Text>)
    requires ts != []
    ensures Lines([t] + ts) == t + [LF] + Lines(ts)
  {
    assert ([t] + ts)[1..] == ts;
  }

  lemma SevenLines(a: Text, b: Text, c: Text, d: Text, e: Text, f: Text, g: Text)
    ensures Lines([a, b, c, d, e, f, g])
         == a + [LF] + (b + [LF] + (c + [LF] + (d + [LF] + (e + [LF] + (f + [LF] + g)))))
  {
    LinesStep(f, [g]);
    LinesStep(e, [f, g]);
    LinesStep(d, [e, f, g]);
    LinesStep(c, [d, e, f, g]);
    LinesStep(b, [c, d, e, f, g]);
    LinesStep(a, [b, c, d, e, f, g]);
    assert [f] + [g] == [f, g] && [e] + [f, g] == [e, f, g] && [d] + [e, f, g] == [d, e, f, g];
    assert [c] + [d, e, f, g] == [c, d, e, f, g] && [b] + [c, d, e, f, g] == [b, c, d, e, f, g];
    assert [a] + [b, c, d, e, f, g] == [a, b, c, d, e, f, g];
  }

  lemma Flat(a: Text, b: Text, c: Text)
    ensures a + [LF] + (b + [LF] + c) == a + [LF] + b + [LF] + c
  {
  }

  lemma DecisionLinesText(requestId: Text, i: HumanInput)
    ensures Lines(DecisionLines(requestId, i)) == DecisionText(requestId, i)
  {
    var a, b, c, d := APPROVAL_DECISION_SCHEMA, requestId, OutcomeWord(i.outcome), i.decidedAt;
    var e, f, g := i.approverRef, i.sessionRef, HumanCode(i.reason);
    SevenLines(a, b, c, d, e, f, g);
    Flat(a, b, c + [LF] + (d + [LF] + (e + [LF] + (f + [LF] + g))));
    Flat(a + [LF] + b, c, d + [LF] + (e + [LF] + (f + [LF] + g)));
    Flat(a + [LF] + b + [LF] + c, d, e + [LF] + (f + [LF] + g));
    Flat(a + [LF] + b + [LF] + c + [LF] + d, e, f + [LF] + g);
    Flat(a + [LF] + b + [LF] + c + [LF] + d + [LF] + e, f, g);
  }

  /** Every field of a human decision, from the request and the human's input. */
  lemma DecisionFields(p: Primitives, r: Request, i: HumanInput, d: Decision)
    requires DecideRequest(p, r, i) == Approval.Ok(d)
    ensures d.contractVersion == CONTRACT_VERSION && d.schemaId == APPROVAL_DECISION_SCHEMA
    ensures d.requestRef.schemaId == r.schemaId && d.requestRef.requestId == r.requestId
    ensures d.requestRef.policyDecisionId == r.policyRef.decisionId
    ensures d.approverRef == i.approverRef && d.sessionRef == i.sessionRef && d.outcome == i.outcome
    ensures d.reason == i.reason && d.decidedAt == i.decidedAt && d.expiresAt == r.expiresAt
    ensures (d.gateSatisfied <==> i.outcome == Approved) && !d.executionAuthorized
    ensures IsDigestOf(p, d.decisionId, APD, DecisionText(r.requestId, i))
  {
    DecideExactly(p, r, i);
    DecisionLinesText(r.requestId, i);
  }

  /** What every request that was decided, and every human input that decided one, had to satisfy. */
  lemma DecidedChecks(p: Primitives, r: Request, i: HumanInput, d: Decision)
    requires DecideRequest(p, r, i) == Approval.Ok(d)
    ensures r.contractVersion == CONTRACT_VERSION && r.schemaId == APPROVAL_REQUEST_SCHEMA && r.status == Ascii("requested")
    ensures r.policyRef.schemaId == POLICY_SCHEMA && PrefixedDigest(r.policyRef.decisionId, POL)
    ensures PrefixedDigest(r.policyRef.packetHash, SHA256_PREFIX) && ReferenceWith(r.requesterRef, IDENTITY)
    ensures ReferenceWith(r.sessionRef, SESSION) && ReferenceWith(r.projectRef, PROJECT)
    ensures SortedReferences(r.resourceRefs) && SortedCapabilities(r.capabilities) && r.reasons != []
    ensures IsDigestOf(p, r.requestId, APR, Print(RequestJson(p, r)))
    ensures Ascii("identity:human:") <= i.approverRef && |i.approverRef| > 15 && Reference(i.approverRef)
    ensures ReferenceWith(i.sessionRef, SESSION) && (i.outcome == Approved <==> i.reason == OperatorApproved)
    ensures Within(r.requestedAt, i.decidedAt, r.expiresAt) && i.approverRef != r.requesterRef
  {
    DecideExactly(p, r, i);
    RequestHashes(p, r);
  }

  /** Which human inputs are refused, and as what. */
  lemma DecideRefusals(p: Primitives, r: Request, i: HumanInput)
    ensures var d, input := DecideRequest(p, r, i), HumanInputShape(i) && Timestamps.Instant(i.decidedAt).Some?;
            var timely, sealed := Within(r.requestedAt, i.decidedAt, r.expiresAt), RequestIdentity(p, r) == Some(r.requestId);
            && (d == Approval.Err(InvalidDecisionInput) <==> RequestShape(r) && !input)
            && (d == Approval.Err(DecisionExpired) <==> RequestShape(r) && input && !timely)
            && (d == Approval.Err(InvalidRequest) <==> !RequestShape(r) || (input && timely && !sealed))
            && (d == Approval.Err(SelfApprovalForbidden) <==>
                  RequestShape(r) && input && timely && sealed && i.approverRef == r.requesterRef)
  {
    DecideExactly(p, r, i);
  }

  // ---------------------------------------------------------------- events

  /** What every recorded event carries over from the policy decision and its own inputs. */
  predicate EventCommon(c: Chain, observedAt: Text, e: Event) {
    && e.projectRef == c.policy.projectRef && e.resourceRefs == c.policy.resourceRefs
    && e.packetRef == c.policy.packetRef
    && e.policyDecisionId == c.policy.decisionId && e.policyKind == c.policy.decision
    && e.observedAt == observedAt && !e.executionAuthorized
  }

  /** What depends on where the chain ends. */
  predicate EventEnd(c: Chain, e: Event) {
    match c
    case PolicyChain(_, policy) =>
      && e.typeName == Ascii("policy.decision_recorded") && e.status == Ruled(policy.decision)
      && e.actorRef == policy.actorRef && e.sessionRef == policy.sessionRef
      && e.requestRef == None && e.decisionRef == None && e.reasonCodes == ReasonCodes(policy.reasons)
      && e.eventAt == policy.evaluatedAt
      && e.idempotencyKey == Ascii("audit:") + Ascii("policy.decision_recorded") + Ascii(":") + policy.decisionId
    case RequestChain(_, policy, request) =>
      && e.typeName == Ascii("approval.request_recorded") && e.status == Requested
      && e.actorRef == policy.actorRef && e.sessionRef == policy.sessionRef
      && e.requestRef == Some(request) && e.decisionRef == None && e.reasonCodes == ReasonCodes(policy.reasons)
      && e.eventAt == request.requestedAt
      && e.idempotencyKey == Ascii("audit:") + Ascii("approval.request_recorded") + Ascii(":") + request.requestId
    case DecisionChain(_, policy, request, decision) =>
      && e.typeName == Ascii("approval.decision_recorded") && e.status == Settled(decision.outcome)
      && e.actorRef == decision.approverRef && e.sessionRef == decision.sessionRef
      && e.requestRef == Some(request) && e.decisionRef == Some(decision)
      && e.reasonCodes == [HumanCode(decision.reason)] && e.eventAt == decision.decidedAt
      && e.idempotencyKey == Ascii("audit:") + Ascii("approval.decision_recorded") + Ascii(":") + decision.decisionId
  }

  lemma EventOfFields(c: Chain, sourceHash: Text, observedAt: Text, id: Text)
    ensures var e := EventOf(c, sourceHash, observedAt).(eventId := id);
            EventCommon(c, observedAt, e) && EventEnd(c, e) && e.sourceHash == sourceHash
  {
    assert Ascii(":") == [0x3A];
  }

  lemma SealedHashes(p: Primitives, c: Chain, observedAt: Text, e: Event)
    requires Seal(p, c, observedAt) == Recorded(e)
    ensures Canonicalizable(p, SourceJson(p, c))
    ensures IsDigestOf(p, e.sourceHash, SHA256_PREFIX, Print(Normalize(p, SourceJson(p, c))))
    ensures IsDigestOf(p, e.eventId, AUD, Print(EventJson(p, e.(eventId := []))))
    ensures e == EventOf(c, e.sourceHash, observedAt).(eventId := e.eventId)
  {
    var source := Canonicalize(p, SourceJson(p, c)).value;
    var event := EventOf(c, Sha256Text(p, SHA256_PREFIX, source), observedAt);
    EventPlain(p, event);
    PlainText(p, EventJson(p, event));
    assert e.(eventId := []) == event;
  }

  /**
   Every field of a recorded event: what the policy decision and the end of the chain say, the
   digest of the source text, and an identity that is the digest of the event's own body.
   */
  lemma RecordedFields(p: Primitives, t: Tables, c: Chain, observedAt: Text, e: Event)
    requires CreateEvent(p, t, c, observedAt) == Recorded(e)
    ensures EventCommon(c, observedAt, e) && EventEnd(c, e)
    ensures Canonicalizable(p, SourceJson(p, c))
    ensures IsDigestOf(p, e.sourceHash, SHA256_PREFIX, Print(Normalize(p, SourceJson(p, c))))
    ensures IsDigestOf(p, e.eventId, AUD, Print(EventJson(p, e.(eventId := []))))
  {
    JudgeMeans(VerifyChain(p, t, c), EventAt(c), observedAt, Seal(p, c, observedAt), e);
    SealedHashes(p, c, observedAt, e);
    EventOfFields(c, e.sourceHash, observedAt, e.eventId);
  }
}
