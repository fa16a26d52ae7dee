/**
 Audit evidence (`audit.rs`): an event is recorded for a chain of evidence only after the whole
 chain has been rebuilt from its packet and found equal.
 */
module Audit {
  import opened Texts
  import opened Bytes
  import opened ContractJson
  import opened Grammar
  import opened Timestamps
  import opened Packet
  import opened ContractPolicy
  import opened Approval
  import opened ApprovalProofs
  import opened AuditJson
  import opened PacketIdentity
  import opened Objects
  import opened Json
  import F = FieldNames

  const AUD: Text := Ascii("aud_")

  datatype AuditResult =
    | Recorded(event: Event) | InvalidObservedAt | SourceEvidenceMismatch | ObservedBeforeEvent | HashUnavailable

  function InputOf(d: Decision): HumanInput {
    HumanInput(d.approverRef, d.sessionRef, d.outcome, d.reason, d.decidedAt)
  }

  /** `verify_source_chain`: rebuild each link with the times and inputs it records, and compare. */
  ghost predicate VerifyChain(p: Primitives, t: Tables, c: Chain) {
    && DecidePacket(p, t, c.packet, c.policy.evaluatedAt) == Decided(c.policy)
    && (!c.PolicyChain? ==> CreateRequest(p, t, c.policy, c.request.requestedAt) == Approval.Ok(c.request))
    && (c.DecisionChain? ==> DecideRequest(p, c.request, InputOf(c.decision)) == Approval.Ok(c.decision))
  }

  function EventAt(c: Chain): Text {
    match c
    case PolicyChain(_, policy) => policy.evaluatedAt
    case RequestChain(_, _, request) => request.requestedAt
    case DecisionChain(_, _, _, decision) => decision.decidedAt
  }

  function TerminalId(c: Chain): Text {
    match c
    case PolicyChain(_, policy) => policy.decisionId
    case RequestChain(_, _, request) => request.requestId
    case DecisionChain(_, _, _, decision) => decision.decisionId
  }

  function IdempotencyKey(c: Chain): Text { Ascii("audit:") + TypeName(c) + [0x3A] + TerminalId(c) }

  /** `audit_event_body`. */
  function EventOf(c: Chain, sourceHash: Text, observedAt: Text): Event {
    var policy := c.policy;
    Event(
      [], TypeName(c),
      match c case PolicyChain(_, _) => Ruled(policy.decision) case RequestChain(_, _, _) => Requested
              case DecisionChain(_, _, _, d) => Settled(d.outcome),
      if c.DecisionChain? then c.decision.approverRef else policy.actorRef,
      if c.DecisionChain? then c.decision.sessionRef else policy.sessionRef,
      policy.projectRef, policy.resourceRefs, policy.packetRef, policy.decisionId, policy.decision,
      if c.PolicyChain? then None else Some(c.request),
      if c.DecisionChain? then Some(c.decision) else None,
      if c.DecisionChain? then [HumanCode(c.decision.reason)] else ReasonCodes(policy.reasons),
      sourceHash, IdempotencyKey(c), EventAt(c), observedAt, false)
  }

  /** `create_audit_event_v1`. */
  ghost function CreateEvent(p: Primitives, t: Tables, c: Chain, observedAt: Text): AuditResult {
    Judge(VerifyChain(p, t, c), EventAt(c), observedAt, Seal(p, c, observedAt))
  }

  /** The order of the checks, given what each of them finds. */
  function Judge(verified: bool, eventAt: Text, observedAt: Text, sealed: AuditResult): AuditResult {
    if Instant(observedAt).None? then InvalidObservedAt
    else if !verified || Instant(eventAt).None? then SourceEvidenceMismatch
    else if Instant(observedAt).value < Instant(eventAt).value then ObservedBeforeEvent
    else sealed
  }

  /** The two hashes of an event: of its source chain, then of its own body. */
  ghost function Seal(p: Primitives, c: Chain, observedAt: Text): AuditResult {
    var source := Canonicalize(p, SourceJson(p, c));
    if source.None? then HashUnavailable
    else
      var event := EventOf(c, Sha256Text(p, SHA256_PREFIX, source.value), observedAt);
      var body := Canonicalize(p, EventJson(p, event));
      if body.None? then HashUnavailable
      else Recorded(event.(eventId := Sha256Text(p, AUD, body.value)))
  }

  // ---------------------------------------------------------------- what is accepted

  /** The forward functions, given some times and some human input, produce this chain. */
  ghost predicate Producible(p: Primitives, t: Tables, c: Chain) {
    && (exists e :: DecidePacket(p, t, c.packet, e) == Decided(c.policy))
    && (!c.PolicyChain? ==> exists at :: CreateRequest(p, t, c.policy, at) == Approval.Ok(c.request))
    && (c.DecisionChain? ==> exists i :: DecideRequest(p, c.request, i) == Approval.Ok(c.decision))
  }

  lemma DecidedTime(p: Primitives, t: Tables, k: Envelope, e: Text, policy: Policy)
    requires DecidePacket(p, t, k, e) == Decided(policy)
    ensures policy.evaluatedAt == e && policy.expiresAt == k.expiresAt && policy.actorRef == k.actorRef
    ensures Within(k.createdAt, e, k.expiresAt)
  {
    DecidedForm(p, t, k, e);
  }

  lemma CreatedTime(p: Primitives, t: Tables, policy: Policy, at: Text, r: Request)
    requires CreateRequest(p, t, policy, at) == Approval.Ok(r)
    ensures r.requestedAt == at && r.expiresAt == policy.expiresAt && r.requesterRef == policy.actorRef
    ensures Within(policy.evaluatedAt, at, policy.expiresAt)
  {
    CreateExactly(p, t, policy, at);
  }

  lemma DecidedInput(p: Primitives, r: Request, i: HumanInput, d: Decision)
    requires DecideRequest(p, r, i) == Approval.Ok(d)
    ensures InputOf(d) == i && d.expiresAt == r.expiresAt
    ensures Within(r.requestedAt, d.decidedAt, r.expiresAt) && d.approverRef != r.requesterRef
    ensures (d.gateSatisfied <==> d.outcome == Approved) && !d.executionAuthorized
  {
    DecideExactly(p, r, i);
  }

  /** Rebuilding from recorded times and inputs loses nothing: verified is the same as producible. */
  lemma VerifiedIsProducible(p: Primitives, t: Tables, c: Chain)
    ensures VerifyChain(p, t, c) <==> Producible(p, t, c)
    ensures Producible(p, t, c) ==> Instant(EventAt(c)).Some?
  {
    if Producible(p, t, c) {
      var e :| DecidePacket(p, t, c.packet, e) == Decided(c.policy);
      DecidedTime(p, t, c.packet, e, c.policy);
      if !c.PolicyChain? {
        var at :| CreateRequest(p, t, c.policy, at) == Approval.Ok(c.request);
        CreatedTime(p, t, c.policy, at, c.request);
      }
      if c.DecisionChain? {
        var i :| DecideRequest(p, c.request, i) == Approval.Ok(c.decision);
        DecidedInput(p, c.request, i, c.decision);
      }
    }
  }

  lemma SourceMembers(name: Text, packet: Json, policy: Json, request: Option<Json>, decision: Option<Json>, x: Record)
    requires x == SourceRecord(name, packet, policy, request, decision)
    ensures F.EventType in x && x[F.EventType] == Str(name)
    ensures F.Packet in x && x[F.Packet] == packet && F.PolicyDecision in x && x[F.PolicyDecision] == policy
    ensures request.Some? ==> F.ApprovalRequest in x && x[F.ApprovalRequest] == request.value
    ensures decision.Some? ==> F.ApprovalDecision in x && x[F.ApprovalDecision] == decision.value
    ensures x.Keys <= {F.EventType, F.Packet, F.PolicyDecision, F.ApprovalRequest, F.ApprovalDecision}
    ensures F.ApprovalRequest in x <==> request.Some?
    ensures F.ApprovalDecision in x <==> decision.Some?
  {
  }

  lemma ChainMembers(p: Primitives, c: Chain)
    ensures var x := ChainRecord(p, c);
            && F.EventType in x && x[F.EventType] == Str(TypeName(c))
            && F.Packet in x && x[F.Packet] == PacketJson(p, c.packet)
            && F.PolicyDecision in x && x[F.PolicyDecision] == PolicyJson(p, c.policy)
            && (F.ApprovalRequest in x <==> !c.PolicyChain?) && (F.ApprovalDecision in x <==> c.DecisionChain?)
            && (!c.PolicyChain? ==> x[F.ApprovalRequest] == FullRequestJson(p, c.request))
            && (c.DecisionChain? ==> x[F.ApprovalDecision] == DecisionJson(p, c.decision))
            && x.Keys <= {F.EventType, F.Packet, F.PolicyDecision, F.ApprovalRequest, F.ApprovalDecision}
  {
    SourceMembers(TypeName(c), PacketJson(p, c.packet), PolicyJson(p, c.policy),
                  if c.PolicyChain? then None else Some(FullRequestJson(p, c.request)),
                  if c.DecisionChain? then Some(DecisionJson(p, c.decision)) else None, ChainRecord(p, c));
  }

  lemma SourceCanonicalizable(p: Primitives, name: Text, packet: Json, policy: Json, request: Option<Json>, decision: Option<Json>)
    requires Canonicalizable(p, packet) && Canonicalizable(p, policy)
    requires request.Some? ==> Canonicalizable(p, request.value)
    requires decision.Some? ==> Canonicalizable(p, decision.value)
    ensures AllCanonicalizable(p, SourceRecord(name, packet, policy, request, decision))
  {
  }

  lemma ChainCanonicalizable(p: Primitives, c: Chain)
    requires Hashable(p, c.packet) && c.policy.riskLevel <= 8
    ensures AllCanonicalizable(p, ChainRecord(p, c)) && Canonicalizable(p, SourceJson(p, c))
  {
    NormalPacket(p, c.packet);
    PolicyPlain(p, c.policy);
    if !c.PolicyChain? { FullRequestPlain(p, c.request); }
    if c.DecisionChain? { DecisionPlain(p, c.decision); }
    SourceCanonicalizable(p, TypeName(c), PacketJson(p, c.packet), PolicyJson(p, c.policy),
                          if c.PolicyChain? then None else Some(FullRequestJson(p, c.request)),
                          if c.DecisionChain? then Some(DecisionJson(p, c.decision)) else None);
    ObjectCanonicalizable(p.spell, p, ChainRecord(p, c));
  }

  /** Neither hash of an event can fail once the chain is verified. */
  lemma SealSucceeds(p: Primitives, c: Chain, observedAt: Text)
    requires Hashable(p, c.packet) && c.policy.riskLevel <= 8
    ensures Seal(p, c, observedAt).Recorded?
  {
    ChainCanonicalizable(p, c);
    EventPlain(p, EventOf(c, Sha256Text(p, SHA256_PREFIX, Canonicalize(p, SourceJson(p, c)).value), observedAt));
  }

  lemma VerifiedHashable(p: Primitives, t: Tables, c: Chain)
    requires VerifyChain(p, t, c)
    ensures Hashable(p, c.packet) && c.policy.riskLevel <= 8
  {
    DecidedForm(p, t, c.packet, c.policy.evaluatedAt);
  }

  /** The audit step records exactly the chains the forward functions can produce, seen no earlier than they ended. */
  lemma AuditExactly(p: Primitives, t: Tables, c: Chain, observedAt: Text)
    ensures CreateEvent(p, t, c, observedAt).Recorded? <==>
      && Instant(observedAt).Some? && Producible(p, t, c)
      && Instant(EventAt(c)).Some? && Instant(EventAt(c)).value <= Instant(observedAt).value
    ensures CreateEvent(p, t, c, observedAt) == SourceEvidenceMismatch <==>
      Instant(observedAt).Some? && !Producible(p, t, c)
    ensures CreateEvent(p, t, c, observedAt) != HashUnavailable
  {
    VerifiedIsProducible(p, t, c);
    SealedIfVerified(p, t, c, observedAt);
    JudgeExactly(VerifyChain(p, t, c), EventAt(c), observedAt, Seal(p, c, observedAt));
  }

  lemma SealedIfVerified(p: Primitives, t: Tables, c: Chain, observedAt: Text)
    ensures VerifyChain(p, t, c) ==> Seal(p, c, observedAt).Recorded?
  {
    if VerifyChain(p, t, c) {
      VerifiedHashable(p, t, c);
      SealSucceeds(p, c, observedAt);
    }
  }

  /** A verified chain is recorded from its end on. */
  lemma RecordedWhen(p: Primitives, t: Tables, c: Chain, observedAt: Text)
    requires VerifyChain(p, t, c) && NotAfter(EventAt(c), observedAt)
    ensures CreateEvent(p, t, c, observedAt).Recorded?
  {
    SealedIfVerified(p, t, c, observedAt);
    JudgeExactly(true, EventAt(c), observedAt, Seal(p, c, observedAt));
  }

  lemma JudgeExactly(verified: bool, at: Text, observedAt: Text, sealed: AuditResult)
    requires verified ==> sealed.Recorded? && Instant(at).Some?
    ensures Judge(verified, at, observedAt, sealed).Recorded? <==>
      && Instant(observedAt).Some? && verified
      && Instant(at).Some? && Instant(at).value <= Instant(observedAt).value
    ensures Judge(verified, at, observedAt, sealed) == SourceEvidenceMismatch <==> Instant(observedAt).Some? && !verified
    ensures Judge(verified, at, observedAt, sealed) != HashUnavailable
  {
  }

  predicate NotAfter(a: Text, b: Text) {
    Instant(a).Some? && Instant(b).Some? && Instant(a).value <= Instant(b).value
  }

  /** A recorded event belongs to a verified chain that had ended by then. */
  lemma RecordedMeans(p: Primitives, t: Tables, c: Chain, observedAt: Text, e: Event)
    requires CreateEvent(p, t, c, observedAt) == Recorded(e)
    ensures VerifyChain(p, t, c) && NotAfter(EventAt(c), observedAt)
    ensures e == EventOf(c, e.sourceHash, observedAt).(eventId := e.eventId)
  {
    JudgeMeans(VerifyChain(p, t, c), EventAt(c), observedAt, Seal(p, c, observedAt), e);
    Sealed(p, c, observedAt, e);
  }

  lemma JudgeMeans(verified: bool, at: Text, observedAt: Text, sealed: AuditResult, e: Event)
    requires Judge(verified, at, observedAt, sealed) == Recorded(e)
    ensures verified && NotAfter(at, observedAt) && sealed == Recorded(e)
  {
  }

  lemma Sealed(p: Primitives, c: Chain, observedAt: Text, e: Event)
    ensures Seal(p, c, observedAt) == Recorded(e) ==> e == EventOf(c, e.sourceHash, observedAt).(eventId := e.eventId)
  {
  }

  /** What a recorded decision chain guarantees, from one end to the other. */
  lemma RecordedDecision(p: Primitives, t: Tables, c: Chain, observedAt: Text, e: Event)
    requires c.DecisionChain? && CreateEvent(p, t, c, observedAt) == Recorded(e)
    ensures NotAfter(c.policy.evaluatedAt, c.request.requestedAt)
    ensures NotAfter(c.request.requestedAt, c.decision.decidedAt)
    ensures NotAfter(c.decision.decidedAt, observedAt)
    ensures c.packet.expiresAt == c.policy.expiresAt == c.request.expiresAt == c.decision.expiresAt
    ensures Within(c.packet.createdAt, c.request.requestedAt, c.packet.expiresAt)
    ensures Within(c.packet.createdAt, c.decision.decidedAt, c.packet.expiresAt)
    ensures c.request.requesterRef == c.packet.actorRef && c.decision.approverRef != c.packet.actorRef
    ensures c.decision.gateSatisfied <==> c.decision.outcome == Approved
    ensures !c.decision.executionAuthorized && e.actorRef == c.decision.approverRef
  {
    RecordedMeans(p, t, c, observedAt, e);
    VerifiedDecision(p, t, c);
  }

  lemma VerifiedDecision(p: Primitives, t: Tables, c: Chain)
    requires c.DecisionChain? && VerifyChain(p, t, c)
    ensures NotAfter(c.policy.evaluatedAt, c.request.requestedAt)
    ensures NotAfter(c.request.requestedAt, c.decision.decidedAt)
    ensures c.packet.expiresAt == c.policy.expiresAt == c.request.expiresAt == c.decision.expiresAt
    ensures Within(c.packet.createdAt, c.request.requestedAt, c.packet.expiresAt)
    ensures Within(c.packet.createdAt, c.decision.decidedAt, c.packet.expiresAt)
    ensures c.request.requesterRef == c.packet.actorRef && c.decision.approverRef != c.packet.actorRef
    ensures c.decision.gateSatisfied <==> c.decision.outcome == Approved
    ensures !c.decision.executionAuthorized
  {
    DecidedTime(p, t, c.packet, c.policy.evaluatedAt, c.policy);
    CreatedTime(p, t, c.policy, c.request.requestedAt, c.request);
    DecidedInput(p, c.request, InputOf(c.decision), c.decision);
  }

  lemma TypeNames(c: Chain)
    ensures 0x3A !in TypeName(c)
    ensures |TypeName(c)| == if c.PolicyChain? then 24 else if c.RequestChain? then 25 else 26
  {
    match c
    case PolicyChain(_, _) => assert forall i :: 0 <= i < 24 ==> TypeName(c)[i] != 0x3A;
    case RequestChain(_, _, _) => assert forall i :: 0 <= i < 25 ==> TypeName(c)[i] != 0x3A;
    case DecisionChain(_, _, _, _) => assert forall i :: 0 <= i < 26 ==> TypeName(c)[i] != 0x3A;
  }

  /** Two events share an idempotency key exactly when they are of one type and end in one identity. */
  lemma KeyBinds(c: Chain, d: Chain)
    ensures IdempotencyKey(c) == IdempotencyKey(d) <==>
      && (c.PolicyChain? <==> d.PolicyChain?) && (c.RequestChain? <==> d.RequestChain?)
      && TerminalId(c) == TerminalId(d)
  {
    TypeNames(c);
    TypeNames(d);
    SamePrefix(Ascii("audit:"), TypeName(c), TerminalId(c));
    SamePrefix(Ascii("audit:"), TypeName(d), TerminalId(d));
    JoinInjective(TypeName(c), TerminalId(c), TypeName(d), TerminalId(d), 0x3A);
  }

  lemma SamePrefix(prefix: Text, name: Text, id: Text)
    ensures (prefix + name + [0x3A] + id)[|prefix|..] == name + [0x3A] + id
    ensures prefix + name + [0x3A] + id == prefix + (name + [0x3A] + id)
  {
  }
}
