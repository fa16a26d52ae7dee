/**
 Inputs at which the evidence theorems apply: a complete recorded chain, and one input for each
 place where the contracts crate does not do what its neighbours expect.
 */
module EvidenceExamples {
  import opened Texts
  import opened Bytes
  import opened Json
  import opened ContractJson
  import opened Grammar
  import opened Timestamps
  import opened Objects
  import opened Packet
  import opened ContractPolicy
  import opened SamplePacket
  import Approval
  import ApprovalProofs
  import AuditJson
  import Audit
  import F = FieldNames

  // ---------------------------------------------------------------- packets without a proposal

  lemma NoConstraints(p: Primitives)
    ensures Canonicalizable(p, Obj(map[])) && DepthAtMost(Obj(map[]), MAX_DEPTH - 1)
  {
  }

  lemma UnsortedRefs()
    ensures Distinct([R2, R1]) && !AdjacentAscending([R2, R1]) && AdjacentAscending([R1])
  {
    assert R1[0] == R2[0] && R1[1..][0] == R2[1..][0] && R1[1..][1..][0] < R2[1..][1..][0];
    assert !Less(R2, R1);
    assert [R2, R1][0] == R2 && [R2, R1][1] == R1;
  }

  /** A valid packet that policy sends to approval, and approval refuses to take. */
  lemma UnsortedPacketRejected(p: Primitives) returns (k: Envelope, policy: Policy)
    ensures ValidPacket(p, k) && Distinct(k.resourceRefs)
    ensures DecidePacket(p, TABLES, k, k.createdAt) == Decided(policy)
    ensures policy.decision == ApprovalRequired && policy.requiresApproval
    ensures forall at :: Approval.CreateRequest(p, TABLES, policy, at) == Approval.Err(Approval.InvalidPolicyDecision)
  {
    k := Sample(DIGEST_ID, [R2, R1], map[]);
    IdsAreIdentifiers();
    ShortReferences();
    UnsortedRefs();
    NoConstraints(p);
    SampleValid(p, DIGEST_ID, [R2, R1], map[]);
    SampleDecided(p, k);
    policy := DecidePacket(p, TABLES, k, k.createdAt).policy;
    DecidedFlag(p, TABLES, k, k.createdAt);
    ApprovalProofs.DecidedPolicyShape(p, TABLES, k, k.createdAt);
    ShapelessRejected(p, TABLES, policy);
  }

  lemma DecidedFlag(p: Primitives, t: Tables, k: Envelope, at: Text)
    requires DecidePacket(p, t, k, at).Decided?
    ensures var policy := DecidePacket(p, t, k, at).policy;
            policy.requiresApproval <==> policy.decision == ApprovalRequired
  {
    ApprovalProofs.DecidedForm(p, t, k, at);
  }

  lemma ShapelessRejected(p: Primitives, t: Tables, policy: Policy)
    requires !Approval.PolicyShape(t, policy)
    ensures forall at :: Approval.CreateRequest(p, t, policy, at) == Approval.Err(Approval.InvalidPolicyDecision)
  {
  }

  // ---------------------------------------------------------------- a complete chain

  const APPROVER: Text := Approval.HUMAN + [A]

  lemma ApproverIsHuman()
    ensures Approval.HumanReference(APPROVER) && APPROVER != IDENTITY + [A]
  {
    var rest := APPROVER[9..];
    Schemes();
    assert |IDENTITY| == 9 && |APPROVER| == 16;
    assert forall i :: 0 <= i < 9 ==> APPROVER[i] == IDENTITY[i];
    assert APPROVER == IDENTITY + rest;
    HumanRest(rest);
    SchemeReference(IDENTITY, rest);
  }

  lemma HumanRest(rest: Text)
    requires rest == APPROVER[9..]
    ensures |rest| == 7 && Plainly(rest)
  {
    assert forall i :: 0 <= i < 7 ==> rest[i] == APPROVER[i + 9];
  }

  function Approve(at: Text): Approval.HumanInput {
    Approval.HumanInput(APPROVER, SESSION + [A], Approval.Approved, Approval.OperatorApproved, at)
  }

  lemma ApproveShape(at: Text)
    ensures Approval.HumanInputShape(Approve(at))
  {
    ApproverIsHuman();
    Schemes();
    SchemeReference(SESSION, [A]);
  }

  lemma SampleWindow()
    ensures Within(CREATED, CREATED, EXPIRES)
  {
    TimesOrdered();
  }

  /** The sample's decision becomes a request. */
  lemma SampleRequested(p: Primitives, k: Envelope) returns (policy: Policy, r: Approval.Request)
    requires k == Sample(DIGEST_ID, [R1], map[])
    ensures ValidPacket(p, k) && DecidePacket(p, TABLES, k, CREATED) == Decided(policy)
    ensures Approval.CreateRequest(p, TABLES, policy, CREATED) == Approval.Ok(r)
    ensures policy.expiresAt == EXPIRES && policy.evaluatedAt == CREATED && policy.actorRef == IDENTITY + [A]
  {
    IdsAreIdentifiers();
    ShortReferences();
    UnsortedRefs();
    NoConstraints(p);
    SampleValid(p, DIGEST_ID, [R1], map[]);
    SampleDecided(p, k);
    policy := DecidePacket(p, TABLES, k, CREATED).policy;
    SampleWindow();
    ApprovalProofs.ForwardRequest(p, TABLES, k, policy, CREATED, CREATED);
    r := Approval.CreateRequest(p, TABLES, policy, CREATED).value;
    Audit.DecidedTime(p, TABLES, k, CREATED, policy);
  }

  /** Links made one from the other, all at one time, are a chain that verifies. */
  lemma LinksVerify(p: Primitives, t: Tables, c: AuditJson.Chain, at: Text, i: Approval.HumanInput)
    requires c.DecisionChain? && Instant(at).Some? && i.decidedAt == at
    requires DecidePacket(p, t, c.packet, at) == Decided(c.policy)
    requires Approval.CreateRequest(p, t, c.policy, at) == Approval.Ok(c.request)
    requires Approval.DecideRequest(p, c.request, i) == Approval.Ok(c.decision)
    ensures Audit.VerifyChain(p, t, c) && Audit.EventAt(c) == at
    ensures c.decision.gateSatisfied <==> i.outcome == Approval.Approved
  {
    Audit.DecidedTime(p, t, c.packet, at, c.policy);
    Audit.CreatedTime(p, t, c.policy, at, c.request);
    Audit.DecidedInput(p, c.request, i, c.decision);
  }

  lemma SampleApproved(p: Primitives, policy: Policy, r: Approval.Request)
    requires Approval.CreateRequest(p, TABLES, policy, CREATED) == Approval.Ok(r)
    requires policy.expiresAt == EXPIRES && policy.actorRef == IDENTITY + [A]
    ensures Approval.DecideRequest(p, r, Approve(CREATED)).Ok?
  {
    ApproveShape(CREATED);
    ApproverIsHuman();
    SampleWindow();
    Audit.CreatedTime(p, TABLES, policy, CREATED, r);
    ApprovalProofs.CreatedIsDecidable(p, TABLES, policy, CREATED, r, Approve(CREATED));
  }

  /** Policy decision, request, human approval and audit event of one packet: the whole chain exists. */
  lemma ChainRecorded(p: Primitives) returns (c: AuditJson.Chain)
    ensures c.DecisionChain? && c.decision.gateSatisfied
    ensures Audit.CreateEvent(p, TABLES, c, CREATED).Recorded?
  {
    var k := Sample(DIGEST_ID, [R1], map[]);
    var policy, r := SampleRequested(p, k);
    SampleApproved(p, policy, r);
    c := AuditJson.DecisionChain(k, policy, r, Approval.DecideRequest(p, r, Approve(CREATED)).value);
    SampleWindow();
    LinksVerify(p, TABLES, c, CREATED, Approve(CREATED));
    Audit.RecordedWhen(p, TABLES, c, CREATED);
  }
}
