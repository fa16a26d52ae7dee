/**
 Approval evidence (`approval.rs`): a request made from a policy decision that asks for
 approval, and a human decision on that request. Both steps recheck the shape of the evidence
 they are given, and both results carry an identity that is a digest of their content.
 */
module Approval {
  import opened Texts
  import opened Bytes
  import opened Json
  import opened ContractJson
  import opened Grammar
  import opened Timestamps
  import opened Objects
  import opened Packet
  import opened ContractPolicy
  import F = FieldNames

  /** The reasons a request may carry. */
  datatype AskReason = PacketAsks | RiskAsks | CapabilityAsks

  datatype PolicyRef = PolicyRef(schemaId: Text, decisionId: Text, packetHash: Text)

  datatype Request = Request(
    contractVersion: Text, schemaId: Text, requestId: Text, status: Text, policyRef: PolicyRef,
    requesterRef: Text, sessionRef: Text, projectRef: Text, resourceRefs: seq<Text>,
    capabilities: seq<Text>, reasons: seq<AskReason>, requestedAt: Text, expiresAt: Text)

  datatype Outcome = Approved | Denied

  datatype HumanReason =
    OperatorApproved | OperatorDenied | ScopeRejected | EvidenceInsufficient | RequestSuperseded

  datatype HumanInput = HumanInput(
    approverRef: Text, sessionRef: Text, outcome: Outcome, reason: HumanReason, decidedAt: Text)

  datatype RequestRef = RequestRef(schemaId: Text, requestId: Text, policyDecisionId: Text)

  datatype Decision = Decision(
    contractVersion: Text, schemaId: Text, decisionId: Text, requestRef: RequestRef, approverRef: Text,
    sessionRef: Text, outcome: Outcome, reason: HumanReason, decidedAt: Text, expiresAt: Text,
    gateSatisfied: bool, executionAuthorized: bool)

  datatype ApprovalError =
    | InvalidPolicyDecision | ApprovalNotRequired | InvalidRequestTime | RequestExpired
    | RequestHashUnavailable | InvalidRequest | InvalidDecisionInput | SelfApprovalForbidden
    | DecisionExpired

  datatype Result<+T> = Ok(value: T) | Err(error: ApprovalError)

  const REQUESTED: Text := Ascii("requested")
  const HUMAN: Text := Ascii("identity:human:")

  // ---------------------------------------------------------------- shape of a policy decision

  predicate CapabilitiesShape(t: Tables, policy: Policy) {
    && SortedCapabilities(Names(policy.capabilities))
    && forall i :: 0 <= i < |policy.capabilities| ==>
        policy.capabilities[i] == Classify(t, policy.capabilities[i].capability, policy.profileRef == t.profile)
  }

  /** `valid_reason_codes`: ranked, consistent with the rest, and the decision they imply. */
  predicate ReasonsShape(t: Tables, policy: Policy) {
    && Ranked(policy.reasons)
    && (forall r: Reason :: r != PacketRequiresApproval ==>
          (r in policy.reasons <==> Applies(r, false, policy.riskLevel, policy.profileRef == t.profile, policy.capabilities)))
    && policy.decision == SelectKind(policy.reasons)
    && (policy.requiresApproval <==> policy.decision == ContractPolicy.ApprovalRequired)
  }

  predicate PolicyHeader(policy: Policy) {
    && policy.contractVersion == CONTRACT_VERSION && policy.schemaId == POLICY_SCHEMA
    && PrefixedDigest(policy.decisionId, POL)
    && policy.packetRef.schemaId == PACKET_SCHEMA
    && PrefixedDigest(policy.packetRef.packetHash, SHA256_PREFIX)
    && Identifier(policy.packetRef.packetId, PKT, 12, 68)
    && Identifier(policy.packetRef.idempotencyKey, IDEM, 13, 133)
    && ReferenceWith(policy.actorRef, IDENTITY) && ReferenceWith(policy.sessionRef, SESSION)
    && ReferenceWith(policy.projectRef, PROJECT) && ReferenceWith(policy.profileRef, POLICY)
    && policy.riskLevel <= 8
  }

  predicate TimeOrdered(first: Text, second: Text) {
    Instant(first).Some? && Instant(second).Some? && Instant(first).value < Instant(second).value
  }

  /** `valid_policy_decision_shape`. */
  predicate PolicyShape(t: Tables, policy: Policy) {
    && PolicyHeader(policy) && SortedReferences(policy.resourceRefs)
    && CapabilitiesShape(t, policy) && ReasonsShape(t, policy)
    && TimeOrdered(policy.evaluatedAt, policy.expiresAt)
  }

  // ---------------------------------------------------------------- creating a request

  function AskReasonOf(r: Reason): Option<AskReason> {
    match r
    case PacketRequiresApproval => Some(PacketAsks)
    case RiskRequiresApproval => Some(RiskAsks)
    case CapabilityRequiresApproval => Some(CapabilityAsks)
    case _ => None
  }

  function AskReasons(rs: seq<Reason>): Option<seq<AskReason>> {
    if rs == [] then Some([])
    else
      var head, tail := AskReasonOf(rs[0]), AskReasons(rs[1..]);
      if head.None? || tail.None? then None else Some([head.value] + tail.value)
  }

  function AskCode(r: AskReason): Text {
    match r
    case PacketAsks => Ascii("policy.packet_requires_approval")
    case RiskAsks => Ascii("policy.risk_requires_approval")
    case CapabilityAsks => Ascii("policy.capability_requires_approval")
  }

  function AskCodes(rs: seq<AskReason>): (ts: seq<Text>)
    ensures |ts| == |rs| && forall i :: 0 <= i < |rs| ==> ts[i] == AskCode(rs[i])
  {
    seq(|rs|, i requires 0 <= i < |rs| => AskCode(rs[i]))
  }

  function PolicyRefRecord(r: PolicyRef): Record {
    map[F.SchemaId := Str(r.schemaId), F.DecisionId := Str(r.decisionId), F.PacketHash := Str(r.packetHash)]
  }

  /** The lists and the object inside a request. */
  datatype Parts = Parts(policy: Json, resources: Json, capabilities: Json, reasons: Json)

  ghost function PartsOf(p: Primitives, r: Request): Parts {
    Parts(Obj(Object(p.spell, PolicyRefRecord(r.policyRef))), Strings(r.resourceRefs),
          Strings(r.capabilities), Strings(AskCodes(r.reasons)))
  }

  function RequestRecord(r: Request, parts: Parts): Record {
    map[F.ContractVersion := Str(r.contractVersion), F.SchemaId := Str(r.schemaId), F.Status := Str(r.status),
        F.PolicyDecisionRef := parts.policy, F.RequesterRef := Str(r.requesterRef),
        F.SessionRef := Str(r.sessionRef), F.ProjectRef := Str(r.projectRef),
        F.ResourceRefs := parts.resources, F.RequestedCapabilities := parts.capabilities,
        F.PolicyReasonCodes := parts.reasons, F.RequestedAt := Str(r.requestedAt),
        F.ExpiresAt := Str(r.expiresAt), F.SideEffects := Arr([])]
  }

  ghost function RequestJson(p: Primitives, r: Request): Json {
    Obj(Object(p.spell, RequestRecord(r, PartsOf(p, r))))
  }

  /** `request_identity`. */
  ghost function RequestIdentity(p: Primitives, r: Request): (id: Option<Text>)
    ensures id.Some? ==> PrefixedDigest(id.value, APR)
  {
    var canonical := Canonicalize(p, RequestJson(p, r));
    if canonical.Some? then Some(Sha256Text(p, APR, canonical.value)) else None
  }

  function DraftRequest(policy: Policy, reasons: seq<AskReason>, requestedAt: Text): Request {
    Request(CONTRACT_VERSION, APPROVAL_REQUEST_SCHEMA, [], REQUESTED,
            PolicyRef(policy.schemaId, policy.decisionId, policy.packetRef.packetHash),
            policy.actorRef, policy.sessionRef, policy.projectRef, policy.resourceRefs,
            Names(policy.capabilities), reasons, requestedAt, policy.expiresAt)
  }

  /** `create_approval_request_v1`. */
  ghost function CreateRequest(p: Primitives, t: Tables, policy: Policy, requestedAt: Text): Result<Request> {
    if !PolicyShape(t, policy) then Err(InvalidPolicyDecision) else CreateShaped(p, policy, requestedAt)
  }

  ghost function CreateShaped(p: Primitives, policy: Policy, requestedAt: Text): Result<Request> {
    if policy.decision != ContractPolicy.ApprovalRequired || !policy.requiresApproval then Err(ApprovalNotRequired)
    else if Instant(requestedAt).None? then Err(InvalidRequestTime)
    else if !Within(policy.evaluatedAt, requestedAt, policy.expiresAt) then Err(RequestExpired)
    else if policy.decisionId != PolicyId(p, policy.packetRef.packetHash, policy.evaluatedAt)
    then Err(InvalidPolicyDecision)
    else
      var reasons := AskReasons(policy.reasons);
      if reasons.None? then Err(InvalidPolicyDecision)
      else
        var request := DraftRequest(policy, reasons.value, requestedAt);
        var id := RequestIdentity(p, request);
        if id.None? then Err(RequestHashUnavailable) else Ok(request.(requestId := id.value))
  }

  // ---------------------------------------------------------------- deciding a request

  function AskRank(r: AskReason): nat {
    match r case PacketAsks => 0 case RiskAsks => 1 case CapabilityAsks => 2
  }

  predicate AskRanked(rs: seq<AskReason>) { forall i :: 0 <= i < |rs| - 1 ==> AskRank(rs[i]) < AskRank(rs[i + 1]) }

  /** `valid_approval_request_shape`. */
  predicate RequestShape(r: Request) {
    && r.contractVersion == CONTRACT_VERSION && r.schemaId == APPROVAL_REQUEST_SCHEMA
    && PrefixedDigest(r.requestId, APR) && r.status == REQUESTED
    && r.policyRef.schemaId == POLICY_SCHEMA && PrefixedDigest(r.policyRef.decisionId, POL)
    && PrefixedDigest(r.policyRef.packetHash, SHA256_PREFIX)
    && ReferenceWith(r.requesterRef, IDENTITY) && ReferenceWith(r.sessionRef, SESSION)
    && ReferenceWith(r.projectRef, PROJECT)
    && SortedReferences(r.resourceRefs) && SortedCapabilities(r.capabilities)
    && r.reasons != [] && AskRanked(r.reasons)
    && TimeOrdered(r.requestedAt, r.expiresAt)
  }

  predicate OutcomeReason(outcome: Outcome, reason: HumanReason) { outcome == Approved <==> reason == OperatorApproved }

  predicate HumanReference(t: Text) { HUMAN <= t && |t| > |HUMAN| && Reference(t) }

  predicate HumanInputShape(i: HumanInput) {
    HumanReference(i.approverRef) && ReferenceWith(i.sessionRef, SESSION) && OutcomeReason(i.outcome, i.reason)
  }

  function OutcomeWord(o: Outcome): Text { if o == Approved then Ascii("approved") else Ascii("denied") }

  function HumanCode(r: HumanReason): Text {
    match r
    case OperatorApproved => Ascii("approval.operator_approved")
    case OperatorDenied => Ascii("approval.operator_denied")
    case ScopeRejected => Ascii("approval.scope_rejected")
    case EvidenceInsufficient => Ascii("approval.evidence_insufficient")
    case RequestSuperseded => Ascii("approval.request_superseded")
  }

  /** The lines hashed into a decision's identity. */
  function DecisionLines(requestId: Text, i: HumanInput): seq<Text> {
    [APPROVAL_DECISION_SCHEMA, requestId, OutcomeWord(i.outcome), i.decidedAt, i.approverRef, i.sessionRef, HumanCode(i.reason)]
  }

  function DecisionIdentity(p: Primitives, requestId: Text, i: HumanInput): (id: Text)
    ensures PrefixedDigest(id, APD)
  {
    Sha256Text(p, APD, Lines(DecisionLines(requestId, i)))
  }

  function DecisionOf(p: Primitives, r: Request, i: HumanInput): Decision {
    Decision(CONTRACT_VERSION, APPROVAL_DECISION_SCHEMA, DecisionIdentity(p, r.requestId, i),
             RequestRef(r.schemaId, r.requestId, r.policyRef.decisionId), i.approverRef, i.sessionRef,
             i.outcome, i.reason, i.decidedAt, r.expiresAt, i.outcome == Approved, false)
  }

  /** `decide_approval_request_v1`. */
  ghost function DecideRequest(p: Primitives, r: Request, i: HumanInput): Result<Decision> {
    if !RequestShape(r) then Err(InvalidRequest)
    else if !HumanInputShape(i) || Instant(i.decidedAt).None? then Err(InvalidDecisionInput)
    else if !Within(r.requestedAt, i.decidedAt, r.expiresAt) then Err(DecisionExpired)
    else if RequestIdentity(p, r) != Some(r.requestId) then Err(InvalidRequest)
    else if i.approverRef == r.requesterRef then Err(SelfApprovalForbidden)
    else Ok(DecisionOf(p, r, i))
  }
}
