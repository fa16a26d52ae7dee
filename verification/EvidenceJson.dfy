/**
 The JSON forms of approval and audit evidence, read back name by name: an exact-keys reader
 finds in each form the fields the contracts list, and under each name the value it stands for.
 */
module EvidenceJson {
  import opened Texts
  import opened Json
  import opened ContractJson
  import opened Objects
  import opened Packet
  import opened ContractPolicy
  import opened Approval
  import opened AuditJson
  import E = Execution
  import X = ExecutionJson
  import F = FieldNames

  /** The record of an object with exactly these fields. */
  ghost function Read(p: Primitives, v: Json, fields: set<F.Field>): Record {
    var x := E.ReadRecord(p, v, fields);
    if x.Some? then x.value else map[]
  }

  /** What an exact-keys reader finds in the object of a record. */
  lemma ReadBack(p: Primitives, x: Record, fields: set<F.Field>)
    requires x.Keys == fields
    ensures Read(p, Obj(Object(p.spell, x)), fields) == x
  {
    X.RecordReads(p, x, fields);
  }

  /** The words that stand for decisions, outcomes and statuses. */
  lemma Words()
    ensures KindWord(Allow) == Ascii("allow") && KindWord(Deny) == Ascii("deny")
    ensures KindWord(ContractPolicy.ApprovalRequired) == Ascii("approval_required")
    ensures OutcomeWord(Approved) == Ascii("approved") && OutcomeWord(Denied) == Ascii("denied")
    ensures StatusWord(Requested) == Ascii("requested")
    ensures forall k :: StatusWord(Ruled(k)) == KindWord(k)
    ensures forall x :: StatusWord(Settled(x)) == OutcomeWord(x)
  {
  }

  // ---------------------------------------------------------------- references

  predicate PacketRefHeld(x: Record, r: PacketRef) {
    && x.Keys == {F.PacketId, F.SchemaId, F.PacketHash, F.IdempotencyKey}
    && x[F.PacketId] == Str(r.packetId) && x[F.SchemaId] == Str(r.schemaId)
    && x[F.PacketHash] == Str(r.packetHash) && x[F.IdempotencyKey] == Str(r.idempotencyKey)
  }

  lemma PacketRefReads(p: Primitives, r: PacketRef)
    ensures PacketRefHeld(Read(p, Obj(Object(p.spell, PacketRefRecord(r))), {F.PacketId, F.SchemaId, F.PacketHash, F.IdempotencyKey}), r)
  {
    ReadBack(p, PacketRefRecord(r), {F.PacketId, F.SchemaId, F.PacketHash, F.IdempotencyKey});
  }

  predicate CapabilityHeld(x: Record, c: CapabilityDecision) {
    && x.Keys == {F.Capability, F.Decision, F.ReasonCode}
    && x[F.Capability] == Str(c.capability) && x[F.Decision] == Str(KindWord(c.decision))
    && x[F.ReasonCode] == if c.reason.Some? then Str(ReasonCode(c.reason.value)) else Null
  }

  lemma CapabilityReads(p: Primitives, c: CapabilityDecision)
    ensures CapabilityHeld(Read(p, Obj(Object(p.spell, CapabilityRecord(c))), {F.Capability, F.Decision, F.ReasonCode}), c)
  {
    ReadBack(p, CapabilityRecord(c), {F.Capability, F.Decision, F.ReasonCode});
  }

  predicate RequestRefHeld(x: Record, r: RequestRef) {
    && x.Keys == {F.SchemaId, F.ApprovalRequestId, F.PolicyDecisionId}
    && x[F.SchemaId] == Str(r.schemaId) && x[F.ApprovalRequestId] == Str(r.requestId)
    && x[F.PolicyDecisionId] == Str(r.policyDecisionId)
  }

  lemma RequestRefReads(p: Primitives, r: RequestRef)
    ensures RequestRefHeld(Read(p, Obj(Object(p.spell, RequestRefRecord(r))), {F.SchemaId, F.ApprovalRequestId, F.PolicyDecisionId}), r)
  {
    ReadBack(p, RequestRefRecord(r), {F.SchemaId, F.ApprovalRequestId, F.PolicyDecisionId});
  }

  // ---------------------------------------------------------------- policy decisions

  const POLICY_FIELDS: set<F.Field> := {
    F.ContractVersion, F.SchemaId, F.DecisionId, F.PacketRef, F.ActorRef, F.SessionRef, F.ProjectRef, F.ResourceRefs,
    F.PolicyProfileRef, F.RiskLevel, F.CapabilityDecisions, F.Decision, F.RequiresApproval, F.ReasonCodes,
    F.EvaluatedAt, F.ExpiresAt, F.SideEffects}

  predicate PolicyHead(x: Record, d: Policy)
    requires x.Keys == POLICY_FIELDS
  {
    && x[F.ContractVersion] == Str(d.contractVersion) && x[F.SchemaId] == Str(d.schemaId)
    && x[F.DecisionId] == Str(d.decisionId) && x[F.ActorRef] == Str(d.actorRef)
    && x[F.SessionRef] == Str(d.sessionRef) && x[F.ProjectRef] == Str(d.projectRef)
    && x[F.PolicyProfileRef] == Str(d.profileRef)
  }

  predicate PolicyTail(x: Record, d: Policy)
    requires x.Keys == POLICY_FIELDS
  {
    && x[F.RiskLevel] == Num(Int(d.riskLevel)) && x[F.Decision] == Str(KindWord(d.decision))
    && x[F.RequiresApproval] == Bool(d.requiresApproval)
    && x[F.EvaluatedAt] == Str(d.evaluatedAt) && x[F.ExpiresAt] == Str(d.expiresAt) && x[F.SideEffects] == Arr([])
  }

  ghost predicate PolicyParts(p: Primitives, x: Record, d: Policy)
    requires x.Keys == POLICY_FIELDS
  {
    && x[F.PacketRef] == Obj(Object(p.spell, PacketRefRecord(d.packetRef)))
    && x[F.ResourceRefs] == Strings(d.resourceRefs) && x[F.CapabilityDecisions] == CapabilitiesJson(p, d.capabilities)
    && x[F.ReasonCodes] == Strings(ReasonCodes(d.reasons))
  }

  lemma PolicyKeys(d: Policy, packet: Json, resources: Json, capabilities: Json, reasons: Json, x: Record)
    requires x == PolicyRecord(d, packet, resources, capabilities, reasons)
    ensures x.Keys == POLICY_FIELDS
  {
  }

  lemma PolicyHeadHeld(d: Policy, packet: Json, resources: Json, capabilities: Json, reasons: Json, x: Record)
    requires x == PolicyRecord(d, packet, resources, capabilities, reasons) && x.Keys == POLICY_FIELDS
    ensures PolicyHead(x, d)
  {
  }

  lemma PolicyTailHeld(d: Policy, packet: Json, resources: Json, capabilities: Json, reasons: Json, x: Record)
    requires x == PolicyRecord(d, packet, resources, capabilities, reasons) && x.Keys == POLICY_FIELDS
    ensures PolicyTail(x, d)
  {
  }

  lemma PolicyPartsHeld(d: Policy, packet: Json, resources: Json, capabilities: Json, reasons: Json, x: Record)
    requires x == PolicyRecord(d, packet, resources, capabilities, reasons) && x.Keys == POLICY_FIELDS
    ensures x[F.PacketRef] == packet && x[F.ResourceRefs] == resources
    ensures x[F.CapabilityDecisions] == capabilities && x[F.ReasonCodes] == reasons
  {
  }

  lemma PolicyReads(p: Primitives, d: Policy)
    ensures var x := Read(p, PolicyJson(p, d), POLICY_FIELDS);
            x.Keys == POLICY_FIELDS && PolicyHead(x, d) && PolicyTail(x, d) && PolicyParts(p, x, d)
  {
    var packet := Obj(Object(p.spell, PacketRefRecord(d.packetRef)));
    var resources, reasons := Strings(d.resourceRefs), Strings(ReasonCodes(d.reasons));
    var capabilities := CapabilitiesJson(p, d.capabilities);
    var x := PolicyRecord(d, packet, resources, capabilities, reasons);
    PolicyKeys(d, packet, resources, capabilities, reasons, x);
    PolicyHeadHeld(d, packet, resources, capabilities, reasons, x);
    PolicyTailHeld(d, packet, resources, capabilities, reasons, x);
    PolicyPartsHeld(d, packet, resources, capabilities, reasons, x);
    ReadBack(p, x, POLICY_FIELDS);
  }

  // ---------------------------------------------------------------- requests

  const REQUEST_FIELDS: set<F.Field> := {
    F.ContractVersion, F.SchemaId, F.Status, F.PolicyDecisionRef, F.RequesterRef, F.SessionRef, F.ProjectRef,
    F.ResourceRefs, F.RequestedCapabilities, F.PolicyReasonCodes, F.RequestedAt, F.ExpiresAt, F.SideEffects}

  predicate RequestHead(x: Record, r: Request)
    requires x.Keys == REQUEST_FIELDS
  {
    && x[F.ContractVersion] == Str(r.contractVersion) && x[F.SchemaId] == Str(r.schemaId) && x[F.Status] == Str(r.status)
    && x[F.RequesterRef] == Str(r.requesterRef) && x[F.SessionRef] == Str(r.sessionRef)
    && x[F.ProjectRef] == Str(r.projectRef) && x[F.RequestedAt] == Str(r.requestedAt)
    && x[F.ExpiresAt] == Str(r.expiresAt) && x[F.SideEffects] == Arr([])
  }

  ghost predicate RequestLists(p: Primitives, x: Record, r: Request)
    requires x.Keys == REQUEST_FIELDS
  {
    && x[F.PolicyDecisionRef] == Obj(Object(p.spell, PolicyRefRecord(r.policyRef)))
    && x[F.ResourceRefs] == Strings(r.resourceRefs) && x[F.RequestedCapabilities] == Strings(r.capabilities)
    && x[F.PolicyReasonCodes] == Strings(AskCodes(r.reasons))
  }

  lemma RequestKeys(r: Request, parts: Parts, x: Record)
    requires x == RequestRecord(r, parts)
    ensures x.Keys == REQUEST_FIELDS
  {
  }

  lemma RequestHeld(r: Request, parts: Parts, x: Record)
    requires x == RequestRecord(r, parts) && x.Keys == REQUEST_FIELDS
    ensures RequestHead(x, r)
    ensures x[F.PolicyDecisionRef] == parts.policy && x[F.ResourceRefs] == parts.resources
    ensures x[F.RequestedCapabilities] == parts.capabilities && x[F.PolicyReasonCodes] == parts.reasons
  {
  }

  lemma RequestReads(p: Primitives, r: Request)
    ensures var x := Read(p, RequestJson(p, r), REQUEST_FIELDS);
            x.Keys == REQUEST_FIELDS && RequestHead(x, r) && RequestLists(p, x, r)
  {
    var parts := PartsOf(p, r);
    var x := RequestRecord(r, parts);
    RequestKeys(r, parts, x);
    RequestHeld(r, parts, x);
    ReadBack(p, x, REQUEST_FIELDS);
  }

  /** In evidence a request also carries its identity, and nothing else is new. */
  lemma FullRequestReads(p: Primitives, r: Request)
    ensures Read(p, FullRequestJson(p, r), REQUEST_FIELDS + {F.ApprovalRequestId})
         == Read(p, RequestJson(p, r), REQUEST_FIELDS)[F.ApprovalRequestId := Str(r.requestId)]
  {
    var parts := PartsOf(p, r);
    var x := RequestRecord(r, parts);
    RequestKeys(r, parts, x);
    ReadBack(p, x, REQUEST_FIELDS);
    AddedKeys(x, F.ApprovalRequestId, Str(r.requestId));
    ReadBack(p, x[F.ApprovalRequestId := Str(r.requestId)], REQUEST_FIELDS + {F.ApprovalRequestId});
  }

  lemma AddedKeys(x: Record, f: F.Field, w: Json)
    ensures x[f := w].Keys == x.Keys + {f}
  {
  }

  predicate PolicyRefHeld(x: Record, r: PolicyRef) {
    && x.Keys == {F.SchemaId, F.DecisionId, F.PacketHash}
    && x[F.SchemaId] == Str(r.schemaId) && x[F.DecisionId] == Str(r.decisionId) && x[F.PacketHash] == Str(r.packetHash)
  }

  lemma PolicyRefReads(p: Primitives, r: PolicyRef)
    ensures PolicyRefHeld(Read(p, Obj(Object(p.spell, PolicyRefRecord(r))), {F.SchemaId, F.DecisionId, F.PacketHash}), r)
  {
    ReadBack(p, PolicyRefRecord(r), {F.SchemaId, F.DecisionId, F.PacketHash});
  }

  // ---------------------------------------------------------------- human decisions

  const DECISION_FIELDS: set<F.Field> := {
    F.ContractVersion, F.SchemaId, F.ApprovalDecisionId, F.ApprovalRequestRef, F.ApproverRef, F.ApproverSessionRef,
    F.Decision, F.ReasonCode, F.DecidedAt, F.ExpiresAt, F.ApprovalGateSatisfied, F.ExecutionAuthorized, F.SideEffects}

  predicate DecisionHead(x: Record, d: Decision, request: Json)
    requires x.Keys == DECISION_FIELDS
  {
    && x[F.ContractVersion] == Str(d.contractVersion) && x[F.SchemaId] == Str(d.schemaId)
    && x[F.ApprovalDecisionId] == Str(d.decisionId) && x[F.ApprovalRequestRef] == request
    && x[F.ApproverRef] == Str(d.approverRef) && x[F.ApproverSessionRef] == Str(d.sessionRef)
  }

  predicate DecisionTail(x: Record, d: Decision)
    requires x.Keys == DECISION_FIELDS
  {
    && x[F.Decision] == Str(OutcomeWord(d.outcome)) && x[F.ReasonCode] == Str(HumanCode(d.reason))
    && x[F.DecidedAt] == Str(d.decidedAt) && x[F.ExpiresAt] == Str(d.expiresAt)
    && x[F.ApprovalGateSatisfied] == Bool(d.gateSatisfied)
    && x[F.ExecutionAuthorized] == Bool(d.executionAuthorized) && x[F.SideEffects] == Arr([])
  }

  lemma DecisionKeys(d: Decision, request: Json, x: Record)
    requires x == DecisionRecord(d, request)
    ensures x.Keys == DECISION_FIELDS
  {
  }

  lemma DecisionHeadHeld(d: Decision, request: Json, x: Record)
    requires x == DecisionRecord(d, request) && x.Keys == DECISION_FIELDS
    ensures DecisionHead(x, d, request)
  {
  }

  lemma DecisionTailHeld(d: Decision, request: Json, x: Record)
    requires x == DecisionRecord(d, request) && x.Keys == DECISION_FIELDS
    ensures DecisionTail(x, d)
  {
  }

  lemma DecisionReads(p: Primitives, d: Decision)
    ensures var x := Read(p, DecisionJson(p, d), DECISION_FIELDS);
            && x.Keys == DECISION_FIELDS && DecisionTail(x, d)
            && DecisionHead(x, d, Obj(Object(p.spell, RequestRefRecord(d.requestRef))))
  {
    var request := Obj(Object(p.spell, RequestRefRecord(d.requestRef)));
    var x := DecisionRecord(d, request);
    DecisionKeys(d, request, x);
    DecisionHeadHeld(d, request, x);
    DecisionTailHeld(d, request, x);
    ReadBack(p, x, DECISION_FIELDS);
  }

  // ---------------------------------------------------------------- events

  const HEAD_FIELDS: set<F.Field> := {
    F.ContractVersion, F.SchemaId, F.EventType, F.ResultStatus, F.ActorRef, F.SessionRef, F.ProjectRef,
    F.SourceEvidenceHash, F.IdempotencyKey, F.EventAt, F.ObservedAt, F.RetentionClass}

  const TAIL_FIELDS: set<F.Field> := {
    F.ResourceRefs, F.PacketRef, F.PolicyRef, F.ApprovalRequestRef, F.ApprovalDecisionRef, F.ReasonCodes, F.Redaction,
    F.AuthenticatedProvenance, F.PersistenceRequested, F.ExecutionAuthorized, F.SideEffects}

  predicate HeadHeld(x: Record, e: Event)
    requires HEAD_FIELDS <= x.Keys
  {
    && x[F.ContractVersion] == Str(CONTRACT_VERSION) && x[F.SchemaId] == Str(AUDIT_SCHEMA)
    && x[F.EventType] == Str(e.typeName) && x[F.ResultStatus] == Str(StatusWord(e.status))
    && x[F.ActorRef] == Str(e.actorRef) && x[F.SessionRef] == Str(e.sessionRef) && x[F.ProjectRef] == Str(e.projectRef)
    && x[F.SourceEvidenceHash] == Str(e.sourceHash) && x[F.IdempotencyKey] == Str(e.idempotencyKey)
    && x[F.EventAt] == Str(e.eventAt) && x[F.ObservedAt] == Str(e.observedAt)
    && x[F.RetentionClass] == Str(Ascii("control_plane"))
  }

  predicate TailHeld(x: Record, e: Event, parts: EventParts)
    requires TAIL_FIELDS <= x.Keys
  {
    && x[F.ResourceRefs] == parts.resources && x[F.PacketRef] == parts.packet && x[F.PolicyRef] == parts.policy
    && x[F.ApprovalRequestRef] == parts.request && x[F.ApprovalDecisionRef] == parts.decision
    && x[F.ReasonCodes] == parts.reasons && x[F.Redaction] == parts.redaction
    && x[F.AuthenticatedProvenance] == Bool(false) && x[F.PersistenceRequested] == Bool(false)
    && x[F.ExecutionAuthorized] == Bool(e.executionAuthorized) && x[F.SideEffects] == Arr([])
  }

  lemma HeadIs(e: Event, x: Record)
    requires x == EventHead(e)
    ensures x.Keys == HEAD_FIELDS && HeadHeld(x, e)
  {
  }

  lemma TailIs(e: Event, parts: EventParts, x: Record)
    requires x == EventTail(e, parts)
    ensures x.Keys == TAIL_FIELDS && TailHeld(x, e, parts)
  {
  }

  lemma HeadKept(e: Event, x: Record, y: Record)
    requires x.Keys == HEAD_FIELDS && HeadHeld(x, e) && y.Keys == TAIL_FIELDS
    ensures HEAD_FIELDS <= (x + y).Keys && HeadHeld(x + y, e)
  {
    FieldsApart();
    LeftKept(x, y);
  }

  lemma FieldsApart()
    ensures HEAD_FIELDS !! TAIL_FIELDS
  {
  }

  lemma LeftKept(x: Record, y: Record)
    requires x.Keys !! y.Keys
    ensures forall f :: f in x ==> f in x + y && (x + y)[f] == x[f]
  {
  }

  lemma TailKept(e: Event, parts: EventParts, x: Record, y: Record)
    requires y.Keys == TAIL_FIELDS && TailHeld(y, e, parts)
    ensures TAIL_FIELDS <= (x + y).Keys && TailHeld(x + y, e, parts)
  {
    assert forall f :: f in TAIL_FIELDS ==> (x + y)[f] == y[f];
  }

  /** The parts of an event that are lists or objects. */
  ghost predicate PartsHeld(p: Primitives, e: Event, parts: EventParts) {
    && parts.resources == Strings(e.resourceRefs) && parts.reasons == Strings(e.reasonCodes)
    && PacketRefHeld(Read(p, parts.packet, {F.PacketId, F.SchemaId, F.PacketHash, F.IdempotencyKey}), e.packetRef)
    && PolicyRefRead(Read(p, parts.policy, {F.SchemaId, F.DecisionId, F.Decision}), e)
    && (e.requestRef.None? ==> parts.request == Null)
    && (e.requestRef.Some? ==>
          EventRequestHeld(Read(p, parts.request, {F.SchemaId, F.ApprovalRequestId, F.Status}), e.requestRef.value))
    && (e.decisionRef.None? ==> parts.decision == Null)
    && (e.decisionRef.Some? ==> EventDecisionHeld(Read(p, parts.decision, EVENT_DECISION_FIELDS), e.decisionRef.value))
    && RedactionHeld(Read(p, parts.redaction, REDACTION_FIELDS))
  }

  const EVENT_DECISION_FIELDS: set<F.Field> := {F.SchemaId, F.ApprovalDecisionId, F.Decision, F.ApproverRef, F.ApproverSessionRef}

  const REDACTION_FIELDS: set<F.Field> := {
    F.RawRejectedCommand, F.RawRejectedValue, F.RawInvalidPayloadContent, F.SecretLikeValues}

  predicate PolicyRefRead(x: Record, e: Event) {
    && x.Keys == {F.SchemaId, F.DecisionId, F.Decision} && x[F.SchemaId] == Str(POLICY_SCHEMA)
    && x[F.DecisionId] == Str(e.policyDecisionId) && x[F.Decision] == Str(KindWord(e.policyKind))
  }

  predicate EventRequestHeld(x: Record, r: Request) {
    && x.Keys == {F.SchemaId, F.ApprovalRequestId, F.Status} && x[F.SchemaId] == Str(r.schemaId)
    && x[F.ApprovalRequestId] == Str(r.requestId) && x[F.Status] == Str(r.status)
  }

  predicate EventDecisionHeld(x: Record, d: Decision) {
    && x.Keys == EVENT_DECISION_FIELDS && x[F.SchemaId] == Str(d.schemaId)
    && x[F.ApprovalDecisionId] == Str(d.decisionId) && x[F.Decision] == Str(OutcomeWord(d.outcome))
    && x[F.ApproverRef] == Str(d.approverRef) && x[F.ApproverSessionRef] == Str(d.sessionRef)
  }

  predicate RedactionHeld(x: Record) {
    && x.Keys == REDACTION_FIELDS && x[F.RawRejectedCommand] == Str(NOT_PRESENT) && x[F.RawRejectedValue] == Str(NOT_PRESENT)
    && x[F.RawInvalidPayloadContent] == Str(NOT_PRESENT) && x[F.SecretLikeValues] == Str(NOT_PRESENT)
  }

  lemma PolicyRefIs(p: Primitives, e: Event, v: Json)
    requires v == Obj(Object(p.spell, PolicyRefJsonRecord(e.policyDecisionId, e.policyKind)))
    ensures PolicyRefRead(Read(p, v, {F.SchemaId, F.DecisionId, F.Decision}), e)
  {
    ReadBack(p, PolicyRefJsonRecord(e.policyDecisionId, e.policyKind), {F.SchemaId, F.DecisionId, F.Decision});
  }

  lemma EventRequestIs(p: Primitives, r: Request, v: Json)
    requires v == Obj(Object(p.spell, EventRequestRecord(r)))
    ensures EventRequestHeld(Read(p, v, {F.SchemaId, F.ApprovalRequestId, F.Status}), r)
  {
    ReadBack(p, EventRequestRecord(r), {F.SchemaId, F.ApprovalRequestId, F.Status});
  }

  lemma EventDecisionIs(p: Primitives, d: Decision, v: Json)
    requires v == Obj(Object(p.spell, EventDecisionRecord(d)))
    ensures EventDecisionHeld(Read(p, v, EVENT_DECISION_FIELDS), d)
  {
    ReadBack(p, EventDecisionRecord(d), EVENT_DECISION_FIELDS);
  }

  lemma RedactionIs(p: Primitives, v: Json)
    requires v == Obj(Object(p.spell, RedactionRecord()))
    ensures RedactionHeld(Read(p, v, REDACTION_FIELDS))
  {
    ReadBack(p, RedactionRecord(), REDACTION_FIELDS);
  }

  lemma EventPartsRead(p: Primitives, e: Event)
    ensures PartsHeld(p, e, EventPartsOf(p, e))
  {
    var parts := EventPartsOf(p, e);
    PacketRefReads(p, e.packetRef);
    PolicyRefIs(p, e, parts.policy);
    if e.requestRef.Some? { EventRequestIs(p, e.requestRef.value, parts.request); }
    if e.decisionRef.Some? { EventDecisionIs(p, e.decisionRef.value, parts.decision); }
    RedactionIs(p, parts.redaction);
  }

  /** The hashed body of an event, name by name. */
  lemma EventReads(p: Primitives, e: Event)
    ensures var x := Read(p, EventJson(p, e), HEAD_FIELDS + TAIL_FIELDS);
            && x.Keys == HEAD_FIELDS + TAIL_FIELDS && HeadHeld(x, e)
            && exists parts :: TailHeld(x, e, parts) && PartsHeld(p, e, parts)
  {
    var parts := EventPartsOf(p, e);
    var x, y := EventHead(e), EventTail(e, parts);
    HeadIs(e, x);
    TailIs(e, parts, y);
    HeadKept(e, x, y);
    TailKept(e, parts, x, y);
    EventPartsRead(p, e);
    ReadBack(p, x + y, HEAD_FIELDS + TAIL_FIELDS);
  }
}
