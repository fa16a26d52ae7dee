/**
 The JSON forms that audit evidence hashes: the source chain and the event's own body.
 */
module AuditJson {
  import opened Texts
  import opened Bytes
  import opened Json
  import opened ContractJson
  import opened Objects
  import opened Packet
  import opened ContractPolicy
  import opened Approval
  import opened ApprovalProofs
  import F = FieldNames

  datatype Chain =
    | PolicyChain(packet: Envelope, policy: Policy)
    | RequestChain(packet: Envelope, policy: Policy, request: Request)
    | DecisionChain(packet: Envelope, policy: Policy, request: Request, decision: Decision)

  datatype Status = Ruled(kind: Kind) | Requested | Settled(outcome: Outcome)

  datatype Event = Event(
    eventId: Text, typeName: Text, status: Status, actorRef: Text, sessionRef: Text, projectRef: Text,
    resourceRefs: seq<Text>, packetRef: PacketRef, policyDecisionId: Text, policyKind: Kind,
    requestRef: Option<Request>, decisionRef: Option<Decision>, reasonCodes: seq<Text>,
    sourceHash: Text, idempotencyKey: Text, eventAt: Text, observedAt: Text, executionAuthorized: bool)

  const AUDIT_SCHEMA: Text := Ascii("lnsat.audit_event.schema.v1_0")
  const NOT_PRESENT: Text := Ascii("not_present")
  const CONTROL_PLANE: Text := Ascii("control_plane")
  const NO_EFFECTS: Json := Arr([])

  function KindWord(k: Kind): Text {
    match k case Allow => Ascii("allow") case Deny => Ascii("deny") case ApprovalRequired => Ascii("approval_required")
  }

  function StatusWord(s: Status): Text {
    match s case Ruled(k) => KindWord(k) case Requested => REQUESTED case Settled(o) => OutcomeWord(o)
  }

  function ReasonCode(r: Reason): Text {
    match r
    case ProfileUnsupported => Ascii("policy.profile_unsupported")
    case NoCapabilityRequested => Ascii("policy.no_capability_requested")
    case CapabilityForbidden => Ascii("policy.capability_forbidden")
    case CapabilityUnknown => Ascii("policy.capability_unknown")
    case PacketRequiresApproval => Ascii("policy.packet_requires_approval")
    case RiskRequiresApproval => Ascii("policy.risk_requires_approval")
    case CapabilityRequiresApproval => Ascii("policy.capability_requires_approval")
  }

  function ReasonCodes(rs: seq<Reason>): seq<Text> { seq(|rs|, i requires 0 <= i < |rs| => ReasonCode(rs[i])) }

  // ---------------------------------------------------------------- policy decisions

  function PacketRefRecord(r: PacketRef): Record {
    map[F.PacketId := Str(r.packetId), F.SchemaId := Str(r.schemaId),
        F.PacketHash := Str(r.packetHash), F.IdempotencyKey := Str(r.idempotencyKey)]
  }

  function CapabilityRecord(c: CapabilityDecision): Record {
    map[F.Capability := Str(c.capability), F.Decision := Str(KindWord(c.decision)),
        F.ReasonCode := if c.reason.Some? then Str(ReasonCode(c.reason.value)) else Null]
  }

  ghost function CapabilitiesJson(p: Primitives, cs: seq<CapabilityDecision>): (v: Json)
    ensures v.Arr? && |v.items| == |cs|
    ensures forall i :: 0 <= i < |cs| ==> v.items[i] == Obj(Object(p.spell, CapabilityRecord(cs[i])))
  {
    Arr(seq(|cs|, i requires 0 <= i < |cs| => Obj(Object(p.spell, CapabilityRecord(cs[i])))))
  }

  function PolicyRecord(d: Policy, packet: Json, resources: Json, capabilities: Json, reasons: Json): Record {
    map[F.ContractVersion := Str(d.contractVersion), F.SchemaId := Str(d.schemaId),
        F.DecisionId := Str(d.decisionId), F.PacketRef := packet, F.ActorRef := Str(d.actorRef),
        F.SessionRef := Str(d.sessionRef), F.ProjectRef := Str(d.projectRef), F.ResourceRefs := resources,
        F.PolicyProfileRef := Str(d.profileRef), F.RiskLevel := Num(Int(d.riskLevel)),
        F.CapabilityDecisions := capabilities, F.Decision := Str(KindWord(d.decision)),
        F.RequiresApproval := Bool(d.requiresApproval), F.ReasonCodes := reasons,
        F.EvaluatedAt := Str(d.evaluatedAt), F.ExpiresAt := Str(d.expiresAt), F.SideEffects := NO_EFFECTS]
  }

  /** `policy_json_value`. */
  ghost function PolicyJson(p: Primitives, d: Policy): Json {
    Obj(Object(p.spell, PolicyRecord(d, Obj(Object(p.spell, PacketRefRecord(d.packetRef))),
      Strings(d.resourceRefs), CapabilitiesJson(p, d.capabilities), Strings(ReasonCodes(d.reasons)))))
  }

  // ---------------------------------------------------------------- requests and decisions

  /** `request_json_value`: the hashed body and the identity. */
  ghost function FullRequestJson(p: Primitives, r: Request): Json {
    Obj(Object(p.spell, FullRequestRecord(r, PartsOf(p, r))))
  }

  function FullRequestRecord(r: Request, parts: Parts): Record {
    RequestRecord(r, parts)[F.ApprovalRequestId := Str(r.requestId)]
  }

  function RequestRefRecord(r: RequestRef): Record {
    map[F.SchemaId := Str(r.schemaId), F.ApprovalRequestId := Str(r.requestId),
        F.PolicyDecisionId := Str(r.policyDecisionId)]
  }

  function DecisionRecord(d: Decision, request: Json): Record {
    map[F.ContractVersion := Str(d.contractVersion), F.SchemaId := Str(d.schemaId),
        F.ApprovalDecisionId := Str(d.decisionId), F.ApprovalRequestRef := request,
        F.ApproverRef := Str(d.approverRef), F.ApproverSessionRef := Str(d.sessionRef),
        F.Decision := Str(OutcomeWord(d.outcome)), F.ReasonCode := Str(HumanCode(d.reason)),
        F.DecidedAt := Str(d.decidedAt), F.ExpiresAt := Str(d.expiresAt),
        F.ApprovalGateSatisfied := Bool(d.gateSatisfied),
        F.ExecutionAuthorized := Bool(d.executionAuthorized), F.SideEffects := NO_EFFECTS]
  }

  /** `decision_json_value`. */
  ghost function DecisionJson(p: Primitives, d: Decision): Json {
    Obj(Object(p.spell, DecisionRecord(d, Obj(Object(p.spell, RequestRefRecord(d.requestRef))))))
  }

  // ---------------------------------------------------------------- chains

  function TypeName(c: Chain): Text {
    match c
    case PolicyChain(_, _) => Ascii("policy.decision_recorded")
    case RequestChain(_, _, _) => Ascii("approval.request_recorded")
    case DecisionChain(_, _, _, _) => Ascii("approval.decision_recorded")
  }

  function SourceRecord(name: Text, packet: Json, policy: Json, request: Option<Json>, decision: Option<Json>): Record {
    map[F.EventType := Str(name), F.Packet := packet, F.PolicyDecision := policy]
    + (if request.Some? then map[F.ApprovalRequest := request.value] else map[])
    + (if decision.Some? then map[F.ApprovalDecision := decision.value] else map[])
  }

  /** `audit_input_json_value`. */
  ghost function ChainRecord(p: Primitives, c: Chain): Record {
    SourceRecord(TypeName(c), PacketJson(p, c.packet), PolicyJson(p, c.policy),
                 if c.PolicyChain? then None else Some(FullRequestJson(p, c.request)),
                 if c.DecisionChain? then Some(DecisionJson(p, c.decision)) else None)
  }

  ghost function SourceJson(p: Primitives, c: Chain): Json { Obj(Object(p.spell, ChainRecord(p, c))) }

  // ---------------------------------------------------------------- events

  function PolicyRefJsonRecord(id: Text, kind: Kind): Record {
    map[F.SchemaId := Str(POLICY_SCHEMA), F.DecisionId := Str(id), F.Decision := Str(KindWord(kind))]
  }

  function EventRequestRecord(r: Request): Record {
    map[F.SchemaId := Str(r.schemaId), F.ApprovalRequestId := Str(r.requestId), F.Status := Str(r.status)]
  }

  function EventDecisionRecord(d: Decision): Record {
    map[F.SchemaId := Str(d.schemaId), F.ApprovalDecisionId := Str(d.decisionId),
        F.Decision := Str(OutcomeWord(d.outcome)), F.ApproverRef := Str(d.approverRef),
        F.ApproverSessionRef := Str(d.sessionRef)]
  }

  function RedactionRecord(): Record {
    map[F.RawRejectedCommand := Str(NOT_PRESENT), F.RawRejectedValue := Str(NOT_PRESENT),
        F.RawInvalidPayloadContent := Str(NOT_PRESENT), F.SecretLikeValues := Str(NOT_PRESENT)]
  }

  datatype EventParts = EventParts(
    resources: Json, packet: Json, policy: Json, request: Json, decision: Json, reasons: Json, redaction: Json)

  ghost function EventPartsOf(p: Primitives, e: Event): EventParts {
    EventParts(
      Strings(e.resourceRefs), Obj(Object(p.spell, PacketRefRecord(e.packetRef))),
      Obj(Object(p.spell, PolicyRefJsonRecord(e.policyDecisionId, e.policyKind))),
      if e.requestRef.Some? then Obj(Object(p.spell, EventRequestRecord(e.requestRef.value))) else Null,
      if e.decisionRef.Some? then Obj(Object(p.spell, EventDecisionRecord(e.decisionRef.value))) else Null,
      Strings(e.reasonCodes), Obj(Object(p.spell, RedactionRecord())))
  }

  function EventHead(e: Event): Record {
    map[F.ContractVersion := Str(CONTRACT_VERSION), F.SchemaId := Str(AUDIT_SCHEMA),
        F.EventType := Str(e.typeName), F.ResultStatus := Str(StatusWord(e.status)),
        F.ActorRef := Str(e.actorRef), F.SessionRef := Str(e.sessionRef), F.ProjectRef := Str(e.projectRef),
        F.SourceEvidenceHash := Str(e.sourceHash), F.IdempotencyKey := Str(e.idempotencyKey),
        F.EventAt := Str(e.eventAt), F.ObservedAt := Str(e.observedAt), F.RetentionClass := Str(CONTROL_PLANE)]
  }

  function EventTail(e: Event, parts: EventParts): Record {
    map[F.ResourceRefs := parts.resources, F.PacketRef := parts.packet, F.PolicyRef := parts.policy,
        F.ApprovalRequestRef := parts.request, F.ApprovalDecisionRef := parts.decision,
        F.ReasonCodes := parts.reasons, F.Redaction := parts.redaction,
        F.AuthenticatedProvenance := Bool(false), F.PersistenceRequested := Bool(false),
        F.ExecutionAuthorized := Bool(e.executionAuthorized), F.SideEffects := NO_EFFECTS]
  }

  function EventRecord(e: Event, parts: EventParts): Record { EventHead(e) + EventTail(e, parts) }

  /** `audit_event_json_value` without the identity. */
  ghost function EventJson(p: Primitives, e: Event): Json { Obj(Object(p.spell, EventRecord(e, EventPartsOf(p, e)))) }

  // ---------------------------------------------------------------- everything but the packet is plain

  lemma PacketRefPlain(p: Primitives, r: PacketRef)
    ensures Plain(p, Obj(Object(p.spell, PacketRefRecord(r))))
  {
  }

  lemma CapabilityPlain(p: Primitives, c: CapabilityDecision)
    ensures Plain(p, Obj(Object(p.spell, CapabilityRecord(c))))
  {
  }

  lemma CapabilitiesPlain(p: Primitives, cs: seq<CapabilityDecision>)
    ensures Plain(p, CapabilitiesJson(p, cs))
  {
    forall i | 0 <= i < |cs| ensures Plain(p, CapabilitiesJson(p, cs).items[i]) {
      CapabilityPlain(p, cs[i]);
    }
  }

  lemma PolicyFieldsPlain(p: Primitives, d: Policy, packet: Json, resources: Json, capabilities: Json, reasons: Json)
    requires d.riskLevel <= 8
    requires Plain(p, packet) && Plain(p, resources) && Plain(p, capabilities) && Plain(p, reasons)
    ensures PlainRecord(p, PolicyRecord(d, packet, resources, capabilities, reasons))
  {
  }

  lemma PolicyPlain(p: Primitives, d: Policy)
    requires d.riskLevel <= 8
    ensures Plain(p, PolicyJson(p, d))
  {
    var packet := Obj(Object(p.spell, PacketRefRecord(d.packetRef)));
    var resources, reasons := Strings(d.resourceRefs), Strings(ReasonCodes(d.reasons));
    var capabilities := CapabilitiesJson(p, d.capabilities);
    PacketRefPlain(p, d.packetRef);
    StringsPlain(p, d.resourceRefs);
    CapabilitiesPlain(p, d.capabilities);
    StringsPlain(p, ReasonCodes(d.reasons));
    PolicyFieldsPlain(p, d, packet, resources, capabilities, reasons);
    PlainObject(p.spell, p, PolicyRecord(d, packet, resources, capabilities, reasons));
  }

  lemma PlainAdded(p: Primitives, x: Record, f: F.Field, v: Json)
    requires PlainRecord(p, x) && Plain(p, v)
    ensures PlainRecord(p, x[f := v])
  {
  }

  lemma FullRequestPlain(p: Primitives, r: Request)
    ensures Plain(p, FullRequestJson(p, r))
  {
    PartsPlain(p, r);
    FieldsPlain(p, r, PartsOf(p, r));
    PlainAdded(p, RequestRecord(r, PartsOf(p, r)), F.ApprovalRequestId, Str(r.requestId));
    PlainObject(p.spell, p, FullRequestRecord(r, PartsOf(p, r)));
  }

  lemma RequestRefPlain(p: Primitives, r: RequestRef)
    ensures Plain(p, Obj(Object(p.spell, RequestRefRecord(r))))
  {
  }

  lemma DecisionFieldsPlain(p: Primitives, d: Decision, request: Json)
    requires Plain(p, request)
    ensures PlainRecord(p, DecisionRecord(d, request))
  {
  }

  lemma DecisionPlain(p: Primitives, d: Decision)
    ensures Plain(p, DecisionJson(p, d))
  {
    var request := Obj(Object(p.spell, RequestRefRecord(d.requestRef)));
    RequestRefPlain(p, d.requestRef);
    DecisionFieldsPlain(p, d, request);
    PlainObject(p.spell, p, DecisionRecord(d, request));
  }

  ghost predicate EventPartsPlain(p: Primitives, parts: EventParts) {
    && Plain(p, parts.resources) && Plain(p, parts.packet) && Plain(p, parts.policy) && Plain(p, parts.request)
    && Plain(p, parts.decision) && Plain(p, parts.reasons) && Plain(p, parts.redaction)
  }

  lemma PolicyRefJsonPlain(p: Primitives, id: Text, kind: Kind)
    ensures Plain(p, Obj(Object(p.spell, PolicyRefJsonRecord(id, kind))))
  {
  }

  lemma EventRequestPlain(p: Primitives, r: Request)
    ensures Plain(p, Obj(Object(p.spell, EventRequestRecord(r))))
  {
  }

  lemma EventDecisionPlain(p: Primitives, d: Decision)
    ensures Plain(p, Obj(Object(p.spell, EventDecisionRecord(d))))
  {
  }

  lemma RedactionPlain(p: Primitives)
    ensures Plain(p, Obj(Object(p.spell, RedactionRecord())))
  {
  }

  lemma EventPartsArePlain(p: Primitives, e: Event)
    ensures EventPartsPlain(p, EventPartsOf(p, e))
  {
    StringsPlain(p, e.resourceRefs);
    PacketRefPlain(p, e.packetRef);
    PolicyRefJsonPlain(p, e.policyDecisionId, e.policyKind);
    if e.requestRef.Some? { EventRequestPlain(p, e.requestRef.value); }
    if e.decisionRef.Some? { EventDecisionPlain(p, e.decisionRef.value); }
    StringsPlain(p, e.reasonCodes);
    RedactionPlain(p);
  }

  lemma EventFieldsPlain(p: Primitives, e: Event, parts: EventParts)
    requires EventPartsPlain(p, parts)
    ensures PlainRecord(p, EventRecord(e, parts))
  {
    HeadPlain(p, e);
    TailPlain(p, e, parts);
    PlainJoined(p, EventHead(e), EventTail(e, parts));
  }

  lemma HeadPlain(p: Primitives, e: Event)
    ensures PlainRecord(p, EventHead(e))
  {
  }

  lemma TailPlain(p: Primitives, e: Event, parts: EventParts)
    requires EventPartsPlain(p, parts)
    ensures PlainRecord(p, EventTail(e, parts))
  {
  }

  lemma PlainJoined(p: Primitives, x: Record, y: Record)
    requires PlainRecord(p, x) && PlainRecord(p, y)
    ensures PlainRecord(p, x + y)
  {
  }

  /** Hashing an event's body cannot fail. */
  lemma EventPlain(p: Primitives, e: Event)
    ensures Plain(p, EventJson(p, e))
  {
    EventPartsArePlain(p, e);
    EventFieldsPlain(p, e, EventPartsOf(p, e));
    PlainObject(p.spell, p, EventRecord(e, EventPartsOf(p, e)));
  }
}
