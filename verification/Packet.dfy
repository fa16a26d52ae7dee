/**
 The packet envelope (`packet.rs`): its JSON form, the checks a packet must pass to be
 hashed, and its content hash. Hashing serializes and re-parses the packet, so a packet that
 has a hash is one the parser accepts, including the parser's bound on nesting.
 */
module Packet {
  import opened Texts
  import opened Bytes
  import opened Json
  import opened ContractJson
  import opened Grammar
  import opened Objects
  import opened Timestamps
  import F = FieldNames

  datatype Budget = Budget(tokens: nat, runtimeSeconds: nat, costMicrousd: nat, cpuMillicores: nat, memoryBytes: nat)

  datatype Envelope = Envelope(
    contractVersion: Text, schemaId: Text, packetId: Text, packetType: Text,
    actorRef: Text, sessionRef: Text, projectRef: Text, intent: Text, riskLevel: nat,
    sourceRefs: seq<Text>, resourceRefs: seq<Text>, policyProfileRef: Text,
    permissionAllow: seq<Text>, permissionBlock: seq<Text>, budget: Budget,
    constraints: map<Text, Json>, requiresApproval: bool, idempotencyKey: Text,
    createdAt: Text, expiresAt: Text)

  const CONTRACT_VERSION: Text := Ascii("lnsat.contracts.v1_0")
  const PACKET_SCHEMA: Text := Ascii("lnsat.packet_envelope.schema.v1_0")
  const POLICY_SCHEMA: Text := Ascii("lnsat.policy_decision.schema.v1_0")
  const APPROVAL_REQUEST_SCHEMA: Text := Ascii("lnsat.approval_request.schema.v1_0")
  const APPROVAL_DECISION_SCHEMA: Text := Ascii("lnsat.approval_decision.schema.v1_0")
  const PKT: Text := Ascii("pkt_")
  const POL: Text := Ascii("pol_")
  const APR: Text := Ascii("apr_")
  const APD: Text := Ascii("apd_")
  const IDEM: Text := Ascii("idem_")
  const IDENTITY: Text := Ascii("identity:")
  const SESSION: Text := Ascii("session:")
  const PROJECT: Text := Ascii("project:")
  const POLICY: Text := Ascii("policy:")

  const PACKET_TYPES: seq<Text> := [
    Ascii("ContextPacket"), Ascii("CapabilityPacket"), Ascii("ExecutionPacket"),
    Ascii("EnvironmentPacket"), Ascii("ResourcePacket"), Ascii("ResultPacket"),
    Ascii("AuditPacket"), Ascii("PatchPacket"), Ascii("SecretUsePacket"), Ascii("NodeTelemetryPacket")]

  function Strings(ts: seq<Text>): (v: Json)
    ensures v.Arr? && |v.items| == |ts| && forall i :: 0 <= i < |ts| ==> v.items[i] == Str(ts[i])
  {
    Arr(seq(|ts|, i requires 0 <= i < |ts| => Str(ts[i])))
  }

  function BudgetRecord(b: Budget): Record {
    map[F.Tokens := Num(Int(b.tokens)), F.RuntimeSeconds := Num(Int(b.runtimeSeconds)),
        F.CostMicrousd := Num(Int(b.costMicrousd)), F.CpuMillicores := Num(Int(b.cpuMillicores)),
        F.MemoryBytes := Num(Int(b.memoryBytes))]
  }

  function PermissionRecord(k: Envelope): Record {
    map[F.Allow := Strings(k.permissionAllow), F.Block := Strings(k.permissionBlock)]
  }

  /** The packet's fields, given those of its parts that are not plain strings or numbers. */
  function EnvelopeRecord(k: Envelope, sources: Json, resources: Json, permission: Json, budget: Json): Record {
    map[F.ContractVersion := Str(k.contractVersion), F.SchemaId := Str(k.schemaId),
        F.PacketId := Str(k.packetId), F.PacketType := Str(k.packetType), F.ActorRef := Str(k.actorRef),
        F.SessionRef := Str(k.sessionRef), F.ProjectRef := Str(k.projectRef), F.Intent := Str(k.intent),
        F.RiskLevel := Num(Int(k.riskLevel)), F.SourceRefs := sources, F.ResourceRefs := resources,
        F.PolicyProfileRef := Str(k.policyProfileRef), F.PermissionEnvelope := permission,
        F.Budget := budget, F.Constraints := Obj(k.constraints),
        F.RequiresApproval := Bool(k.requiresApproval), F.IdempotencyKey := Str(k.idempotencyKey),
        F.CreatedAt := Str(k.createdAt), F.ExpiresAt := Str(k.expiresAt)]
  }

  ghost function PacketRecord(p: Primitives, k: Envelope): Record {
    EnvelopeRecord(k, Strings(k.sourceRefs), Strings(k.resourceRefs),
                   Obj(Object(p.spell, PermissionRecord(k))), Obj(Object(p.spell, BudgetRecord(k.budget))))
  }

  /** `packet_json_value`. */
  ghost function PacketJson(p: Primitives, k: Envelope): Json { Obj(Object(p.spell, PacketRecord(p, k))) }

  predicate SafeBudget(b: Budget) {
    && b.tokens <= MAX_SAFE_INTEGER && b.runtimeSeconds <= MAX_SAFE_INTEGER
    && b.costMicrousd <= MAX_SAFE_INTEGER && b.cpuMillicores <= MAX_SAFE_INTEGER
    && b.memoryBytes <= MAX_SAFE_INTEGER
  }

  /** A packet that the parser accepts in its own JSON form, nesting included. */
  ghost predicate ValidPacket(p: Primitives, k: Envelope) {
    FieldsValid(p, k) && DepthAtMost(PacketJson(p, k), MAX_DEPTH)
  }

  /** What `parse_packet_envelope_v1` checks, on a packet's own fields. */
  ghost predicate FieldsValid(p: Primitives, k: Envelope) {
    && k.contractVersion == CONTRACT_VERSION && k.schemaId == PACKET_SCHEMA
    && Identifier(k.packetId, PKT, 12, 68)
    && k.packetType in PACKET_TYPES
    && ReferenceWith(k.actorRef, IDENTITY) && ReferenceWith(k.sessionRef, SESSION)
    && ReferenceWith(k.projectRef, PROJECT) && ReferenceWith(k.policyProfileRef, POLICY)
    && 0 < |k.intent| <= 4096
    && k.riskLevel <= 8
    && (forall i :: 0 <= i < |k.sourceRefs| ==> Reference(k.sourceRefs[i])) && Distinct(k.sourceRefs)
    && (forall i :: 0 <= i < |k.resourceRefs| ==> Reference(k.resourceRefs[i])) && Distinct(k.resourceRefs)
    && SortedCapabilities(k.permissionAllow) && SortedCapabilities(k.permissionBlock)
    && (forall i :: 0 <= i < |k.permissionAllow| ==> k.permissionAllow[i] !in k.permissionBlock)
    && SafeBudget(k.budget)
    && Canonicalizable(p, Obj(k.constraints))
    && Identifier(k.idempotencyKey, IDEM, 13, 133)
    && Instant(k.createdAt).Some? && Instant(k.expiresAt).Some?
    && Instant(k.createdAt).value < Instant(k.expiresAt).value
  }

  function Sha256Text(p: Primitives, prefix: Text, t: Text): (r: Text)
    ensures PrefixedDigest(r, prefix)
  {
    var hex := EncodeHex(p.sha256(Utf8(t)));
    assert forall i :: |prefix| <= i < |prefix + hex| ==> (prefix + hex)[i] == hex[i - |prefix|];
    prefix + hex
  }

  /** `hash_packet_envelope_v1`; the canonical form it hashes always exists. */
  ghost function HashPacket(p: Primitives, k: Envelope): (r: Option<Text>)
    ensures r.Some? <==> ValidPacket(p, k)
    ensures r.Some? ==> PrefixedDigest(r.value, SHA256_PREFIX)
  {
    if ValidPacket(p, k) then
      PacketCanonicalizable(p, k);
      Some(Sha256Text(p, SHA256_PREFIX, Canonicalize(p, PacketJson(p, k)).value))
    else None
  }

  lemma StringsPlain(p: Primitives, ts: seq<Text>)
    ensures Plain(p, Strings(ts))
  {
  }

  lemma StringsInjective(a: seq<Text>, b: seq<Text>)
    requires Strings(a) == Strings(b)
    ensures a == b
  {
  }

  lemma BudgetCanonicalizable(p: Primitives, b: Budget)
    requires SafeBudget(b)
    ensures AllCanonicalizable(p, BudgetRecord(b))
  {
  }

  lemma PermissionCanonicalizable(p: Primitives, k: Envelope)
    ensures AllCanonicalizable(p, PermissionRecord(k))
  {
  }

  lemma FieldsCanonicalizable(p: Primitives, k: Envelope, sources: Json, resources: Json, permission: Json, budget: Json)
    requires k.riskLevel <= 8 && Canonicalizable(p, Obj(k.constraints))
    requires Canonicalizable(p, sources) && Canonicalizable(p, resources)
    requires Canonicalizable(p, permission) && Canonicalizable(p, budget)
    ensures AllCanonicalizable(p, EnvelopeRecord(k, sources, resources, permission, budget))
  {
  }

  lemma PacketCanonicalizable(p: Primitives, k: Envelope)
    requires SafeBudget(k.budget) && k.riskLevel <= 8 && Canonicalizable(p, Obj(k.constraints))
    ensures Canonicalizable(p, PacketJson(p, k))
  {
    BudgetCanonicalizable(p, k.budget);
    ObjectCanonicalizable(p.spell, p, BudgetRecord(k.budget));
    PermissionCanonicalizable(p, k);
    ObjectCanonicalizable(p.spell, p, PermissionRecord(k));
    StringsPlain(p, k.sourceRefs);
    StringsPlain(p, k.resourceRefs);
    FieldsCanonicalizable(p, k, Strings(k.sourceRefs), Strings(k.resourceRefs),
                          Obj(Object(p.spell, PermissionRecord(k))), Obj(Object(p.spell, BudgetRecord(k.budget))));
    ObjectCanonicalizable(p.spell, p, PacketRecord(p, k));
  }
}
