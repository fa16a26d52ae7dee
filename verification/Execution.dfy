/**
 The execution-request contract (`execution.rs`): a request is derived from a hashed packet
 and its approval chain, written as canonical text with digests of its parts, parsed back
 from that text and verified against it.
 */
module Execution {
  import opened Texts
  import opened Bytes
  import opened Json
  import opened ContractJson
  import opened Grammar
  import opened Objects
  import opened Timestamps
  import opened Packet
  import F = FieldNames

  datatype Action = Action(kind: Text, arguments: map<Text, Json>)
  datatype Target = Target(resourceRef: Text, identity: map<Text, Json>)
  datatype Adapter = Adapter(adapterRef: Text, version: Text)

  datatype Proposal = Proposal(
    action: Action, target: Target, configurationDigest: Text, adapter: Adapter,
    executableDigest: Text, audience: Text)

  datatype Input = Input(
    packet: Envelope, packetSha256: Text, policyDecisionId: Text, approvalRequestId: Text,
    approvalDecisionId: Text, requesterRef: Text, requesterSessionRef: Text, approverRef: Text,
    approverSessionRef: Text, preparedAt: Text, expiresAt: Text)

  datatype Request = Request(
    contractVersion: Text, schemaId: Text, derivationProfile: Text, packetId: Text,
    packetSha256: Text, policyDecisionId: Text, approvalRequestId: Text, approvalDecisionId: Text,
    requesterRef: Text, requesterSessionRef: Text, approverRef: Text, approverSessionRef: Text,
    projectRef: Text, resourceRef: Text, action: Action, target: Target, configurationDigest: Text,
    adapter: Adapter, executableDigest: Text, audience: Text, preparedAt: Text, expiresAt: Text)

  datatype Derived = Derived(
    request: Request, canonicalRequest: Text, requestDigest: seq<Byte>, actionDigest: seq<Byte>,
    targetDigest: seq<Byte>, configurationDigest: seq<Byte>, executableDigest: seq<Byte>)

  datatype Error =
    InvalidPacket | ProposalMissing | ProposalInvalid | ChainInvalid | TimeInvalid | CanonicalizationFailed

  datatype Result<+T> = Ok(value: T) | Err(error: Error)

  const PROPOSAL_SCHEMA: Text := Ascii("lnsat.execution_proposal.schema.v1_0")
  const REQUEST_SCHEMA: Text := Ascii("lnsat.execution_request.schema.v1_0")
  const PROFILE: Text := Ascii("lnsat.execution_request.packet_embedded.v1")
  const ACTION_DOMAIN: Text := Ascii("lnsat.execution-request.action.v1")
  const TARGET_DOMAIN: Text := Ascii("lnsat.execution-request.target.v1")

  // ---------------------------------------------------------------- JSON forms

  function ActionRecord(a: Action): Record {
    map[F.Kind := Str(a.kind), F.Arguments := Obj(a.arguments)]
  }

  function TargetRecord(t: Target): Record {
    map[F.ResourceRef := Str(t.resourceRef), F.Identity := Obj(t.identity)]
  }

  function AdapterRecord(a: Adapter): Record {
    map[F.Ref := Str(a.adapterRef), F.Version := Str(a.version)]
  }

  function PacketRefRecord(packetId: Text, sha256: Text): Record {
    map[F.SchemaId := Str(PACKET_SCHEMA), F.PacketId := Str(packetId), F.PacketSha256 := Str(sha256)]
  }

  /** The three references to earlier evidence differ only in schema and identity field. */
  function EvidenceRecord(schema: Text, name: F.Field, id: Text): Record {
    map[F.SchemaId := Str(schema), name := Str(id)]
  }

  /** The parts of a request that are objects themselves. */
  datatype Parts = Parts(packet: Json, policy: Json, request: Json, decision: Json,
                         action: Json, target: Json, adapter: Json)

  ghost function PartsOf(p: Primitives, r: Request): Parts {
    Parts(Obj(Object(p.spell, PacketRefRecord(r.packetId, r.packetSha256))),
          Obj(Object(p.spell, EvidenceRecord(POLICY_SCHEMA, F.DecisionId, r.policyDecisionId))),
          Obj(Object(p.spell, EvidenceRecord(APPROVAL_REQUEST_SCHEMA, F.ApprovalRequestId, r.approvalRequestId))),
          Obj(Object(p.spell, EvidenceRecord(APPROVAL_DECISION_SCHEMA, F.ApprovalDecisionId, r.approvalDecisionId))),
          ActionJson(p, r.action), TargetJson(p, r.target), Obj(Object(p.spell, AdapterRecord(r.adapter))))
  }

  const REQUEST_FIELDS: set<F.Field> := {
    F.ContractVersion, F.SchemaId, F.DerivationProfile, F.PacketRef, F.PolicyDecisionRef,
    F.ApprovalRequestRef, F.ApprovalDecisionRef, F.RequesterRef, F.RequesterSessionRef,
    F.ApproverRef, F.ApproverSessionRef, F.ProjectRef, F.ResourceRef, F.Action, F.Target,
    F.ConfigurationDigest, F.Adapter, F.ExecutableDigest, F.Audience, F.PreparedAt, F.ExpiresAt}

  const PROPOSAL_FIELDS: set<F.Field> := {
    F.SchemaId, F.DerivationProfile, F.Action, F.Target, F.ConfigurationDigest, F.Adapter,
    F.ExecutableDigest, F.Audience}

  function RequestRecord(r: Request, parts: Parts): Record {
    map[F.ContractVersion := Str(r.contractVersion), F.SchemaId := Str(r.schemaId),
        F.DerivationProfile := Str(r.derivationProfile), F.PacketRef := parts.packet,
        F.PolicyDecisionRef := parts.policy, F.ApprovalRequestRef := parts.request,
        F.ApprovalDecisionRef := parts.decision, F.RequesterRef := Str(r.requesterRef),
        F.RequesterSessionRef := Str(r.requesterSessionRef), F.ApproverRef := Str(r.approverRef),
        F.ApproverSessionRef := Str(r.approverSessionRef), F.ProjectRef := Str(r.projectRef),
        F.ResourceRef := Str(r.resourceRef), F.Action := parts.action, F.Target := parts.target,
        F.ConfigurationDigest := Str(r.configurationDigest), F.Adapter := parts.adapter,
        F.ExecutableDigest := Str(r.executableDigest), F.Audience := Str(r.audience),
        F.PreparedAt := Str(r.preparedAt), F.ExpiresAt := Str(r.expiresAt)]
  }

  ghost function ActionJson(p: Primitives, a: Action): Json { Obj(Object(p.spell, ActionRecord(a))) }

  ghost function TargetJson(p: Primitives, t: Target): Json { Obj(Object(p.spell, TargetRecord(t))) }

  /** `execution_request_json`. */
  ghost function RequestJson(p: Primitives, r: Request): Json {
    Obj(Object(p.spell, RequestRecord(r, PartsOf(p, r))))
  }

  // ---------------------------------------------------------------- field checks

  /** `required_bounded_string`: nonempty, bounded in UTF-16 units, no control character. */
  predicate BoundedString(t: Text, max: nat) {
    t != [] && |t| <= max && forall i :: 0 <= i < |t| ==> !IsControl(t[i])
  }

  predicate IsAsciiAlnum(u: Unit) { IsLower(u) || IsUpper(u) || IsDigit(u) }

  predicate AdapterVersion(t: Text) {
    && t != [] && |t| <= 128 && IsAsciiAlnum(t[0]) && IsAsciiAlnum(t[|t| - 1])
    && forall i :: 0 <= i < |t| ==> IsAsciiAlnum(t[i]) || t[i] in {0x2E, 0x5F, 0x2D}
  }

  predicate ValidAdapter(a: Adapter) {
    && Reference(a.adapterRef) && 0x40 !in a.adapterRef && AdapterVersion(a.version)
    && |a.adapterRef| + |a.version| + 1 <= 256
  }

  /** The record of an object with exactly these fields. */
  ghost function ReadRecord(p: Primitives, v: Json, fields: set<F.Field>): (r: Option<Record>)
    ensures r.Some? ==> r.value.Keys == fields
  {
    if v.Obj? && ExactKeys(p.spell, v.members, fields) then
      var x := RecordOf(p.spell, v.members, fields);
      assert x.Keys == fields;
      Some(x)
    else None
  }

  function ActionOf(x: Record): Option<Action> {
    var kind, arguments := StringIn(x, F.Kind), ObjectIn(x, F.Arguments);
    if kind.Some? && BoundedString(kind.value, 256) && arguments.Some?
    then Some(Action(kind.value, arguments.value)) else None
  }

  function TargetOf(x: Record): Option<Target> {
    var resource, identity := StringIn(x, F.ResourceRef), ObjectIn(x, F.Identity);
    if resource.Some? && identity.Some? then Some(Target(resource.value, identity.value)) else None
  }

  function AdapterOf(x: Record): Option<Adapter> {
    var ref, version := StringIn(x, F.Ref), StringIn(x, F.Version);
    if ref.Some? && version.Some? && ValidAdapter(Adapter(ref.value, version.value))
    then Some(Adapter(ref.value, version.value)) else None
  }

  function EvidenceOf(x: Record, schema: Text, name: F.Field, prefix: Text): Option<Text> {
    var id := StringIn(x, name);
    if id.Some? && StringIn(x, F.SchemaId) == Some(schema) && PrefixedDigest(id.value, prefix) then id else None
  }

  function PacketRefOf(x: Record): Option<(Text, Text)> {
    var id, sha := StringIn(x, F.PacketId), StringIn(x, F.PacketSha256);
    if id.Some? && sha.Some? && StringIn(x, F.SchemaId) == Some(PACKET_SCHEMA)
       && PrefixedDigest(id.value, PKT) && PrefixedDigest(sha.value, SHA256_PREFIX)
    then Some((id.value, sha.value)) else None
  }

  ghost function ReadAction(p: Primitives, v: Json): Option<Action> {
    var x := ReadRecord(p, v, {F.Kind, F.Arguments});
    if x.Some? then ActionOf(x.value) else None
  }

  ghost function ReadTarget(p: Primitives, v: Json): Option<Target> {
    var x := ReadRecord(p, v, {F.ResourceRef, F.Identity});
    if x.Some? then TargetOf(x.value) else None
  }

  ghost function ReadAdapter(p: Primitives, v: Json): Option<Adapter> {
    var x := ReadRecord(p, v, {F.Ref, F.Version});
    if x.Some? then AdapterOf(x.value) else None
  }

  ghost function ReadEvidence(p: Primitives, v: Json, schema: Text, name: F.Field, prefix: Text): Option<Text> {
    var x := ReadRecord(p, v, {F.SchemaId, name});
    if x.Some? then EvidenceOf(x.value, schema, name, prefix) else None
  }

  ghost function ReadPacketRef(p: Primitives, v: Json): Option<(Text, Text)> {
    var x := ReadRecord(p, v, {F.SchemaId, F.PacketId, F.PacketSha256});
    if x.Some? then PacketRefOf(x.value) else None
  }

  function DigestIn(x: Record, f: F.Field): Option<Text> {
    var t := StringIn(x, f);
    if t.Some? && PrefixedDigest(t.value, SHA256_PREFIX) then t else None
  }

  function ReferenceIn(x: Record, f: F.Field): Option<Text> {
    var t := StringIn(x, f);
    if t.Some? && Reference(t.value) then t else None
  }

  // ---------------------------------------------------------------- proposal and derivation

  /** `parse_execution_proposal_v1`: a missing field and a malformed one are different errors. */
  ghost function ParseProposal(p: Primitives, k: Envelope): Result<Proposal> {
    if p.spell(F.ExecutionProposal) !in k.constraints then Err(ProposalMissing)
    else
      var record := ReadRecord(p, k.constraints[p.spell(F.ExecutionProposal)], PROPOSAL_FIELDS);
      var proposal := if record.Some? then ProposalOf(p, record.value, k.resourceRefs) else None;
      if proposal.Some? then Ok(proposal.value) else Err(ProposalInvalid)
  }

  ghost function ProposalOf(p: Primitives, x: Record, resources: seq<Text>): Option<Proposal>
    requires x.Keys == PROPOSAL_FIELDS
  {
    if StringIn(x, F.SchemaId) != Some(PROPOSAL_SCHEMA) || StringIn(x, F.DerivationProfile) != Some(PROFILE)
    then None
    else
      var action, target := ReadAction(p, x[F.Action]), ReadTarget(p, x[F.Target]);
      var adapter, audience := ReadAdapter(p, x[F.Adapter]), ReferenceIn(x, F.Audience);
      var configuration, executable := DigestIn(x, F.ConfigurationDigest), DigestIn(x, F.ExecutableDigest);
      if && action.Some? && Canonicalizable(p, Obj(action.value.arguments))
         && target.Some? && Canonicalizable(p, Obj(target.value.identity))
         && Reference(target.value.resourceRef) && target.value.resourceRef in resources
         && configuration.Some? && executable.Some? && adapter.Some? && audience.Some?
         && BoundedString(adapter.value.version, 128)
      then Some(Proposal(action.value, target.value, configuration.value, adapter.value,
                         executable.value, audience.value))
      else None
  }

  ghost function DomainDigest(p: Primitives, domain: Text, v: Json): Option<seq<Byte>> {
    var canonical := Canonicalize(p, v);
    if canonical.None? then None
    else Some(p.sha256(LengthFrame(Utf8(domain), Utf8(canonical.value))))
  }

  /** Canonical text and every digest of a request, or the first failure on the way. */
  ghost function Rebuild(p: Primitives, r: Request): Result<Derived> {
    Assemble(p, r, Canonicalize(p, RequestJson(p, r)),
             DomainDigest(p, ACTION_DOMAIN, ActionJson(p, r.action)), DomainDigest(p, TARGET_DOMAIN, TargetJson(p, r.target)),
             DecodeSha256(r.configurationDigest), DecodeSha256(r.executableDigest))
  }

  function Assemble(p: Primitives, r: Request, canonical: Option<Text>, action: Option<seq<Byte>>,
                    target: Option<seq<Byte>>, configuration: Option<seq<Byte>>, executable: Option<seq<Byte>>): Result<Derived> {
    if canonical.None? || action.None? || target.None? then Err(CanonicalizationFailed)
    else if configuration.None? || executable.None? then Err(ProposalInvalid)
    else Ok(Derived(r, canonical.value, p.sha256(Utf8(canonical.value)), action.value, target.value,
                    configuration.value, executable.value))
  }

  function DerivedRequest(i: Input, q: Proposal): Request {
    Request(CONTRACT_VERSION, REQUEST_SCHEMA, PROFILE, i.packet.packetId, i.packetSha256,
            i.policyDecisionId, i.approvalRequestId, i.approvalDecisionId, i.requesterRef,
            i.requesterSessionRef, i.approverRef, i.approverSessionRef, i.packet.projectRef,
            q.target.resourceRef, q.action, q.target, q.configurationDigest, q.adapter,
            q.executableDigest, q.audience, i.preparedAt, i.expiresAt)
  }

  /** The identities of the approval chain have their shapes. */
  predicate ChainIdentities(i: Input) {
    && PrefixedDigest(i.policyDecisionId, POL) && PrefixedDigest(i.approvalRequestId, APR)
    && PrefixedDigest(i.approvalDecisionId, APD)
    && Reference(i.requesterRef) && Reference(i.requesterSessionRef)
    && Reference(i.approverRef) && Reference(i.approverSessionRef)
  }

  /** `derive_execution_request_v1`. */
  ghost function Derive(p: Primitives, i: Input): Result<Derived> {
    DeriveWith(p, i, HashPacket(p, i.packet), ChainIdentities(i), Ordered(i.preparedAt, i.expiresAt), ParseProposal(p, i.packet))
  }

  /** The order of the checks, given what each of them finds. */
  ghost function DeriveWith(p: Primitives, i: Input, hash: Option<Text>, identities: bool, ordered: bool,
                            proposal: Result<Proposal>): Result<Derived> {
    if hash.None? then Err(InvalidPacket)
    else if hash.value != i.packetSha256 || !identities then Err(ChainInvalid)
    else if !ordered then Err(TimeInvalid)
    else if proposal.Err? then Err(proposal.error)
    else Rebuild(p, DerivedRequest(i, proposal.value))
  }

  predicate Ordered(prepared: Text, expires: Text) {
    Instant(prepared).Some? && Instant(expires).Some? && Instant(prepared).value < Instant(expires).value
  }

  /** `verify_derived_execution_request_v1`. */
  ghost function Verify(p: Primitives, d: Derived): Result<()> {
    var rebuilt := Rebuild(p, d.request);
    if rebuilt.Err? then Err(rebuilt.error)
    else if rebuilt.value != d then Err(ChainInvalid)
    else Ok(())
  }

  // ---------------------------------------------------------------- parsing

  /** The field checks of `parse_canonical_execution_request_v1`, short of the time bounds. */
  ghost function Extract(p: Primitives, v: Json): Option<Request> {
    var record := ReadRecord(p, v, REQUEST_FIELDS);
    if record.Some? then RequestOf(p, record.value) else None
  }

  ghost function RequestOf(p: Primitives, x: Record): Option<Request>
    requires x.Keys == REQUEST_FIELDS
  {
    if StringIn(x, F.ContractVersion) != Some(CONTRACT_VERSION)
       || StringIn(x, F.SchemaId) != Some(REQUEST_SCHEMA)
       || StringIn(x, F.DerivationProfile) != Some(PROFILE)
    then None
    else
      var packet := ReadPacketRef(p, x[F.PacketRef]);
      var policy := ReadEvidence(p, x[F.PolicyDecisionRef], POLICY_SCHEMA, F.DecisionId, POL);
      var request := ReadEvidence(p, x[F.ApprovalRequestRef], APPROVAL_REQUEST_SCHEMA, F.ApprovalRequestId, APR);
      var decision := ReadEvidence(p, x[F.ApprovalDecisionRef], APPROVAL_DECISION_SCHEMA, F.ApprovalDecisionId, APD);
      var requester, requesterSession := ReferenceIn(x, F.RequesterRef), ReferenceIn(x, F.RequesterSessionRef);
      var approver, approverSession := ReferenceIn(x, F.ApproverRef), ReferenceIn(x, F.ApproverSessionRef);
      var project, resource, audience := ReferenceIn(x, F.ProjectRef), ReferenceIn(x, F.ResourceRef), ReferenceIn(x, F.Audience);
      var action, target, adapter := ReadAction(p, x[F.Action]), ReadTarget(p, x[F.Target]), ReadAdapter(p, x[F.Adapter]);
      var configuration, executable := DigestIn(x, F.ConfigurationDigest), DigestIn(x, F.ExecutableDigest);
      var prepared, expires := StringIn(x, F.PreparedAt), StringIn(x, F.ExpiresAt);
      if && packet.Some? && policy.Some? && request.Some? && decision.Some?
         && requester.Some? && requesterSession.Some? && approver.Some? && approverSession.Some?
         && project.Some? && resource.Some? && audience.Some?
         && action.Some? && target.Some? && target.value.resourceRef == resource.value && adapter.Some?
         && configuration.Some? && executable.Some? && prepared.Some? && expires.Some?
      then Some(Request(CONTRACT_VERSION, REQUEST_SCHEMA, PROFILE, packet.value.0, packet.value.1,
                        policy.value, request.value, decision.value, requester.value, requesterSession.value,
                        approver.value, approverSession.value, project.value, resource.value, action.value,
                        target.value, configuration.value, adapter.value, executable.value, audience.value,
                        prepared.value, expires.value))
      else None
  }

  /**
   `parse_canonical_execution_request_v1`. The last step re-verifies the record it built;
   `self` is that record, whose text is the input and whose digests come from the parts.
   */
  ghost function Parse(p: Primitives, text: Text): Result<Derived> {
    var value := FromStr(text);
    if value.None? then Err(ProposalInvalid)
    else
      var canonical := Canonicalize(p, value.value);
      if canonical.None? then Err(CanonicalizationFailed)
      else if canonical.value != text then Err(ChainInvalid)
      else
        var request := Extract(p, value.value);
        if request.None? then Err(ProposalInvalid)
        else if !Ordered(request.value.preparedAt, request.value.expiresAt) then Err(TimeInvalid)
        else
          var rebuilt := Rebuild(p, request.value);
          if rebuilt.Err? then Err(rebuilt.error)
          else
            var self := rebuilt.value.(canonicalRequest := text, requestDigest := p.sha256(Utf8(text)));
            var verified := Verify(p, self);
            if verified.Err? then Err(verified.error) else Ok(self)
  }
}
