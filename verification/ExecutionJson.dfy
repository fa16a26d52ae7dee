/**
 Reading back what the execution contract writes: a request's JSON form determines the
 request, and an object the parser accepts is the form of the request it extracts.
 */
module ExecutionJson {
  import opened Texts
  import opened Bytes
  import opened Json
  import opened ContractJson
  import opened Grammar
  import opened Objects
  import opened Packet
  import opened Execution
  import F = FieldNames

  /** What the parser checks of a request apart from its packet id and its time bounds. */
  predicate FieldChecks(r: Request) {
    && r.contractVersion == CONTRACT_VERSION && r.schemaId == REQUEST_SCHEMA && r.derivationProfile == PROFILE
    && PrefixedDigest(r.packetSha256, SHA256_PREFIX)
    && PrefixedDigest(r.policyDecisionId, POL) && PrefixedDigest(r.approvalRequestId, APR)
    && PrefixedDigest(r.approvalDecisionId, APD)
    && Reference(r.requesterRef) && Reference(r.requesterSessionRef)
    && Reference(r.approverRef) && Reference(r.approverSessionRef)
    && Reference(r.projectRef) && Reference(r.resourceRef) && Reference(r.audience)
    && BoundedString(r.action.kind, 256) && r.target.resourceRef == r.resourceRef
    && ValidAdapter(r.adapter)
    && PrefixedDigest(r.configurationDigest, SHA256_PREFIX) && PrefixedDigest(r.executableDigest, SHA256_PREFIX)
  }

  // ---------------------------------------------------------------- one object

  lemma RecordReads(p: Primitives, x: Record, fields: set<F.Field>)
    requires x.Keys == fields
    ensures ReadRecord(p, Obj(Object(p.spell, x)), fields) == Some(x)
  {
    RecordWritten(p.spell, x);
  }

  lemma RecordWrites(p: Primitives, v: Json, fields: set<F.Field>)
    requires ReadRecord(p, v, fields).Some?
    ensures v == Obj(Object(p.spell, ReadRecord(p, v, fields).value))
  {
    ObjectRead(p.spell, v.members, fields);
  }

  lemma ActionReads(p: Primitives, a: Action)
    requires BoundedString(a.kind, 256)
    ensures ReadAction(p, ActionJson(p, a)) == Some(a)
  {
    RecordReads(p, ActionRecord(a), {F.Kind, F.Arguments});
  }

  lemma ActionRecordOf(x: Record)
    requires x.Keys == {F.Kind, F.Arguments} && ActionOf(x).Some?
    ensures x == ActionRecord(ActionOf(x).value)
  {
  }

  lemma ActionWrites(p: Primitives, v: Json)
    requires ReadAction(p, v).Some?
    ensures v == ActionJson(p, ReadAction(p, v).value) && BoundedString(ReadAction(p, v).value.kind, 256)
  {
    var fields := {F.Kind, F.Arguments};
    RecordWrites(p, v, fields);
    ActionRecordOf(ReadRecord(p, v, fields).value);
  }

  lemma TargetReads(p: Primitives, t: Target)
    ensures ReadTarget(p, TargetJson(p, t)) == Some(t)
  {
    RecordReads(p, TargetRecord(t), {F.ResourceRef, F.Identity});
  }

  lemma TargetWrites(p: Primitives, v: Json)
    requires ReadTarget(p, v).Some?
    ensures v == TargetJson(p, ReadTarget(p, v).value)
  {
    var fields := {F.ResourceRef, F.Identity};
    RecordWrites(p, v, fields);
    var x := ReadRecord(p, v, fields).value;
    assert x == TargetRecord(TargetOf(x).value);
  }

  lemma AdapterReads(p: Primitives, a: Adapter)
    requires ValidAdapter(a)
    ensures ReadAdapter(p, Obj(Object(p.spell, AdapterRecord(a)))) == Some(a)
  {
    RecordReads(p, AdapterRecord(a), {F.Ref, F.Version});
  }

  lemma AdapterWrites(p: Primitives, v: Json)
    requires ReadAdapter(p, v).Some?
    ensures v == Obj(Object(p.spell, AdapterRecord(ReadAdapter(p, v).value)))
    ensures ValidAdapter(ReadAdapter(p, v).value)
  {
    var fields := {F.Ref, F.Version};
    RecordWrites(p, v, fields);
    var x := ReadRecord(p, v, fields).value;
    assert x == AdapterRecord(AdapterOf(x).value);
  }

  lemma EvidenceReads(p: Primitives, schema: Text, name: F.Field, prefix: Text, id: Text)
    requires name != F.SchemaId && PrefixedDigest(id, prefix)
    ensures ReadEvidence(p, Obj(Object(p.spell, EvidenceRecord(schema, name, id))), schema, name, prefix) == Some(id)
  {
    RecordReads(p, EvidenceRecord(schema, name, id), {F.SchemaId, name});
  }

  lemma EvidenceWrites(p: Primitives, v: Json, schema: Text, name: F.Field, prefix: Text)
    requires name != F.SchemaId && ReadEvidence(p, v, schema, name, prefix).Some?
    ensures var id := ReadEvidence(p, v, schema, name, prefix).value;
            v == Obj(Object(p.spell, EvidenceRecord(schema, name, id))) && PrefixedDigest(id, prefix)
  {
    var fields := {F.SchemaId, name};
    RecordWrites(p, v, fields);
    var x := ReadRecord(p, v, fields).value;
    assert x == EvidenceRecord(schema, name, EvidenceOf(x, schema, name, prefix).value);
  }

  /** The packet reference is readable exactly when the packet id is a prefixed digest. */
  lemma PacketRefReads(p: Primitives, packetId: Text, sha: Text)
    requires PrefixedDigest(sha, SHA256_PREFIX)
    ensures ReadPacketRef(p, Obj(Object(p.spell, PacketRefRecord(packetId, sha))))
         == if PrefixedDigest(packetId, PKT) then Some((packetId, sha)) else None
  {
    RecordReads(p, PacketRefRecord(packetId, sha), {F.SchemaId, F.PacketId, F.PacketSha256});
  }

  lemma PacketRefWrites(p: Primitives, v: Json)
    requires ReadPacketRef(p, v).Some?
    ensures var (id, sha) := ReadPacketRef(p, v).value;
            && v == Obj(Object(p.spell, PacketRefRecord(id, sha)))
            && PrefixedDigest(id, PKT) && PrefixedDigest(sha, SHA256_PREFIX)
  {
    var fields := {F.SchemaId, F.PacketId, F.PacketSha256};
    RecordWrites(p, v, fields);
    var x := ReadRecord(p, v, fields).value;
    var (id, sha) := PacketRefOf(x).value;
    assert x == PacketRefRecord(id, sha);
  }

  // ---------------------------------------------------------------- the whole request

  /** Every part but the packet reference reads back as the request has it. */
  ghost predicate PartsRead(p: Primitives, r: Request, parts: Parts) {
    && ReadEvidence(p, parts.policy, POLICY_SCHEMA, F.DecisionId, POL) == Some(r.policyDecisionId)
    && ReadEvidence(p, parts.request, APPROVAL_REQUEST_SCHEMA, F.ApprovalRequestId, APR) == Some(r.approvalRequestId)
    && ReadEvidence(p, parts.decision, APPROVAL_DECISION_SCHEMA, F.ApprovalDecisionId, APD) == Some(r.approvalDecisionId)
    && ReadAction(p, parts.action) == Some(r.action)
    && ReadTarget(p, parts.target) == Some(r.target)
    && ReadAdapter(p, parts.adapter) == Some(r.adapter)
  }

  lemma PartsAreRead(p: Primitives, r: Request)
    requires FieldChecks(r)
    ensures PartsRead(p, r, PartsOf(p, r))
  {
    EvidenceReads(p, POLICY_SCHEMA, F.DecisionId, POL, r.policyDecisionId);
    EvidenceReads(p, APPROVAL_REQUEST_SCHEMA, F.ApprovalRequestId, APR, r.approvalRequestId);
    EvidenceReads(p, APPROVAL_DECISION_SCHEMA, F.ApprovalDecisionId, APD, r.approvalDecisionId);
    ActionReads(p, r.action);
    TargetReads(p, r.target);
    AdapterReads(p, r.adapter);
  }

  /** `x` has the request's fields with the request's values. */
  predicate HoldsStrings(x: Record, r: Request)
    requires x.Keys == REQUEST_FIELDS
  {
    && x[F.ContractVersion] == Str(r.contractVersion) && x[F.SchemaId] == Str(r.schemaId)
    && x[F.DerivationProfile] == Str(r.derivationProfile)
    && x[F.RequesterRef] == Str(r.requesterRef) && x[F.RequesterSessionRef] == Str(r.requesterSessionRef)
    && x[F.ApproverRef] == Str(r.approverRef) && x[F.ApproverSessionRef] == Str(r.approverSessionRef)
    && x[F.ProjectRef] == Str(r.projectRef) && x[F.ResourceRef] == Str(r.resourceRef)
    && x[F.ConfigurationDigest] == Str(r.configurationDigest) && x[F.ExecutableDigest] == Str(r.executableDigest)
    && x[F.Audience] == Str(r.audience)
    && x[F.PreparedAt] == Str(r.preparedAt) && x[F.ExpiresAt] == Str(r.expiresAt)
  }

  ghost function PartsIn(x: Record): Parts
    requires x.Keys == REQUEST_FIELDS
  {
    Parts(x[F.PacketRef], x[F.PolicyDecisionRef], x[F.ApprovalRequestRef], x[F.ApprovalDecisionRef],
          x[F.Action], x[F.Target], x[F.Adapter])
  }

  lemma RecordKeys(r: Request, parts: Parts)
    ensures RequestRecord(r, parts).Keys == REQUEST_FIELDS
  {
  }

  lemma RecordHead(r: Request, parts: Parts, x: Record)
    requires x == RequestRecord(r, parts)
    ensures F.ContractVersion in x && x[F.ContractVersion] == Str(r.contractVersion)
    ensures F.SchemaId in x && x[F.SchemaId] == Str(r.schemaId)
    ensures F.DerivationProfile in x && x[F.DerivationProfile] == Str(r.derivationProfile)
    ensures F.ConfigurationDigest in x && x[F.ConfigurationDigest] == Str(r.configurationDigest)
    ensures F.ExecutableDigest in x && x[F.ExecutableDigest] == Str(r.executableDigest)
  {
  }

  lemma RecordPeople(r: Request, parts: Parts, x: Record)
    requires x == RequestRecord(r, parts)
    ensures F.RequesterRef in x && x[F.RequesterRef] == Str(r.requesterRef)
    ensures F.RequesterSessionRef in x && x[F.RequesterSessionRef] == Str(r.requesterSessionRef)
    ensures F.ApproverRef in x && x[F.ApproverRef] == Str(r.approverRef)
    ensures F.ApproverSessionRef in x && x[F.ApproverSessionRef] == Str(r.approverSessionRef)
  {
  }

  lemma RecordScope(r: Request, parts: Parts, x: Record)
    requires x == RequestRecord(r, parts)
    ensures F.ProjectRef in x && x[F.ProjectRef] == Str(r.projectRef)
    ensures F.ResourceRef in x && x[F.ResourceRef] == Str(r.resourceRef)
    ensures F.Audience in x && x[F.Audience] == Str(r.audience)
    ensures F.PreparedAt in x && x[F.PreparedAt] == Str(r.preparedAt)
    ensures F.ExpiresAt in x && x[F.ExpiresAt] == Str(r.expiresAt)
  {
  }

  lemma RecordEvidence(r: Request, parts: Parts, x: Record)
    requires x == RequestRecord(r, parts)
    ensures F.PacketRef in x && x[F.PacketRef] == parts.packet
    ensures F.PolicyDecisionRef in x && x[F.PolicyDecisionRef] == parts.policy
    ensures F.ApprovalRequestRef in x && x[F.ApprovalRequestRef] == parts.request
    ensures F.ApprovalDecisionRef in x && x[F.ApprovalDecisionRef] == parts.decision
  {
  }

  lemma RecordWork(r: Request, parts: Parts, x: Record)
    requires x == RequestRecord(r, parts)
    ensures F.Action in x && x[F.Action] == parts.action && F.Target in x && x[F.Target] == parts.target
    ensures F.Adapter in x && x[F.Adapter] == parts.adapter
  {
  }

  lemma RecordStrings(r: Request, parts: Parts, x: Record)
    requires x == RequestRecord(r, parts) && x.Keys == REQUEST_FIELDS
    ensures HoldsStrings(x, r)
  {
    RecordHead(r, parts, x);
    RecordPeople(r, parts, x);
    RecordScope(r, parts, x);
  }

  lemma RecordParts(r: Request, parts: Parts, x: Record)
    requires x == RequestRecord(r, parts) && x.Keys == REQUEST_FIELDS
    ensures PartsIn(x) == parts
  {
    RecordEvidence(r, parts, x);
    RecordWork(r, parts, x);
  }

  lemma HoldsIsRecord(x: Record, r: Request)
    requires x.Keys == REQUEST_FIELDS && HoldsStrings(x, r)
    ensures x == RequestRecord(r, PartsIn(x))
  {
  }

  /** Every string field reads back as the request has it. */
  predicate StringsRead(x: Record, r: Request) {
    && StringIn(x, F.ContractVersion) == Some(CONTRACT_VERSION) == Some(r.contractVersion)
    && StringIn(x, F.SchemaId) == Some(REQUEST_SCHEMA) == Some(r.schemaId)
    && StringIn(x, F.DerivationProfile) == Some(PROFILE) == Some(r.derivationProfile)
    && ReferenceIn(x, F.RequesterRef) == Some(r.requesterRef)
    && ReferenceIn(x, F.RequesterSessionRef) == Some(r.requesterSessionRef)
    && ReferenceIn(x, F.ApproverRef) == Some(r.approverRef)
    && ReferenceIn(x, F.ApproverSessionRef) == Some(r.approverSessionRef)
    && ReferenceIn(x, F.ProjectRef) == Some(r.projectRef)
    && ReferenceIn(x, F.ResourceRef) == Some(r.resourceRef) && ReferenceIn(x, F.Audience) == Some(r.audience)
    && DigestIn(x, F.ConfigurationDigest) == Some(r.configurationDigest)
    && DigestIn(x, F.ExecutableDigest) == Some(r.executableDigest)
    && StringIn(x, F.PreparedAt) == Some(r.preparedAt) && StringIn(x, F.ExpiresAt) == Some(r.expiresAt)
  }

  lemma ReferencesAreRead(r: Request, x: Record)
    requires x.Keys == REQUEST_FIELDS && HoldsStrings(x, r)
    requires Reference(r.requesterRef) && Reference(r.requesterSessionRef)
    requires Reference(r.approverRef) && Reference(r.approverSessionRef)
    ensures ReferenceIn(x, F.RequesterRef) == Some(r.requesterRef)
    ensures ReferenceIn(x, F.RequesterSessionRef) == Some(r.requesterSessionRef)
    ensures ReferenceIn(x, F.ApproverRef) == Some(r.approverRef)
    ensures ReferenceIn(x, F.ApproverSessionRef) == Some(r.approverSessionRef)
  {
  }

  lemma ScopesAreRead(r: Request, x: Record)
    requires x.Keys == REQUEST_FIELDS && HoldsStrings(x, r)
    requires Reference(r.projectRef) && Reference(r.resourceRef) && Reference(r.audience)
    ensures ReferenceIn(x, F.ProjectRef) == Some(r.projectRef)
    ensures ReferenceIn(x, F.ResourceRef) == Some(r.resourceRef) && ReferenceIn(x, F.Audience) == Some(r.audience)
  {
  }

  lemma DigestsAreRead(r: Request, x: Record)
    requires x.Keys == REQUEST_FIELDS && HoldsStrings(x, r)
    requires PrefixedDigest(r.configurationDigest, SHA256_PREFIX) && PrefixedDigest(r.executableDigest, SHA256_PREFIX)
    ensures DigestIn(x, F.ConfigurationDigest) == Some(r.configurationDigest)
    ensures DigestIn(x, F.ExecutableDigest) == Some(r.executableDigest)
  {
  }

  lemma StringsAreRead(r: Request, x: Record)
    requires FieldChecks(r) && x.Keys == REQUEST_FIELDS && HoldsStrings(x, r)
    ensures StringsRead(x, r)
  {
    ReferencesAreRead(r, x);
    ScopesAreRead(r, x);
    DigestsAreRead(r, x);
  }

  lemma RequestReads(p: Primitives, r: Request, x: Record)
    requires x.Keys == REQUEST_FIELDS && StringsRead(x, r) && PartsRead(p, r, PartsIn(x))
    requires r.target.resourceRef == r.resourceRef
    ensures ReadPacketRef(p, x[F.PacketRef]) == Some((r.packetId, r.packetSha256)) ==> RequestOf(p, x) == Some(r)
    ensures ReadPacketRef(p, x[F.PacketRef]) == None ==> RequestOf(p, x) == None
  {
  }

  /** Extraction undoes the JSON form, except that it insists on a digest-shaped packet id. */
  lemma ExtractReads(p: Primitives, r: Request)
    requires FieldChecks(r)
    ensures Extract(p, RequestJson(p, r)) == if PrefixedDigest(r.packetId, PKT) then Some(r) else None
  {
    var parts := PartsOf(p, r);
    PartsAreRead(p, r);
    PacketRefReads(p, r.packetId, r.packetSha256);
    var x := RequestRecord(r, parts);
    RecordKeys(r, parts);
    RecordStrings(r, parts, x);
    RecordParts(r, parts, x);
    StringsAreRead(r, x);
    RequestReads(p, r, x);
    RecordReads(p, x, REQUEST_FIELDS);
  }

  lemma RequestChecks(p: Primitives, x: Record)
    requires x.Keys == REQUEST_FIELDS && RequestOf(p, x).Some?
    ensures FieldChecks(RequestOf(p, x).value) && PrefixedDigest(RequestOf(p, x).value.packetId, PKT)
  {
    ActionWrites(p, x[F.Action]);
    AdapterWrites(p, x[F.Adapter]);
    PacketRefWrites(p, x[F.PacketRef]);
    EvidenceWrites(p, x[F.PolicyDecisionRef], POLICY_SCHEMA, F.DecisionId, POL);
    EvidenceWrites(p, x[F.ApprovalRequestRef], APPROVAL_REQUEST_SCHEMA, F.ApprovalRequestId, APR);
    EvidenceWrites(p, x[F.ApprovalDecisionRef], APPROVAL_DECISION_SCHEMA, F.ApprovalDecisionId, APD);
  }

  lemma PartsWritten(p: Primitives, x: Record)
    requires x.Keys == REQUEST_FIELDS && RequestOf(p, x).Some?
    ensures PartsOf(p, RequestOf(p, x).value) == PartsIn(x)
  {
    PacketRefWrites(p, x[F.PacketRef]);
    EvidenceWrites(p, x[F.PolicyDecisionRef], POLICY_SCHEMA, F.DecisionId, POL);
    EvidenceWrites(p, x[F.ApprovalRequestRef], APPROVAL_REQUEST_SCHEMA, F.ApprovalRequestId, APR);
    EvidenceWrites(p, x[F.ApprovalDecisionRef], APPROVAL_DECISION_SCHEMA, F.ApprovalDecisionId, APD);
    ActionWrites(p, x[F.Action]);
    TargetWrites(p, x[F.Target]);
    AdapterWrites(p, x[F.Adapter]);
  }

  lemma RequestWritten(p: Primitives, x: Record)
    requires x.Keys == REQUEST_FIELDS && RequestOf(p, x).Some?
    ensures HoldsStrings(x, RequestOf(p, x).value)
  {
  }

  /** Nothing in an accepted object escapes extraction: the request's form is the object. */
  lemma ExtractWrites(p: Primitives, v: Json)
    requires Extract(p, v).Some?
    ensures v == RequestJson(p, Extract(p, v).value)
    ensures FieldChecks(Extract(p, v).value) && PrefixedDigest(Extract(p, v).value.packetId, PKT)
  {
    RecordWrites(p, v, REQUEST_FIELDS);
    var x := ReadRecord(p, v, REQUEST_FIELDS).value;
    RequestChecks(p, x);
    PartsWritten(p, x);
    RequestWritten(p, x);
    HoldsIsRecord(x, Extract(p, v).value);
  }
}
