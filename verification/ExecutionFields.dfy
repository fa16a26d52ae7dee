/**
 What every field of a derived execution request holds: the chain and the people from the
 input, the project from the packet, and the work from the proposal embedded in the packet's
 constraints, name by name. Then what every digest of a derived record is a digest of.
 */
module ExecutionFields {
  import opened Texts
  import opened Bytes
  import opened Json
  import opened ContractJson
  import opened Grammar
  import opened Objects
  import opened Timestamps
  import opened Packet
  import opened Execution
  import opened ExecutionJson
  import opened ExecutionProofs
  import opened ExecutionParse
  import J = EvidenceJson
  import F = FieldNames

  // ---------------------------------------------------------------- fields

  /** The fields that come from the input and its packet. */
  predicate InputHeld(i: Input, r: Request) {
    && r.contractVersion == CONTRACT_VERSION && r.schemaId == REQUEST_SCHEMA && r.derivationProfile == PROFILE
    && r.packetId == i.packet.packetId && r.packetSha256 == i.packetSha256
    && r.policyDecisionId == i.policyDecisionId && r.approvalRequestId == i.approvalRequestId
    && r.approvalDecisionId == i.approvalDecisionId
    && r.requesterRef == i.requesterRef && r.requesterSessionRef == i.requesterSessionRef
    && r.approverRef == i.approverRef && r.approverSessionRef == i.approverSessionRef
    && r.projectRef == i.packet.projectRef && r.preparedAt == i.preparedAt && r.expiresAt == i.expiresAt
  }

  predicate ActionHeld(x: Record, a: Action) {
    x.Keys == {F.Kind, F.Arguments} && x[F.Kind] == Str(a.kind) && x[F.Arguments] == Obj(a.arguments)
  }

  predicate TargetHeld(x: Record, t: Target) {
    x.Keys == {F.ResourceRef, F.Identity} && x[F.ResourceRef] == Str(t.resourceRef) && x[F.Identity] == Obj(t.identity)
  }

  predicate AdapterHeld(x: Record, a: Adapter) {
    x.Keys == {F.Ref, F.Version} && x[F.Ref] == Str(a.adapterRef) && x[F.Version] == Str(a.version)
  }

  /** The fields that come from the proposal, an object with exactly the proposal's fields. */
  ghost predicate ProposalHeld(p: Primitives, x: Record, r: Request) {
    && x.Keys == PROPOSAL_FIELDS
    && x[F.SchemaId] == Str(PROPOSAL_SCHEMA) && x[F.DerivationProfile] == Str(PROFILE)
    && ActionHeld(J.Read(p, x[F.Action], {F.Kind, F.Arguments}), r.action)
    && TargetHeld(J.Read(p, x[F.Target], {F.ResourceRef, F.Identity}), r.target)
    && AdapterHeld(J.Read(p, x[F.Adapter], {F.Ref, F.Version}), r.adapter)
    && x[F.ConfigurationDigest] == Str(r.configurationDigest) && x[F.ExecutableDigest] == Str(r.executableDigest)
    && x[F.Audience] == Str(r.audience) && r.resourceRef == r.target.resourceRef
  }

  lemma ActionRead(p: Primitives, v: Json)
    requires ReadAction(p, v).Some?
    ensures ActionHeld(J.Read(p, v, {F.Kind, F.Arguments}), ReadAction(p, v).value)
  {
  }

  lemma TargetRead(p: Primitives, v: Json)
    requires ReadTarget(p, v).Some?
    ensures TargetHeld(J.Read(p, v, {F.ResourceRef, F.Identity}), ReadTarget(p, v).value)
  {
  }

  lemma AdapterRead(p: Primitives, v: Json)
    requires ReadAdapter(p, v).Some?
    ensures AdapterHeld(J.Read(p, v, {F.Ref, F.Version}), ReadAdapter(p, v).value)
  {
  }

  lemma ProposalRead(p: Primitives, x: Record, resources: seq<Text>, q: Proposal, r: Request)
    requires x.Keys == PROPOSAL_FIELDS && ProposalOf(p, x, resources) == Some(q)
    requires r.action == q.action && r.target == q.target && r.adapter == q.adapter
    requires r.configurationDigest == q.configurationDigest && r.executableDigest == q.executableDigest
    requires r.audience == q.audience && r.resourceRef == q.target.resourceRef
    ensures ProposalHeld(p, x, r)
  {
    ActionRead(p, x[F.Action]);
    TargetRead(p, x[F.Target]);
    AdapterRead(p, x[F.Adapter]);
  }

  lemma RequestHeld(i: Input, q: Proposal, r: Request)
    requires r == DerivedRequest(i, q)
    ensures InputHeld(i, r)
    ensures r.action == q.action && r.target == q.target && r.adapter == q.adapter
    ensures r.configurationDigest == q.configurationDigest && r.executableDigest == q.executableDigest
    ensures r.audience == q.audience && r.resourceRef == q.target.resourceRef
  {
  }

  lemma ParsedProposal(p: Primitives, k: Envelope, q: Proposal)
    requires ParseProposal(p, k) == Ok(q)
    ensures p.spell(F.ExecutionProposal) in k.constraints
    ensures var x := J.Read(p, k.constraints[p.spell(F.ExecutionProposal)], PROPOSAL_FIELDS);
            x.Keys == PROPOSAL_FIELDS && ProposalOf(p, x, k.resourceRefs) == Some(q)
  {
  }

  /** Every field of a derived request, from the input, its packet and the embedded proposal. */
  lemma DerivedFields(p: Primitives, i: Input, d: Derived)
    requires Derive(p, i) == Ok(d)
    ensures InputHeld(i, d.request)
    ensures p.spell(F.ExecutionProposal) in i.packet.constraints
    ensures ProposalHeld(p, J.Read(p, i.packet.constraints[p.spell(F.ExecutionProposal)], PROPOSAL_FIELDS), d.request)
    ensures d.request.resourceRef in i.packet.resourceRefs
  {
    DeriveSteps(p, i);
    var q := ParseProposal(p, i.packet).value;
    RequestHeld(i, q, d.request);
    ParsedProposal(p, i.packet, q);
    var x := J.Read(p, i.packet.constraints[p.spell(F.ExecutionProposal)], PROPOSAL_FIELDS);
    ProposalChecks(p, x, i.packet.resourceRefs);
    ProposalRead(p, x, i.packet.resourceRefs, q, d.request);
  }

  /** The time bounds are in order when both are timestamps and the first is earlier on the calendar. */
  lemma OrderedMeaning(prepared: Text, expires: Text)
    ensures Ordered(prepared, expires) <==>
      && Instant(prepared).Some? && Instant(expires).Some?
      && Earlier(Timestamps.ReadFields(prepared), Timestamps.ReadFields(expires))
  {
    if Instant(prepared).Some? && Instant(expires).Some? { InstantOrder(prepared, expires); }
  }

  /** When a derivation succeeds: the packet is valid and hashes as claimed, and chain, times and proposal are well formed. */
  lemma DerivedWhen(p: Primitives, i: Input)
    ensures Derive(p, i).Ok? <==>
      && HashPacket(p, i.packet) == Some(i.packetSha256) && ChainIdentities(i)
      && Ordered(i.preparedAt, i.expiresAt) && ParseProposal(p, i.packet).Ok?
  {
    DerivesWith(p, i, HashPacket(p, i.packet), ChainIdentities(i), Ordered(i.preparedAt, i.expiresAt), ParseProposal(p, i.packet));
    if ParseProposal(p, i.packet).Ok? { ProposedRebuilds(p, i, ParseProposal(p, i.packet).value); }
  }

  /** What each failed check is answered with, in the order of the checks. */
  lemma DeriveRefusals(p: Primitives, i: Input)
    ensures var d, hash := Derive(p, i), HashPacket(p, i.packet);
            var chain := hash == Some(i.packetSha256) && ChainIdentities(i);
            && (hash.None? ==> d == Err(Execution.InvalidPacket))
            && (hash.Some? && !chain ==> d == Err(ChainInvalid))
            && (chain && !Ordered(i.preparedAt, i.expiresAt) ==> d == Err(TimeInvalid))
            && (chain && Ordered(i.preparedAt, i.expiresAt) && ParseProposal(p, i.packet).Err? ==>
                  d == Err(ParseProposal(p, i.packet).error))
  {
    RefusedWith(p, i, HashPacket(p, i.packet), ChainIdentities(i), Ordered(i.preparedAt, i.expiresAt), ParseProposal(p, i.packet));
  }

  lemma RefusedWith(p: Primitives, i: Input, hash: Option<Text>, identities: bool, ordered: bool, proposal: Result<Proposal>)
    ensures var d, chain := DeriveWith(p, i, hash, identities, ordered, proposal), hash == Some(i.packetSha256) && identities;
            && (hash.None? ==> d == Err(Execution.InvalidPacket))
            && (hash.Some? && !chain ==> d == Err(ChainInvalid))
            && (chain && !ordered ==> d == Err(TimeInvalid))
            && (chain && ordered && proposal.Err? ==> d == Err(proposal.error))
  {
  }

  lemma DerivesWith(p: Primitives, i: Input, hash: Option<Text>, identities: bool, ordered: bool, proposal: Result<Proposal>)
    ensures DeriveWith(p, i, hash, identities, ordered, proposal).Ok? <==>
      hash == Some(i.packetSha256) && identities && ordered && proposal.Ok? && Rebuild(p, DerivedRequest(i, proposal.value)).Ok?
  {
  }

  lemma ProposedRebuilds(p: Primitives, i: Input, q: Proposal)
    requires ParseProposal(p, i.packet) == Ok(q)
    ensures Rebuild(p, DerivedRequest(i, q)).Ok?
  {
    ParsedProposal(p, i.packet, q);
    var x := J.Read(p, i.packet.constraints[p.spell(F.ExecutionProposal)], PROPOSAL_FIELDS);
    ProposalChecks(p, x, i.packet.resourceRefs);
    RequestHeld(i, q, DerivedRequest(i, q));
    RebuildSucceeds(p, DerivedRequest(i, q));
  }

  // ---------------------------------------------------------------- digests

  /** The bytes of a value's canonical text under a domain: the domain, a zero byte, the text's length, the text. */
  ghost predicate DomainHashed(p: Primitives, digest: seq<Byte>, domain: Text, v: Json) {
    && Canonicalizable(p, v)
    && var bytes := Utf8(Print(Normalize(p, v)));
       digest == p.sha256(Utf8(domain) + [0] + (LengthBytes(|bytes|) + bytes))
  }

  lemma DigestHashed(p: Primitives, domain: Text, v: Json)
    requires DomainDigest(p, domain, v).Some?
    ensures DomainHashed(p, DomainDigest(p, domain, v).value, domain, v)
  {
  }

  lemma DecodedDigest(t: Text)
    requires DecodeSha256(t).Some?
    ensures t == SHA256_PREFIX + EncodeHex(DecodeSha256(t).value)
  {
    HexCanonical(t[7..]);
  }

  /** What every digest of a rebuilt record is a digest of; records that verify or parse are rebuilt records. */
  lemma RebuiltDigests(p: Primitives, r: Request, d: Derived)
    requires Rebuild(p, r) == Ok(d)
    ensures d.request == r && Canonicalizable(p, RequestJson(p, r))
    ensures d.canonicalRequest == Print(Normalize(p, RequestJson(p, r))) && d.requestDigest == p.sha256(Utf8(d.canonicalRequest))
    ensures DomainHashed(p, d.actionDigest, Ascii("lnsat.execution-request.action.v1"), ActionJson(p, r.action))
    ensures DomainHashed(p, d.targetDigest, Ascii("lnsat.execution-request.target.v1"), TargetJson(p, r.target))
    ensures r.configurationDigest == SHA256_PREFIX + EncodeHex(d.configurationDigest)
    ensures r.executableDigest == SHA256_PREFIX + EncodeHex(d.executableDigest)
  {
    RebuildSucceeds(p, r);
    DecodedDigest(r.configurationDigest);
    DecodedDigest(r.executableDigest);
    DigestHashed(p, ACTION_DOMAIN, ActionJson(p, r.action));
    DigestHashed(p, TARGET_DOMAIN, TargetJson(p, r.target));
  }
}
