/**
 A derivation that succeeds, from the sample packet with a proposal among its constraints: with a
 packet id that is not a digest its own text is rejected, and its record still verifies after an
 argument 1 is replaced by 1.0.
 */
module DerivationExamples {
  import opened Texts
  import opened Bytes
  import opened Json
  import opened ContractJson
  import opened Grammar
  import opened Timestamps
  import opened Objects
  import opened Packet
  import opened SamplePacket
  import opened Execution
  import opened ExecutionJson
  import opened ExecutionProofs
  import opened ExecutionParse
  import F = FieldNames

  // ---------------------------------------------------------------- rejection without premises on the text

  /** A derived record whose packet id is not a digest is never read back from its own text. */
  lemma ShortIdRejected(p: Primitives, i: Input)
    requires Derive(p, i).Ok? && !PrefixedDigest(i.packet.packetId, PKT)
    ensures Parse(p, Derive(p, i).value.canonicalRequest).Err?
  {
    DerivedChecks(p, i);
    var d := Derive(p, i).value;
    RebuiltText(p, d.request);
    ParseAccepts(p, d.canonicalRequest);
    var parsed := Parse(p, d.canonicalRequest);
    if parsed.Ok? { SameTextSameId(p, parsed.value.request, d.request); }
  }

  lemma SameTextSameId(p: Primitives, a: Request, b: Request)
    requires CarriesSafeNumbers(p, a) && CarriesSafeNumbers(p, b)
    requires Canonicalize(p, RequestJson(p, a)) == Canonicalize(p, RequestJson(p, b))
    ensures a.packetId == b.packetId
  {
    RequestNormalizes(p, a);
    RequestNormalizes(p, b);
    CanonicalTextsAgree(p, RequestJson(p, a), RequestJson(p, b));
    RequestJsonInjective(p, Normalized(p, a), Normalized(p, b));
  }

  // ---------------------------------------------------------------- a proposal

  lemma ShaIsDigest(prefix: Text)
    ensures PrefixedDigest(prefix + seq(64, _ => A), prefix)
  {
    var t := prefix + seq(64, _ => A);
    assert forall i :: |prefix| <= i < |t| ==> t[i] == A;
  }

  function ProposalFields(q: Proposal, action: Json, target: Json, adapter: Json): Record {
    map[F.SchemaId := Str(PROPOSAL_SCHEMA), F.DerivationProfile := Str(PROFILE), F.Action := action, F.Target := target,
        F.ConfigurationDigest := Str(q.configurationDigest), F.Adapter := adapter,
        F.ExecutableDigest := Str(q.executableDigest), F.Audience := Str(q.audience)]
  }

  /** A proposal as the packet's constraints carry it. */
  ghost function ProposalRecord(p: Primitives, q: Proposal): Record {
    ProposalFields(q, ActionJson(p, q.action), TargetJson(p, q.target), Obj(Object(p.spell, AdapterRecord(q.adapter))))
  }

  /** What a proposal has to satisfy to be read back. */
  ghost predicate Proposable(p: Primitives, q: Proposal, resources: seq<Text>) {
    && BoundedString(q.action.kind, 256) && Canonicalizable(p, Obj(q.action.arguments))
    && Canonicalizable(p, Obj(q.target.identity)) && Reference(q.target.resourceRef) && q.target.resourceRef in resources
    && PrefixedDigest(q.configurationDigest, SHA256_PREFIX) && PrefixedDigest(q.executableDigest, SHA256_PREFIX)
    && ValidAdapter(q.adapter) && BoundedString(q.adapter.version, 128) && Reference(q.audience)
  }

  lemma ProposalKeys(q: Proposal, action: Json, target: Json, adapter: Json, x: Record)
    requires x == ProposalFields(q, action, target, adapter)
    ensures x.Keys == PROPOSAL_FIELDS && x[F.Action] == action && x[F.Target] == target && x[F.Adapter] == adapter
  {
  }

  lemma ProposalStrings(q: Proposal, action: Json, target: Json, adapter: Json, x: Record)
    requires x == ProposalFields(q, action, target, adapter)
    ensures StringIn(x, F.SchemaId) == Some(PROPOSAL_SCHEMA) && StringIn(x, F.DerivationProfile) == Some(PROFILE)
    ensures StringIn(x, F.ConfigurationDigest) == Some(q.configurationDigest)
    ensures StringIn(x, F.ExecutableDigest) == Some(q.executableDigest) && StringIn(x, F.Audience) == Some(q.audience)
  {
  }

  lemma StringsChecked(q: Proposal, x: Record)
    requires StringIn(x, F.ConfigurationDigest) == Some(q.configurationDigest)
    requires StringIn(x, F.ExecutableDigest) == Some(q.executableDigest) && StringIn(x, F.Audience) == Some(q.audience)
    requires PrefixedDigest(q.configurationDigest, SHA256_PREFIX) && PrefixedDigest(q.executableDigest, SHA256_PREFIX)
    requires Reference(q.audience)
    ensures DigestIn(x, F.ConfigurationDigest) == Some(q.configurationDigest)
    ensures DigestIn(x, F.ExecutableDigest) == Some(q.executableDigest) && ReferenceIn(x, F.Audience) == Some(q.audience)
  {
  }

  lemma PartsRead(p: Primitives, q: Proposal, x: Record)
    requires x.Keys == PROPOSAL_FIELDS && x[F.Action] == ActionJson(p, q.action) && x[F.Target] == TargetJson(p, q.target)
    requires x[F.Adapter] == Obj(Object(p.spell, AdapterRecord(q.adapter)))
    requires BoundedString(q.action.kind, 256) && ValidAdapter(q.adapter)
    ensures ReadAction(p, x[F.Action]) == Some(q.action) && ReadTarget(p, x[F.Target]) == Some(q.target)
    ensures ReadAdapter(p, x[F.Adapter]) == Some(q.adapter)
  {
    ActionReads(p, q.action);
    TargetReads(p, q.target);
    AdapterReads(p, q.adapter);
  }

  lemma ProposalReads(p: Primitives, q: Proposal, x: Record, resources: seq<Text>)
    requires x == ProposalRecord(p, q) && Proposable(p, q, resources)
    ensures x.Keys == PROPOSAL_FIELDS && ProposalOf(p, x, resources) == Some(q)
  {
    var adapter := Obj(Object(p.spell, AdapterRecord(q.adapter)));
    ProposalKeys(q, ActionJson(p, q.action), TargetJson(p, q.target), adapter, x);
    ProposalStrings(q, ActionJson(p, q.action), TargetJson(p, q.target), adapter, x);
    PartsRead(p, q, x);
    StringsChecked(q, x);
  }

  ghost function Constraints(p: Primitives, q: Proposal): map<Text, Json> {
    map[p.spell(F.ExecutionProposal) := Obj(Object(p.spell, ProposalRecord(p, q)))]
  }

  /** The packet's parser finds the proposal again. */
  lemma ProposalFound(p: Primitives, q: Proposal, k: Envelope)
    requires k.constraints == Constraints(p, q) && Proposable(p, q, k.resourceRefs)
    ensures ParseProposal(p, k) == Ok(q)
  {
    var x := ProposalRecord(p, q);
    ProposalReads(p, q, x, k.resourceRefs);
    RecordReads(p, x, PROPOSAL_FIELDS);
  }

  lemma PartsFine(p: Primitives, q: Proposal, d: nat)
    requires d > 2 && Canonicalizable(p, Obj(q.action.arguments)) && Canonicalizable(p, Obj(q.target.identity))
    requires DepthAtMost(Obj(q.action.arguments), d - 2) && DepthAtMost(Obj(q.target.identity), d - 2)
    ensures Canonicalizable(p, ActionJson(p, q.action)) && Canonicalizable(p, TargetJson(p, q.target))
    ensures Canonicalizable(p, Obj(Object(p.spell, AdapterRecord(q.adapter))))
    ensures DepthAtMost(ActionJson(p, q.action), d - 1) && DepthAtMost(TargetJson(p, q.target), d - 1)
    ensures DepthAtMost(Obj(Object(p.spell, AdapterRecord(q.adapter))), d - 1)
  {
    ActionNormalizes(p, q.action);
    TargetNormalizes(p, q.target);
    AdapterNormalizes(p, q.adapter);
    ActionJsonDepth(p, q.action, d - 1);
    TargetJsonDepth(p, q.target, d - 1);
    AdapterDepth(p, q.adapter, d - 1);
  }

  lemma FieldsFine(p: Primitives, q: Proposal, action: Json, target: Json, adapter: Json, d: nat)
    requires Canonicalizable(p, action) && Canonicalizable(p, target) && Canonicalizable(p, adapter)
    requires DepthAtMost(action, d) && DepthAtMost(target, d) && DepthAtMost(adapter, d)
    ensures var x := ProposalFields(q, action, target, adapter);
            AllCanonicalizable(p, x) && forall f :: f in x ==> DepthAtMost(x[f], d)
  {
  }

  lemma ConstraintsFine(p: Primitives, q: Proposal, d: nat)
    requires d > 2 && Canonicalizable(p, Obj(q.action.arguments)) && Canonicalizable(p, Obj(q.target.identity))
    requires DepthAtMost(Obj(q.action.arguments), d - 2) && DepthAtMost(Obj(q.target.identity), d - 2)
    ensures Canonicalizable(p, Obj(Constraints(p, q))) && DepthAtMost(Obj(Constraints(p, q)), d + 1)
  {
    var x := ProposalRecord(p, q);
    PartsFine(p, q, d);
    FieldsFine(p, q, ActionJson(p, q.action), TargetJson(p, q.target), Obj(Object(p.spell, AdapterRecord(q.adapter))), d - 1);
    ObjectCanonicalizable(p.spell, p, x);
    ObjectDepth(p.spell, x, d);
  }

  // ---------------------------------------------------------------- a derivation

  /** A small proposal whose one argument is the number 1. */
  function SampleProposal(key: Text, digest: Text): Proposal {
    Proposal(Action([A], map[key := Num(Int(1))]), Target(R1, map[]), digest, Adapter(R1, [A]), digest, R1)
  }

  lemma SampleProposable(p: Primitives, key: Text, digest: Text)
    requires PrefixedDigest(digest, SHA256_PREFIX)
    ensures Proposable(p, SampleProposal(key, digest), [R1])
    ensures var q := SampleProposal(key, digest);
            DepthAtMost(Obj(q.action.arguments), 1) && DepthAtMost(Obj(q.target.identity), 1)
  {
    ShortReferences();
  }

  ghost function SampleInput(k: Envelope, sha: Text): Input {
    Input(k, sha, POL + seq(64, _ => A), APR + seq(64, _ => A), APD + seq(64, _ => A), R1, R1, R2, R2, CREATED, EXPIRES)
  }

  lemma InputFine(k: Envelope, sha: Text)
    ensures var i := SampleInput(k, sha); ChainIdentities(i) && Ordered(i.preparedAt, i.expiresAt)
  {
    ShaIsDigest(POL);
    ShaIsDigest(APR);
    ShaIsDigest(APD);
    ShortReferences();
    TimesOrdered();
  }

  lemma DerivesFrom(p: Primitives, i: Input, q: Proposal, r: Result<Derived>)
    requires Rebuild(p, DerivedRequest(i, q)) == r
    ensures DeriveWith(p, i, Some(i.packetSha256), true, true, Ok(q)) == r
  {
  }

  lemma PacketWith(p: Primitives, packetId: Text, q: Proposal)
    requires Identifier(packetId, PKT, 12, 68)
    requires Canonicalizable(p, Obj(q.action.arguments)) && Canonicalizable(p, Obj(q.target.identity))
    requires DepthAtMost(Obj(q.action.arguments), 1) && DepthAtMost(Obj(q.target.identity), 1)
    ensures ValidPacket(p, Sample(packetId, [R1], Constraints(p, q)))
  {
    DepthMonotone(Obj(q.action.arguments), 1, MAX_DEPTH - 4);
    DepthMonotone(Obj(q.target.identity), 1, MAX_DEPTH - 4);
    ConstraintsFine(p, q, MAX_DEPTH - 2);
    ShortReferences();
    SampleValid(p, packetId, [R1], Constraints(p, q));
  }

  /** For any packet id of the right shape there is a successful derivation with an argument 1. */
  lemma SampleDerives(p: Primitives, packetId: Text, key: Text) returns (i: Input)
    requires Identifier(packetId, PKT, 12, 68)
    ensures Derive(p, i).Ok? && i.packet.packetId == packetId
    ensures Derive(p, i).value.request.action.arguments == map[key := Num(Int(1))]
  {
    ShaIsDigest(SHA256_PREFIX);
    var q := SampleProposal(key, SHA256_PREFIX + seq(64, _ => A));
    var k := Sample(packetId, [R1], Constraints(p, q));
    SampleProposable(p, key, q.configurationDigest);
    PacketWith(p, packetId, q);
    ProposalFound(p, q, k);
    i := SampleInput(k, HashPacket(p, k).value);
    InputFine(k, i.packetSha256);
    DerivesFrom(p, i, q, Rebuild(p, DerivedRequest(i, q)));
    RebuildSucceeds(p, DerivedRequest(i, q));
  }

  /** A derivation that succeeds and whose own canonical text is rejected. */
  lemma DerivedTextRejected(p: Primitives) returns (i: Input)
    ensures Derive(p, i).Ok? && Parse(p, Derive(p, i).value.canonicalRequest).Err?
  {
    IdsAreIdentifiers();
    i := SampleDerives(p, SHORT_ID, [A]);
    ShortIdRejected(p, i);
  }

  /** A verified record that still verifies with another request in it. */
  lemma SwappedRecordVerifies(p: Primitives, token: Text) returns (d: Derived, r: Request)
    requires p.wholeFloat(token) == Some(1)
    ensures Verify(p, d) == Ok(()) && r != d.request && Verify(p, d.(request := r)) == Ok(())
  {
    IdsAreIdentifiers();
    var i := SampleDerives(p, DIGEST_ID, [A]);
    d := Derive(p, i).value;
    DerivedChecks(p, i);
    VerifyMeansRebuilt(p, d);
    OnePointZeroSwapVerifies(p, d, [A], token);
    r := d.request.(action := d.request.action.(arguments := d.request.action.arguments[[A] := Num(Float(token))]));
  }
}
