/**
 Parsing a canonical execution request: what is accepted, that it comes back byte for byte,
 and what becomes of a derived record on the way through its own text.
 */
module ExecutionParse {
  import opened Texts
  import opened Bytes
  import opened Json
  import opened ContractJson
  import opened Grammar
  import opened Objects
  import opened Packet
  import opened Execution
  import opened ExecutionJson
  import opened ExecutionProofs
  import F = FieldNames

  /** A request the text format can carry. */
  ghost predicate Carried(p: Primitives, r: Request) {
    && FieldChecks(r) && PrefixedDigest(r.packetId, PKT) && Ordered(r.preparedAt, r.expiresAt)
    && CarriesSafeNumbers(p, r) && CarriesIntegers(r)
    && DepthAtMost(RequestJson(p, r), MAX_DEPTH) && ScalarText(RequestJson(p, r))
  }

  /** `t` is the canonical text of a request the format can carry. */
  ghost predicate IsTextOf(p: Primitives, t: Text, r: Request) {
    Carried(p, r) && Canonicalize(p, RequestJson(p, r)) == Some(t)
  }

  // ---------------------------------------------------------------- parsing what was written

  /** The parser's steps on the text of a request whose numbers are integers already. */
  lemma ParseSteps(p: Primitives, r: Request, t: Text)
    requires FieldChecks(r) && CarriesSafeNumbers(p, r) && CarriesIntegers(r)
    requires DepthAtMost(RequestJson(p, r), MAX_DEPTH) && ScalarText(RequestJson(p, r))
    requires Canonicalize(p, RequestJson(p, r)) == Some(t)
    ensures FromStr(t) == Some(RequestJson(p, r))
    ensures Extract(p, RequestJson(p, r)) == if PrefixedDigest(r.packetId, PKT) then Some(r) else None
  {
    RequestNormalizes(p, r);
    NormalizedTwice(p, r);
    CanonicalTextDecodes(p, RequestJson(p, r));
    ExtractReads(p, r);
  }

  lemma RebuildSteps(p: Primitives, r: Request, t: Text)
    requires FieldChecks(r) && CarriesSafeNumbers(p, r) && Canonicalize(p, RequestJson(p, r)) == Some(t)
    ensures Rebuild(p, r).Ok? && Rebuild(p, r).value.canonicalRequest == t
    ensures Rebuild(p, r).value.requestDigest == p.sha256(Utf8(t))
  {
    RebuildSucceeds(p, r);
  }

  lemma ParseOutcome(p: Primitives, t: Text, v: Json, r: Request)
    requires FromStr(t) == Some(v) && Canonicalize(p, v) == Some(t)
    requires Extract(p, v) == Some(r) && Ordered(r.preparedAt, r.expiresAt)
    requires Rebuild(p, r).Ok? && Rebuild(p, r).value.canonicalRequest == t
    requires Rebuild(p, r).value.requestDigest == p.sha256(Utf8(t))
    ensures Parse(p, t) == Rebuild(p, r)
  {
    VerifyMeansRebuilt(p, Rebuild(p, r).value);
    RebuildSucceeds(p, r);
  }

  lemma ParseWritten(p: Primitives, r: Request, t: Text)
    requires FieldChecks(r) && CarriesSafeNumbers(p, r) && CarriesIntegers(r) && Ordered(r.preparedAt, r.expiresAt)
    requires DepthAtMost(RequestJson(p, r), MAX_DEPTH) && ScalarText(RequestJson(p, r))
    requires Canonicalize(p, RequestJson(p, r)) == Some(t)
    ensures Parse(p, t) == if PrefixedDigest(r.packetId, PKT) then Rebuild(p, r) else Err(ProposalInvalid)
  {
    ParseSteps(p, r, t);
    RebuildSteps(p, r, t);
    if PrefixedDigest(r.packetId, PKT) {
      ParseOutcome(p, t, RequestJson(p, r), r);
    }
  }

  // ---------------------------------------------------------------- parsing anything

  /** What the field checks leave of an arbitrary canonical text. */
  lemma ExtractedIsCarried(p: Primitives, t: Text, v: Json, r: Request)
    requires FromStr(t) == Some(v) && Canonicalize(p, v) == Some(t)
    requires Extract(p, v) == Some(r) && Ordered(r.preparedAt, r.expiresAt)
    ensures IsTextOf(p, t, r)
  {
    ExtractWrites(p, v);
    CanonicalTextReads(p, t, v);
    RequestNormalizes(p, r);
    NormalizedTwice(p, r);
    RequestJsonInjective(p, Normalized(p, r), r);
  }

  /**
   The parser accepts exactly the canonical texts of the requests the format can carry, and
   returns what such a request rebuilds to. Its last step, which verifies the record just
   built, is never the one that rejects.
   */
  lemma ParseAccepts(p: Primitives, t: Text)
    ensures Parse(p, t).Ok? <==> exists r :: IsTextOf(p, t, r)
    ensures forall r :: IsTextOf(p, t, r) ==> Parse(p, t) == Rebuild(p, r) && Parse(p, t).value.request == r
    ensures Parse(p, t).Ok? ==> IsTextOf(p, t, Parse(p, t).value.request)
  {
    forall r | IsTextOf(p, t, r)
      ensures Parse(p, t) == Rebuild(p, r) && Rebuild(p, r).Ok? && Rebuild(p, r).value.request == r
    {
      ParseWritten(p, r, t);
      RebuildSucceeds(p, r);
    }
    if Parse(p, t).Ok? {
      var v := FromStr(t).value;
      ExtractedIsCarried(p, t, v, Extract(p, v).value);
    }
  }

  /** Every accepted text is returned byte for byte, in a record that verifies. */
  lemma AcceptedTextVerifies(p: Primitives, t: Text)
    requires Parse(p, t).Ok?
    ensures Parse(p, t).value.canonicalRequest == t
    ensures Verify(p, Parse(p, t).value) == Ok(())
  {
    ParseAccepts(p, t);
    VerifyMeansRebuilt(p, Parse(p, t).value);
  }

  /** Two texts that parse to the same request are the same text. */
  lemma ParseInjective(p: Primitives, s: Text, t: Text)
    requires Parse(p, s).Ok? && Parse(p, t).Ok? && Parse(p, s).value.request == Parse(p, t).value.request
    ensures s == t
  {
    ParseAccepts(p, s);
    ParseAccepts(p, t);
  }

  // ---------------------------------------------------------------- depth

  lemma MemberDepth(m: map<Text, Json>, k: Text, d: nat)
    requires k in m && DepthAtMost(Obj(m), d)
    ensures d > 0 && DepthAtMost(m[k], d - 1)
  {
  }

  lemma RecordDepth(p: Primitives, x: Record, f: F.Field, d: nat)
    requires f in x && DepthAtMost(Obj(Object(p.spell, x)), d)
    ensures d > 0 && DepthAtMost(x[f], d - 1)
  {
    ObjectDepth(p.spell, x, d);
  }

  lemma ConstraintsDepth(p: Primitives, k: Envelope)
    requires DepthAtMost(PacketJson(p, k), MAX_DEPTH)
    ensures DepthAtMost(Obj(k.constraints), MAX_DEPTH - 1)
  {
    var x := PacketRecord(p, k);
    assert F.Constraints in x && x[F.Constraints] == Obj(k.constraints);
    RecordDepth(p, x, F.Constraints, MAX_DEPTH);
  }

  lemma ActionDepth(p: Primitives, v: Json, d: nat)
    requires ReadAction(p, v).Some? && DepthAtMost(v, d)
    ensures d > 0 && DepthAtMost(Obj(ReadAction(p, v).value.arguments), d - 1)
  {
  }

  lemma TargetDepth(p: Primitives, v: Json, d: nat)
    requires ReadTarget(p, v).Some? && DepthAtMost(v, d)
    ensures d > 0 && DepthAtMost(Obj(ReadTarget(p, v).value.identity), d - 1)
  {
  }

  /** A packet that was hashed bounds how deep its proposal's objects can be. */
  lemma ProposalDepth(p: Primitives, k: Envelope)
    requires DepthAtMost(PacketJson(p, k), MAX_DEPTH) && ParseProposal(p, k).Ok?
    ensures DepthAtMost(Obj(ParseProposal(p, k).value.action.arguments), MAX_DEPTH - 4)
    ensures DepthAtMost(Obj(ParseProposal(p, k).value.target.identity), MAX_DEPTH - 4)
  {
    ConstraintsDepth(p, k);
    var name := p.spell(F.ExecutionProposal);
    MemberDepth(k.constraints, name, MAX_DEPTH - 1);
    RecordWrites(p, k.constraints[name], PROPOSAL_FIELDS);
    var x := ReadRecord(p, k.constraints[name], PROPOSAL_FIELDS).value;
    RecordDepth(p, x, F.Action, MAX_DEPTH - 2);
    RecordDepth(p, x, F.Target, MAX_DEPTH - 2);
    ActionDepth(p, x[F.Action], MAX_DEPTH - 3);
    TargetDepth(p, x[F.Target], MAX_DEPTH - 3);
  }

  lemma ActionJsonDepth(p: Primitives, a: Action, d: nat)
    requires d > 0 && DepthAtMost(Obj(a.arguments), d - 1)
    ensures DepthAtMost(ActionJson(p, a), d)
  {
  }

  lemma TargetJsonDepth(p: Primitives, t: Target, d: nat)
    requires d > 0 && DepthAtMost(Obj(t.identity), d - 1)
    ensures DepthAtMost(TargetJson(p, t), d)
  {
  }

  ghost predicate PartsDepth(parts: Parts, d: nat) {
    && DepthAtMost(parts.packet, d) && DepthAtMost(parts.policy, d) && DepthAtMost(parts.request, d)
    && DepthAtMost(parts.decision, d) && DepthAtMost(parts.action, d) && DepthAtMost(parts.target, d)
    && DepthAtMost(parts.adapter, d)
  }

  lemma EvidenceDepth(p: Primitives, schema: Text, name: F.Field, id: Text, d: nat)
    requires d > 0
    ensures DepthAtMost(Obj(Object(p.spell, EvidenceRecord(schema, name, id))), d)
  {
  }

  lemma AdapterDepth(p: Primitives, a: Adapter, d: nat)
    requires d > 0
    ensures DepthAtMost(Obj(Object(p.spell, AdapterRecord(a))), d)
  {
  }

  lemma PacketRefDepth(p: Primitives, id: Text, sha: Text, d: nat)
    requires d > 0
    ensures DepthAtMost(Obj(Object(p.spell, PacketRefRecord(id, sha))), d)
  {
  }

  lemma FixedPartsDepth(p: Primitives, r: Request, parts: Parts, d: nat)
    requires parts == PartsOf(p, r) && d > 0
    ensures DepthAtMost(parts.packet, d) && DepthAtMost(parts.policy, d) && DepthAtMost(parts.request, d)
    ensures DepthAtMost(parts.decision, d) && DepthAtMost(parts.adapter, d)
  {
    PacketRefDepth(p, r.packetId, r.packetSha256, d);
    EvidenceDepth(p, POLICY_SCHEMA, F.DecisionId, r.policyDecisionId, d);
    EvidenceDepth(p, APPROVAL_REQUEST_SCHEMA, F.ApprovalRequestId, r.approvalRequestId, d);
    EvidenceDepth(p, APPROVAL_DECISION_SCHEMA, F.ApprovalDecisionId, r.approvalDecisionId, d);
    AdapterDepth(p, r.adapter, d);
  }

  lemma RequestRecordDepth(r: Request, x: Record, d: nat)
    requires x.Keys == REQUEST_FIELDS && HoldsStrings(x, r) && PartsDepth(PartsIn(x), d)
    ensures forall f :: f in x ==> DepthAtMost(x[f], d)
  {
  }

  lemma RequestDepth(p: Primitives, r: Request, d: nat)
    requires d > 1 && DepthAtMost(Obj(r.action.arguments), d - 2) && DepthAtMost(Obj(r.target.identity), d - 2)
    ensures DepthAtMost(RequestJson(p, r), d)
  {
    var parts := PartsOf(p, r);
    var x := RequestRecord(r, parts);
    FixedPartsDepth(p, r, parts, d - 1);
    ActionJsonDepth(p, r.action, d - 1);
    TargetJsonDepth(p, r.target, d - 1);
    RecordKeys(r, parts);
    RecordStrings(r, parts, x);
    RecordParts(r, parts, x);
    RequestRecordDepth(r, x, d - 1);
    ObjectDepth(p.spell, x, d);
  }

  // ---------------------------------------------------------------- derivation

  lemma ProposalChecks(p: Primitives, x: Record, resources: seq<Text>)
    requires x.Keys == PROPOSAL_FIELDS && ProposalOf(p, x, resources).Some?
    ensures var q := ProposalOf(p, x, resources).value;
            && BoundedString(q.action.kind, 256) && ValidAdapter(q.adapter)
            && Canonicalizable(p, Obj(q.action.arguments)) && Canonicalizable(p, Obj(q.target.identity))
            && Reference(q.target.resourceRef) && q.target.resourceRef in resources && Reference(q.audience)
            && PrefixedDigest(q.configurationDigest, SHA256_PREFIX) && PrefixedDigest(q.executableDigest, SHA256_PREFIX)
  {
    ActionWrites(p, x[F.Action]);
    AdapterWrites(p, x[F.Adapter]);
  }

  /** What a successful derivation has established about its request. */
  lemma DerivedChecks(p: Primitives, i: Input)
    requires Derive(p, i).Ok?
    ensures var d := Derive(p, i).value;
            && FieldChecks(d.request) && Ordered(d.request.preparedAt, d.request.expiresAt)
            && CarriesSafeNumbers(p, d.request) && Rebuild(p, d.request) == Ok(d)
            && d.request.packetId == i.packet.packetId
  {
    var k := i.packet;
    var x := ReadRecord(p, k.constraints[p.spell(F.ExecutionProposal)], PROPOSAL_FIELDS).value;
    ProposalChecks(p, x, k.resourceRefs);
    RebuildSucceeds(p, DerivedRequest(i, ParseProposal(p, k).value));
  }

  lemma DeriveSteps(p: Primitives, i: Input)
    requires Derive(p, i).Ok?
    ensures DepthAtMost(PacketJson(p, i.packet), MAX_DEPTH) && ParseProposal(p, i.packet).Ok?
    ensures Derive(p, i).value.request == DerivedRequest(i, ParseProposal(p, i.packet).value)
  {
    RebuildSucceeds(p, DerivedRequest(i, ParseProposal(p, i.packet).value));
  }

  lemma ProposedDepth(p: Primitives, r: Request)
    requires DepthAtMost(Obj(r.action.arguments), MAX_DEPTH - 4) && DepthAtMost(Obj(r.target.identity), MAX_DEPTH - 4)
    ensures DepthAtMost(RequestJson(p, r), MAX_DEPTH)
  {
    DepthMonotone(Obj(r.action.arguments), MAX_DEPTH - 4, MAX_DEPTH - 2);
    DepthMonotone(Obj(r.target.identity), MAX_DEPTH - 4, MAX_DEPTH - 2);
    RequestDepth(p, r, MAX_DEPTH);
  }

  /** The parser's bound on nesting never rejects a derived text: the packet's bound is tighter. */
  lemma DerivedDepth(p: Primitives, i: Input)
    requires Derive(p, i).Ok?
    ensures DepthAtMost(RequestJson(p, Derive(p, i).value.request), MAX_DEPTH)
  {
    DeriveSteps(p, i);
    ProposalDepth(p, i.packet);
    ProposedDepth(p, Derive(p, i).value.request);
  }

  lemma NormalizedChecks(p: Primitives, r: Request)
    requires CarriesSafeNumbers(p, r) && FieldChecks(r)
    ensures FieldChecks(Normalized(p, r))
  {
  }

  /** The normalized request is one whose text the parser reads, and its text is the same. */
  lemma NormalizedIsWritten(p: Primitives, r: Request, t: Text)
    requires CarriesSafeNumbers(p, r) && Canonicalize(p, RequestJson(p, r)) == Some(t)
    requires DepthAtMost(RequestJson(p, r), MAX_DEPTH) && ScalarText(RequestJson(p, r))
    ensures var n := Normalized(p, r);
            && CarriesSafeNumbers(p, n) && CarriesIntegers(n)
            && DepthAtMost(RequestJson(p, n), MAX_DEPTH) && ScalarText(RequestJson(p, n))
            && Canonicalize(p, RequestJson(p, n)) == Some(t)
  {
    var n := Normalized(p, r);
    RequestNormalizes(p, r);
    NormalizedTwice(p, r);
    NormalizedTwice(p, n);
    NormalizeDepth(p, RequestJson(p, r), MAX_DEPTH);
    NormalizeScalarText(p, RequestJson(p, r));
    PartTexts(p, r, n);
  }

  lemma ParseNormalized(p: Primitives, d: Derived)
    requires FieldChecks(d.request) && Ordered(d.request.preparedAt, d.request.expiresAt)
    requires CarriesSafeNumbers(p, d.request) && Rebuild(p, d.request) == Ok(d)
    requires DepthAtMost(RequestJson(p, d.request), MAX_DEPTH) && ScalarText(RequestJson(p, d.request))
    ensures Parse(p, d.canonicalRequest)
         == if PrefixedDigest(d.request.packetId, PKT) then Ok(d.(request := Normalized(p, d.request)))
            else Err(ProposalInvalid)
  {
    var r := d.request;
    var n := Normalized(p, r);
    RebuiltText(p, r);
    NormalizedIsWritten(p, r, d.canonicalRequest);
    NormalizedTwice(p, r);
    NormalizedChecks(p, r);
    SameEvidence(p, r, n);
    ParseWritten(p, n, d.canonicalRequest);
  }

  /**
   A derived record sent through its own text comes back with every number written as an
   integer, provided the packet id is digest-shaped; otherwise the text is rejected. The
   premise on `ScalarText` says only that the request's strings are Rust strings.
   */
  lemma DeriveThenParse(p: Primitives, i: Input)
    requires Derive(p, i).Ok? && ScalarText(RequestJson(p, Derive(p, i).value.request))
    ensures var d := Derive(p, i).value;
            && CarriesSafeNumbers(p, d.request)
            && Verify(p, d) == Ok(())
            && Parse(p, d.canonicalRequest)
               == if PrefixedDigest(i.packet.packetId, PKT) then Ok(d.(request := Normalized(p, d.request)))
                  else Err(ProposalInvalid)
  {
    DerivedChecks(p, i);
    DerivedDepth(p, i);
    ParseNormalized(p, Derive(p, i).value);
    VerifyMeansRebuilt(p, Derive(p, i).value);
  }

  /** The identical record comes back exactly when, in addition, there was nothing to rewrite. */
  lemma DeriveParseIdentity(p: Primitives, i: Input)
    requires Derive(p, i).Ok? && ScalarText(RequestJson(p, Derive(p, i).value.request))
    ensures var d := Derive(p, i).value;
            Parse(p, d.canonicalRequest) == Ok(d) <==>
              PrefixedDigest(i.packet.packetId, PKT) && CarriesIntegers(d.request)
  {
    DeriveThenParse(p, i);
    NormalizedTwice(p, Derive(p, i).value.request);
  }
}
