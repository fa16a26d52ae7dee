/**
 The derive, parse and verify triangle of the execution contract. Canonical text forgets one
 thing only: whether an integer was written `1` or `1.0`. Everything below is exact up to that.
 */
module ExecutionProofs {
  import opened Texts
  import opened Bytes
  import opened Json
  import opened ContractJson
  import opened Grammar
  import opened Objects
  import opened Packet
  import opened Execution
  import opened ExecutionJson
  import F = FieldNames

  // ---------------------------------------------------------------- normalizing a request

  /** Only the action's arguments and the target's identity can hold numbers. */
  ghost predicate CarriesSafeNumbers(p: Primitives, r: Request) {
    Canonicalizable(p, Obj(r.action.arguments)) && Canonicalizable(p, Obj(r.target.identity))
  }

  ghost predicate CarriesIntegers(r: Request) {
    NoFloats(Obj(r.action.arguments)) && NoFloats(Obj(r.target.identity))
  }

  /** The request with every number written as an integer. */
  ghost function Normalized(p: Primitives, r: Request): (n: Request)
    requires CarriesSafeNumbers(p, r)
  {
    r.(action := r.action.(arguments := Normalize(p, Obj(r.action.arguments)).members),
       target := r.target.(identity := Normalize(p, Obj(r.target.identity)).members))
  }

  predicate OnlyStrings(x: Record) { forall f :: f in x ==> x[f].Str? }

  lemma StringsNormalize(p: Primitives, x: Record)
    requires OnlyStrings(x)
    ensures Canonicalizable(p, Obj(Object(p.spell, x)))
    ensures Normalize(p, Obj(Object(p.spell, x))) == Obj(Object(p.spell, x))
  {
  }

  lemma ActionNormalizes(p: Primitives, a: Action)
    ensures Canonicalizable(p, ActionJson(p, a)) <==> Canonicalizable(p, Obj(a.arguments))
    ensures Canonicalizable(p, Obj(a.arguments)) ==>
      Normalize(p, ActionJson(p, a)) == ActionJson(p, a.(arguments := Normalize(p, Obj(a.arguments)).members))
  {
    var x := ActionRecord(a);
    ObjectCanonicalizable(p.spell, p, x);
    assert x[F.Arguments] == Obj(a.arguments);
    if Canonicalizable(p, Obj(a.arguments)) {
      assert AllCanonicalizable(p, x);
      NormalizeObject(p.spell, p, x);
      assert NormalizeRecord(p, x) == ActionRecord(a.(arguments := Normalize(p, Obj(a.arguments)).members));
    }
  }

  lemma TargetNormalizes(p: Primitives, t: Target)
    ensures Canonicalizable(p, TargetJson(p, t)) <==> Canonicalizable(p, Obj(t.identity))
    ensures Canonicalizable(p, Obj(t.identity)) ==>
      Normalize(p, TargetJson(p, t)) == TargetJson(p, t.(identity := Normalize(p, Obj(t.identity)).members))
  {
    var x := TargetRecord(t);
    ObjectCanonicalizable(p.spell, p, x);
    assert x[F.Identity] == Obj(t.identity);
    if Canonicalizable(p, Obj(t.identity)) {
      assert AllCanonicalizable(p, x);
      NormalizeObject(p.spell, p, x);
      assert NormalizeRecord(p, x) == TargetRecord(t.(identity := Normalize(p, Obj(t.identity)).members));
    }
  }

  ghost predicate PartsCanonicalizable(p: Primitives, parts: Parts) {
    && Canonicalizable(p, parts.packet) && Canonicalizable(p, parts.policy)
    && Canonicalizable(p, parts.request) && Canonicalizable(p, parts.decision)
    && Canonicalizable(p, parts.action) && Canonicalizable(p, parts.target) && Canonicalizable(p, parts.adapter)
  }

  ghost function NormalizeParts(p: Primitives, parts: Parts): Parts
    requires PartsCanonicalizable(p, parts)
  {
    Parts(Normalize(p, parts.packet), Normalize(p, parts.policy), Normalize(p, parts.request),
          Normalize(p, parts.decision), Normalize(p, parts.action), Normalize(p, parts.target),
          Normalize(p, parts.adapter))
  }

  lemma EvidenceNormalizes(p: Primitives, schema: Text, name: F.Field, id: Text)
    ensures var v := Obj(Object(p.spell, EvidenceRecord(schema, name, id)));
            Canonicalizable(p, v) && Normalize(p, v) == v
  {
    StringsNormalize(p, EvidenceRecord(schema, name, id));
  }

  lemma AdapterNormalizes(p: Primitives, a: Adapter)
    ensures var v := Obj(Object(p.spell, AdapterRecord(a))); Canonicalizable(p, v) && Normalize(p, v) == v
  {
    StringsNormalize(p, AdapterRecord(a));
  }

  lemma PacketRefNormalizes(p: Primitives, id: Text, sha: Text)
    ensures var v := Obj(Object(p.spell, PacketRefRecord(id, sha))); Canonicalizable(p, v) && Normalize(p, v) == v
  {
    StringsNormalize(p, PacketRefRecord(id, sha));
  }

  /** The parts that hold only strings. */
  lemma FixedPartsNormalize(p: Primitives, r: Request, parts: Parts)
    requires parts == PartsOf(p, r)
    ensures Canonicalizable(p, parts.packet) && Normalize(p, parts.packet) == parts.packet
    ensures Canonicalizable(p, parts.policy) && Normalize(p, parts.policy) == parts.policy
    ensures Canonicalizable(p, parts.request) && Normalize(p, parts.request) == parts.request
    ensures Canonicalizable(p, parts.decision) && Normalize(p, parts.decision) == parts.decision
    ensures Canonicalizable(p, parts.adapter) && Normalize(p, parts.adapter) == parts.adapter
  {
    PacketRefNormalizes(p, r.packetId, r.packetSha256);
    EvidenceNormalizes(p, POLICY_SCHEMA, F.DecisionId, r.policyDecisionId);
    EvidenceNormalizes(p, APPROVAL_REQUEST_SCHEMA, F.ApprovalRequestId, r.approvalRequestId);
    EvidenceNormalizes(p, APPROVAL_DECISION_SCHEMA, F.ApprovalDecisionId, r.approvalDecisionId);
    AdapterNormalizes(p, r.adapter);
  }

  lemma PartsNormalize(p: Primitives, r: Request)
    ensures PartsCanonicalizable(p, PartsOf(p, r)) <==> CarriesSafeNumbers(p, r)
    ensures CarriesSafeNumbers(p, r) ==> NormalizeParts(p, PartsOf(p, r)) == PartsOf(p, Normalized(p, r))
  {
    FixedPartsNormalize(p, r, PartsOf(p, r));
    ActionNormalizes(p, r.action);
    TargetNormalizes(p, r.target);
  }

  lemma RecordCanonicalizable(p: Primitives, r: Request, x: Record)
    requires x.Keys == REQUEST_FIELDS && HoldsStrings(x, r)
    ensures AllCanonicalizable(p, x) <==> PartsCanonicalizable(p, PartsIn(x))
  {
  }

  lemma RecordNormalizes(p: Primitives, r: Request, x: Record)
    requires x.Keys == REQUEST_FIELDS && HoldsStrings(x, r) && AllCanonicalizable(p, x)
    ensures PartsCanonicalizable(p, PartsIn(x))
    ensures var y := NormalizeRecord(p, x);
            && y.Keys == REQUEST_FIELDS && HoldsStrings(y, r)
            && PartsIn(y) == NormalizeParts(p, PartsIn(x))
  {
    var y := NormalizeRecord(p, x);
    assert y.Keys == REQUEST_FIELDS;
    assert forall f :: f in REQUEST_FIELDS && x[f].Str? ==> y[f] == x[f];
  }

  lemma SameStrings(a: Request, b: Request, parts: Parts)
    requires b == a.(action := b.action, target := b.target)
    ensures RequestRecord(a, parts) == RequestRecord(b, parts)
  {
  }

  /** Normalizing a request's JSON form is taking the form of the normalized request. */
  lemma RequestNormalizes(p: Primitives, r: Request)
    ensures Canonicalizable(p, RequestJson(p, r)) <==> CarriesSafeNumbers(p, r)
    ensures CarriesSafeNumbers(p, r) ==> Normalize(p, RequestJson(p, r)) == RequestJson(p, Normalized(p, r))
  {
    var parts := PartsOf(p, r);
    var x := RequestRecord(r, parts);
    RecordKeys(r, parts);
    RecordStrings(r, parts, x);
    RecordParts(r, parts, x);
    RecordCanonicalizable(p, r, x);
    ObjectCanonicalizable(p.spell, p, x);
    PartsNormalize(p, r);
    if CarriesSafeNumbers(p, r) {
      var n := Normalized(p, r);
      NormalizeObject(p.spell, p, x);
      RecordNormalizes(p, r, x);
      HoldsIsRecord(NormalizeRecord(p, x), r);
      SameStrings(r, n, PartsOf(p, n));
    }
  }

  lemma NormalizedTwice(p: Primitives, r: Request)
    requires CarriesSafeNumbers(p, r)
    ensures CarriesSafeNumbers(p, Normalized(p, r)) && Normalized(p, Normalized(p, r)) == Normalized(p, r)
    ensures Normalized(p, r) == r <==> CarriesIntegers(r)
  {
    NormalizeIdempotent(p, Obj(r.action.arguments));
    NormalizeIdempotent(p, Obj(r.target.identity));
    NormalizeFixes(p, Obj(r.action.arguments));
    NormalizeFixes(p, Obj(r.target.identity));
  }

  lemma SameCanonicalText(p: Primitives, v: Json, w: Json)
    requires Canonicalizable(p, v) && Canonicalizable(p, w) && Normalize(p, v) == Normalize(p, w)
    ensures Canonicalize(p, v) == Canonicalize(p, w)
  {
  }

  lemma PartTexts(p: Primitives, a: Request, b: Request)
    requires CarriesSafeNumbers(p, a) && CarriesSafeNumbers(p, b) && Normalized(p, a) == Normalized(p, b)
    ensures Canonicalize(p, RequestJson(p, a)) == Canonicalize(p, RequestJson(p, b))
    ensures Canonicalize(p, ActionJson(p, a.action)) == Canonicalize(p, ActionJson(p, b.action))
    ensures Canonicalize(p, TargetJson(p, a.target)) == Canonicalize(p, TargetJson(p, b.target))
  {
    RequestNormalizes(p, a);
    RequestNormalizes(p, b);
    SameCanonicalText(p, RequestJson(p, a), RequestJson(p, b));
    ActionNormalizes(p, a.action);
    ActionNormalizes(p, b.action);
    SameCanonicalText(p, ActionJson(p, a.action), ActionJson(p, b.action));
    TargetNormalizes(p, a.target);
    TargetNormalizes(p, b.target);
    SameCanonicalText(p, TargetJson(p, a.target), TargetJson(p, b.target));
  }

  /** When every byte and digest of a request exists. */
  lemma RebuildSucceeds(p: Primitives, r: Request)
    ensures Rebuild(p, r).Ok? <==>
      && CarriesSafeNumbers(p, r)
      && PrefixedDigest(r.configurationDigest, SHA256_PREFIX) && PrefixedDigest(r.executableDigest, SHA256_PREFIX)
    ensures Rebuild(p, r).Ok? ==> Rebuild(p, r).value.request == r
  {
    RequestNormalizes(p, r);
    DigestExists(p, ACTION_DOMAIN, ActionJson(p, r.action));
    DigestExists(p, TARGET_DOMAIN, TargetJson(p, r.target));
    ActionNormalizes(p, r.action);
    TargetNormalizes(p, r.target);
  }

  lemma DigestExists(p: Primitives, domain: Text, v: Json)
    ensures DomainDigest(p, domain, v).Some? <==> Canonicalizable(p, v)
  {
  }

  /** Requests that differ only in how integers are written share all their evidence. */
  lemma SameEvidence(p: Primitives, a: Request, b: Request)
    requires Rebuild(p, a).Ok? && CarriesSafeNumbers(p, b)
    requires CarriesSafeNumbers(p, a) && Normalized(p, a) == Normalized(p, b)
    ensures Rebuild(p, b) == Ok(Rebuild(p, a).value.(request := b))
  {
    PartTexts(p, a, b);
  }

  lemma PartsInjective(p: Primitives, a: Request, b: Request)
    requires PartsOf(p, a) == PartsOf(p, b)
    ensures a.packetId == b.packetId && a.packetSha256 == b.packetSha256
    ensures a.policyDecisionId == b.policyDecisionId && a.approvalRequestId == b.approvalRequestId
    ensures a.approvalDecisionId == b.approvalDecisionId
    ensures a.action == b.action && a.target == b.target && a.adapter == b.adapter
  {
    PacketRefInjective(p, a.packetId, a.packetSha256, b.packetId, b.packetSha256);
    EvidenceInjective(p, POLICY_SCHEMA, F.DecisionId, a.policyDecisionId, b.policyDecisionId);
    EvidenceInjective(p, APPROVAL_REQUEST_SCHEMA, F.ApprovalRequestId, a.approvalRequestId, b.approvalRequestId);
    EvidenceInjective(p, APPROVAL_DECISION_SCHEMA, F.ApprovalDecisionId, a.approvalDecisionId, b.approvalDecisionId);
    ActionInjective(p, a.action, b.action);
    TargetReads(p, a.target);
    TargetReads(p, b.target);
    AdapterInjective(p, a.adapter, b.adapter);
  }

  lemma PacketRefInjective(p: Primitives, id: Text, sha: Text, id': Text, sha': Text)
    requires Object(p.spell, PacketRefRecord(id, sha)) == Object(p.spell, PacketRefRecord(id', sha'))
    ensures id == id' && sha == sha'
  {
    var x, y := PacketRefRecord(id, sha), PacketRefRecord(id', sha');
    ObjectInjective(p.spell, x, y);
    assert x[F.PacketId] == Str(id) && y[F.PacketId] == Str(id');
    assert x[F.PacketSha256] == Str(sha) && y[F.PacketSha256] == Str(sha');
  }

  lemma EvidenceInjective(p: Primitives, schema: Text, name: F.Field, id: Text, id': Text)
    requires Object(p.spell, EvidenceRecord(schema, name, id)) == Object(p.spell, EvidenceRecord(schema, name, id'))
    ensures id == id'
  {
    var x, y := EvidenceRecord(schema, name, id), EvidenceRecord(schema, name, id');
    ObjectInjective(p.spell, x, y);
    assert x[name] == Str(id) && y[name] == Str(id');
  }

  lemma ActionInjective(p: Primitives, a: Action, b: Action)
    requires ActionJson(p, a) == ActionJson(p, b)
    ensures a == b
  {
    var x, y := ActionRecord(a), ActionRecord(b);
    ObjectInjective(p.spell, x, y);
    assert x[F.Kind] == Str(a.kind) && y[F.Kind] == Str(b.kind);
    assert x[F.Arguments] == Obj(a.arguments) && y[F.Arguments] == Obj(b.arguments);
  }

  lemma AdapterInjective(p: Primitives, a: Adapter, b: Adapter)
    requires Object(p.spell, AdapterRecord(a)) == Object(p.spell, AdapterRecord(b))
    ensures a == b
  {
    var x, y := AdapterRecord(a), AdapterRecord(b);
    ObjectInjective(p.spell, x, y);
    assert x[F.Ref] == Str(a.adapterRef) && y[F.Ref] == Str(b.adapterRef);
    assert x[F.Version] == Str(a.version) && y[F.Version] == Str(b.version);
  }

  lemma HeldStringsInjective(x: Record, a: Request, b: Request)
    requires x.Keys == REQUEST_FIELDS && HoldsStrings(x, a) && HoldsStrings(x, b)
    ensures a.contractVersion == b.contractVersion && a.schemaId == b.schemaId
    ensures a.derivationProfile == b.derivationProfile && a.requesterRef == b.requesterRef
    ensures a.requesterSessionRef == b.requesterSessionRef && a.approverRef == b.approverRef
    ensures a.approverSessionRef == b.approverSessionRef && a.projectRef == b.projectRef
    ensures a.resourceRef == b.resourceRef && a.configurationDigest == b.configurationDigest
    ensures a.executableDigest == b.executableDigest && a.audience == b.audience
    ensures a.preparedAt == b.preparedAt && a.expiresAt == b.expiresAt
  {
  }

  /** The JSON form of a request leaves nothing of it out. */
  lemma RequestJsonInjective(p: Primitives, a: Request, b: Request)
    requires RequestJson(p, a) == RequestJson(p, b)
    ensures a == b
  {
    var x, y := RequestRecord(a, PartsOf(p, a)), RequestRecord(b, PartsOf(p, b));
    RecordKeys(a, PartsOf(p, a));
    RecordKeys(b, PartsOf(p, b));
    ObjectInjective(p.spell, x, y);
    RecordStrings(a, PartsOf(p, a), x);
    RecordStrings(b, PartsOf(p, b), x);
    RecordParts(a, PartsOf(p, a), x);
    RecordParts(b, PartsOf(p, b), x);
    HeldStringsInjective(x, a, b);
    PartsInjective(p, a, b);
  }

  // ---------------------------------------------------------------- verification

  /** Verification accepts a record exactly when it is what its request rebuilds to. */
  lemma VerifyMeansRebuilt(p: Primitives, d: Derived)
    ensures Verify(p, d) == Ok(()) <==> Rebuild(p, d.request) == Ok(d)
  {
    RebuildSucceeds(p, d.request);
  }

  lemma RewrittenVerifies(p: Primitives, d: Derived, r: Request)
    requires Rebuild(p, d.request) == Ok(d) && CarriesSafeNumbers(p, d.request) && CarriesSafeNumbers(p, r)
    requires Normalized(p, r) == Normalized(p, d.request)
    ensures Rebuild(p, r) == Ok(d.(request := r))
  {
    SameEvidence(p, d.request, r);
  }

  lemma VerifiedIsRewritten(p: Primitives, d: Derived, r: Request)
    requires CarriesSafeNumbers(p, d.request) && CarriesSafeNumbers(p, r)
    requires Canonicalize(p, RequestJson(p, r)) == Canonicalize(p, RequestJson(p, d.request))
    ensures Normalized(p, r) == Normalized(p, d.request)
  {
    RequestNormalizes(p, r);
    RequestNormalizes(p, d.request);
    CanonicalTextsAgree(p, RequestJson(p, r), RequestJson(p, d.request));
    RequestJsonInjective(p, Normalized(p, r), Normalized(p, d.request));
  }

  lemma RebuiltText(p: Primitives, r: Request)
    requires Rebuild(p, r).Ok?
    ensures Canonicalize(p, RequestJson(p, r)) == Some(Rebuild(p, r).value.canonicalRequest)
  {
  }

  /**
   Replacing the request of a verified record is rejected unless the new request is the old
   one with some integers written differently. Digests are equal because their preimages
   are; nothing is assumed of the hash.
   */
  lemma TamperedRequestRejected(p: Primitives, d: Derived, r: Request)
    requires Verify(p, d) == Ok(())
    ensures CarriesSafeNumbers(p, d.request)
    ensures Verify(p, d.(request := r)) == Ok(()) <==>
      CarriesSafeNumbers(p, r) && Normalized(p, r) == Normalized(p, d.request)
  {
    VerifyMeansRebuilt(p, d);
    VerifyMeansRebuilt(p, d.(request := r));
    RebuildSucceeds(p, d.request);
    RebuildSucceeds(p, r);
    if Rebuild(p, r) == Ok(d.(request := r)) {
      RebuiltText(p, r);
      RebuiltText(p, d.request);
      VerifiedIsRewritten(p, d, r);
    }
    if CarriesSafeNumbers(p, r) && Normalized(p, r) == Normalized(p, d.request) { RewrittenVerifies(p, d, r); }
  }

  /** With integers only, any change at all is rejected. */
  lemma TamperedIntegersRejected(p: Primitives, d: Derived, r: Request)
    requires Verify(p, d) == Ok(()) && CarriesIntegers(d.request) && CarriesIntegers(r) && r != d.request
    ensures Verify(p, d.(request := r)).Err?
  {
    TamperedRequestRejected(p, d, r);
    NormalizedTwice(p, d.request);
    if CarriesSafeNumbers(p, r) { NormalizedTwice(p, r); }
  }

  /**
   The exception is real: where an argument is 1, a verified record still verifies after the
   1 is replaced by 1.0, although the request is then a different one.
   */
  lemma OnePointZeroSwapVerifies(p: Primitives, d: Derived, key: Text, token: Text)
    requires Verify(p, d) == Ok(()) && p.wholeFloat(token) == Some(1)
    requires key in d.request.action.arguments && d.request.action.arguments[key] == Num(Int(1))
    ensures var r := d.request.(action := d.request.action.(arguments :=
                       d.request.action.arguments[key := Num(Float(token))]));
            r != d.request && Verify(p, d.(request := r)) == Ok(())
  {
    var m := d.request.action.arguments;
    var m' := m[key := Num(Float(token))];
    var r := d.request.(action := d.request.action.(arguments := m'));
    TamperedRequestRejected(p, d, r);
    assert m'[key] != m[key];
    SwapNormalizes(p, m, key, token);
  }

  lemma SwapNormalizes(p: Primitives, m: map<Text, Json>, key: Text, token: Text)
    requires Canonicalizable(p, Obj(m)) && key in m && m[key] == Num(Int(1)) && p.wholeFloat(token) == Some(1)
    ensures var m' := m[key := Num(Float(token))];
            Canonicalizable(p, Obj(m')) && Normalize(p, Obj(m')) == Normalize(p, Obj(m))
  {
  }
}
