/**
 The contracts crate's canonical JSON (`packet.rs`): every number must denote a safe integer
 and is printed as one, so two values that differ only in writing an integer as `1` or `1.0`
 share one canonical text. Reading is `serde_json::from_str`: at most 127 open containers and
 no unpaired surrogate.
 */
module ContractJson {
  import opened Texts
  import opened Bytes
  import opened Json
  import opened JsonReader
  import F = FieldNames

  /**
   What the model is generic in: the hash, the integer an `f64` token denotes, and the
   spelling of field names, of which only that it has no collisions is ever used.
   */
  datatype Primitives = Primitives(sha256: seq<Byte> -> Digest, wholeFloat: Text -> Option<int>, spell: F.Speller)

  const MAX_SAFE_INTEGER: int := 9_007_199_254_740_991
  const MAX_DEPTH: nat := 127

  function SafeInteger(p: Primitives, n: Number): Option<int> {
    var value := match n case Int(i) => Some(i) case Float(token) => p.wholeFloat(token);
    if value.Some? && -MAX_SAFE_INTEGER <= value.value <= MAX_SAFE_INTEGER then value else None
  }

  ghost predicate Canonicalizable(p: Primitives, v: Json)
    decreases v
  {
    match v
    case Num(n) => SafeInteger(p, n).Some?
    case Arr(items) => forall i :: 0 <= i < |items| ==> Canonicalizable(p, items[i])
    case Obj(members) => forall k :: k in members ==> Canonicalizable(p, members[k])
    case _ => true
  }

  ghost predicate NoFloats(v: Json)
    decreases v
  {
    match v
    case Num(n) => n.Int?
    case Arr(items) => forall i :: 0 <= i < |items| ==> NoFloats(items[i])
    case Obj(members) => forall k :: k in members ==> NoFloats(members[k])
    case _ => true
  }

  /** The value with every number replaced by the integer it denotes. */
  ghost function Normalize(p: Primitives, v: Json): (r: Json)
    requires Canonicalizable(p, v)
    decreases v
  {
    match v
    case Num(n) => Num(Int(SafeInteger(p, n).value))
    case Arr(items) => Arr(seq(|items|, i requires 0 <= i < |items| => Normalize(p, items[i])))
    case Obj(members) => Obj(map k | k in members :: Normalize(p, members[k]))
    case _ => v
  }

  /** `canonicalize_json_value`. */
  ghost function Canonicalize(p: Primitives, v: Json): Option<Text> {
    if Canonicalizable(p, v) then Some(Print(Normalize(p, v))) else None
  }

  lemma {:induction false} NormalizeNoFloats(p: Primitives, v: Json)
    requires Canonicalizable(p, v)
    ensures NoFloats(Normalize(p, v)) && WellFormed(Normalize(p, v))
    decreases v
  {
    match v
    case Arr(items) =>
      forall i | 0 <= i < |items| ensures NoFloats(Normalize(p, v).items[i]) && WellFormed(Normalize(p, v).items[i]) {
        NormalizeNoFloats(p, items[i]);
      }
    case Obj(members) =>
      forall k | k in members ensures NoFloats(Normalize(p, v).members[k]) && WellFormed(Normalize(p, v).members[k]) {
        NormalizeNoFloats(p, members[k]);
      }
    case _ =>
  }

  lemma {:induction false} NoFloatsWellFormed(v: Json)
    requires NoFloats(v)
    ensures WellFormed(v)
    decreases v
  {
    match v
    case Arr(items) =>
      forall i | 0 <= i < |items| ensures WellFormed(items[i]) { NoFloatsWellFormed(items[i]); }
    case Obj(members) =>
      forall k | k in members ensures WellFormed(members[k]) { NoFloatsWellFormed(members[k]); }
    case _ =>
  }

  /** Normalizing changes a value exactly when it holds a number that is not an integer token. */
  lemma {:induction false} NormalizeFixes(p: Primitives, v: Json)
    requires Canonicalizable(p, v)
    ensures Normalize(p, v) == v <==> NoFloats(v)
    decreases v
  {
    match v
    case Arr(items) =>
      var r := Normalize(p, v).items;
      forall i | 0 <= i < |items| ensures r[i] == items[i] <==> NoFloats(items[i]) {
        NormalizeFixes(p, items[i]);
      }
      if NoFloats(v) { assert r == items; }
    case Obj(members) =>
      var r := Normalize(p, v).members;
      forall k | k in members ensures r[k] == members[k] <==> NoFloats(members[k]) {
        NormalizeFixes(p, members[k]);
      }
      if NoFloats(v) { assert r == members; }
    case _ =>
  }

  lemma {:induction false} NormalizeCanonicalizable(p: Primitives, v: Json)
    requires Canonicalizable(p, v)
    ensures Canonicalizable(p, Normalize(p, v))
    decreases v
  {
    match v
    case Arr(items) =>
      forall i | 0 <= i < |items| ensures Canonicalizable(p, Normalize(p, v).items[i]) {
        NormalizeCanonicalizable(p, items[i]);
      }
    case Obj(members) =>
      forall k | k in members ensures Canonicalizable(p, Normalize(p, v).members[k]) {
        NormalizeCanonicalizable(p, members[k]);
      }
    case _ =>
  }

  lemma NormalizeIdempotent(p: Primitives, v: Json)
    requires Canonicalizable(p, v)
    ensures Canonicalizable(p, Normalize(p, v)) && Normalize(p, Normalize(p, v)) == Normalize(p, v)
  {
  }

  lemma {:induction false} NormalizeDepth(p: Primitives, v: Json, d: nat)
    requires Canonicalizable(p, v) && DepthAtMost(v, d)
    ensures DepthAtMost(Normalize(p, v), d)
    decreases v
  {
    match v
    case Arr(items) =>
      forall i | 0 <= i < |items| ensures DepthAtMost(Normalize(p, v).items[i], d - 1) {
        NormalizeDepth(p, items[i], d - 1);
      }
    case Obj(members) =>
      forall k | k in members ensures DepthAtMost(Normalize(p, v).members[k], d - 1) {
        NormalizeDepth(p, members[k], d - 1);
      }
    case _ =>
  }

  /** Canonical texts agree exactly when the values agree up to how integers are written. */
  lemma CanonicalTextsAgree(p: Primitives, a: Json, b: Json)
    requires Canonicalizable(p, a) && Canonicalizable(p, b)
    ensures Canonicalize(p, a) == Canonicalize(p, b) <==> Normalize(p, a) == Normalize(p, b)
  {
    NormalizeNoFloats(p, a);
    NormalizeNoFloats(p, b);
    PrintInjective(Normalize(p, a), Normalize(p, b));
  }

  // ---------------------------------------------------------------- reading

  /** Every string in the value is a Rust string. */
  ghost predicate ScalarText(v: Json)
    decreases v
  {
    match v
    case Str(t) => PairedSurrogates(t)
    case Arr(items) => forall i :: 0 <= i < |items| ==> ScalarText(items[i])
    case Obj(members) => forall k :: k in members ==> PairedSurrogates(k) && ScalarText(members[k])
    case _ => true
  }

  lemma {:induction false} NormalizeScalarText(p: Primitives, v: Json)
    requires Canonicalizable(p, v) && ScalarText(v)
    ensures ScalarText(Normalize(p, v))
    decreases v
  {
    match v
    case Arr(items) =>
      forall i | 0 <= i < |items| ensures ScalarText(Normalize(p, v).items[i]) {
        NormalizeScalarText(p, items[i]);
      }
    case Obj(members) =>
      forall k | k in members ensures ScalarText(Normalize(p, v).members[k]) {
        NormalizeScalarText(p, members[k]);
      }
    case _ =>
  }

  /** `serde_json::from_str`. */
  ghost function FromStr(t: Text): Option<Json> {
    var v := Read(t, MAX_DEPTH);
    if v.Some? && ScalarText(v.value) then v else None
  }

  lemma {:induction false} ReadValueDepth(t: Text, d: nat)
    requires ReadValue(t, d).Some?
    ensures DepthAtMost(ReadValue(t, d).value.value, d)
    decreases |t|, 1
  {
    var u := SkipSpace(t);
    if u[0] == LBRACKET {
      var w := SkipSpace(u[1..]);
      if w != [] && w[0] != RBRACKET && d > 0 { ReadItemsDepth(w, d - 1); }
    } else if u[0] == LBRACE {
      var w := SkipSpace(u[1..]);
      if w != [] && w[0] != RBRACE && d > 0 { ReadMembersDepth(w, d - 1); }
    }
  }

  lemma {:induction false} ReadItemsDepth(t: Text, d: nat)
    requires ReadItems(t, d).Some?
    ensures forall i :: 0 <= i < |ReadItems(t, d).value.value| ==> DepthAtMost(ReadItems(t, d).value.value[i], d)
    decreases |t|, 2
  {
    ReadValueDepth(t, d);
    var u := SkipSpace(ReadValue(t, d).value.rest);
    if u[0] == COMMA { ReadItemsDepth(u[1..], d); }
  }

  lemma {:induction false} ReadMembersDepth(text: Text, d: nat)
    requires ReadMembers(text, d).Some?
    ensures forall k :: k in ReadMembers(text, d).value.value ==> DepthAtMost(ReadMembers(text, d).value.value[k], d)
    decreases |text|, 2
  {
    var t := SkipSpace(text);
    var c := SkipSpace(ReadString(t[1..]).value.rest);
    ReadValueDepth(c[1..], d);
    var u := SkipSpace(ReadValue(c[1..], d).value.rest);
    if u[0] == COMMA { ReadMembersDepth(u[1..], d); }
  }

  /** A text that reads to a value with that very text as canonical form holds no float. */
  lemma CanonicalTextReads(p: Primitives, t: Text, v: Json)
    requires FromStr(t) == Some(v) && Canonicalize(p, v) == Some(t)
    ensures NoFloats(v) && Normalize(p, v) == v && DepthAtMost(v, MAX_DEPTH) && t == Print(v)
  {
    ReadValueDepth(t, MAX_DEPTH);
    NormalizeDepth(p, v, MAX_DEPTH);
    NormalizeNoFloats(p, v);
    ReadPrint(Normalize(p, v), MAX_DEPTH);
    NormalizeFixes(p, v);
  }

  /** Reading a canonical text back gives the normalized value. */
  lemma CanonicalTextDecodes(p: Primitives, v: Json)
    requires Canonicalizable(p, v) && DepthAtMost(v, MAX_DEPTH) && ScalarText(v)
    ensures FromStr(Canonicalize(p, v).value) == Some(Normalize(p, v))
  {
    NormalizeDepth(p, v, MAX_DEPTH);
    NormalizeNoFloats(p, v);
    NormalizeScalarText(p, v);
    ReadPrint(Normalize(p, v), MAX_DEPTH);
  }
}
