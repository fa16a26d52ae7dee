/**
 JSON objects with a fixed set of fields, as `serde_json::json!` builds them and as the
 contracts' `exact_keys`, `required_string` and `required_object` read them. A record maps
 fields to values; `Object` is the JSON object it becomes.
 */
module Objects {
  import opened Texts
  import opened Json
  import F = FieldNames
  import opened ContractJson

  type Record = map<F.Field, Json>

  ghost function Object<T(!new)>(s: T -> Text, x: map<T, Json>): map<Text, Json>
    requires F.Injective(s)
  {
    map f | f in x :: s(f) := x[f]
  }

  lemma ObjectMember<T(!new)>(s: T -> Text, x: map<T, Json>, f: T)
    requires F.Injective(s)
    ensures s(f) in Object(s, x) <==> f in x
    ensures f in x ==> Object(s, x)[s(f)] == x[f]
  {
  }

  /** `exact_keys`: as many members as fields, and every field present. */
  ghost predicate ExactKeys<T(!new)>(s: T -> Text, m: map<Text, Json>, fields: set<T>) {
    |m| == |fields| && forall f :: f in fields ==> s(f) in m
  }

  /** The record an object with these fields holds. */
  ghost function RecordOf<T(!new)>(s: T -> Text, m: map<Text, Json>, fields: set<T>): map<T, Json> {
    map f | f in fields && s(f) in m :: m[s(f)]
  }

  ghost function Spellings<T(!new)>(s: T -> Text, fields: set<T>): set<Text> { set f | f in fields :: s(f) }

  lemma {:induction false} SpellingsSize<T(!new)>(s: T -> Text, fields: set<T>)
    requires F.Injective(s)
    ensures |Spellings(s, fields)| == |fields|
  {
    if fields != {} {
      var f :| f in fields;
      SpellingsSize(s, fields - {f});
      assert Spellings(s, fields) == Spellings(s, fields - {f}) + {s(f)};
      assert s(f) !in Spellings(s, fields - {f});
    }
  }

  lemma {:induction false} SameSizeSubset(a: set<Text>, b: set<Text>)
    requires a <= b && |a| == |b|
    ensures a == b
  {
    if a != b {
      var x :| x in b && x !in a;
      assert |b| == |b - {x}| + 1;
      SubsetSize(a, b - {x});
    }
  }

  lemma {:induction false} SubsetSize(a: set<Text>, b: set<Text>)
    requires a <= b
    ensures |a| <= |b|
  {
    if a != {} {
      var x :| x in a;
      SubsetSize(a - {x}, b - {x});
    }
  }

  /** Counting members and finding every field leaves room for no other member. */
  lemma ExactKeysIsEquality<T(!new)>(s: T -> Text, m: map<Text, Json>, fields: set<T>)
    requires F.Injective(s)
    ensures ExactKeys(s, m, fields) <==> m.Keys == Spellings(s, fields)
  {
    SpellingsSize(s, fields);
    assert |m.Keys| == |m|;
    if ExactKeys(s, m, fields) {
      SameSizeSubset(Spellings(s, fields), m.Keys);
    }
  }

  /** Writing a record and reading its fields gives the record. */
  lemma RecordWritten<T(!new)>(s: T -> Text, x: map<T, Json>)
    requires F.Injective(s)
    ensures ExactKeys(s, Object(s, x), x.Keys) && RecordOf(s, Object(s, x), x.Keys) == x
  {
    forall f ensures s(f) in Object(s, x) <==> f in x ensures f in x ==> Object(s, x)[s(f)] == x[f] {
      ObjectMember(s, x, f);
    }
    ExactKeysIsEquality(s, Object(s, x), x.Keys);
    assert Object(s, x).Keys == Spellings(s, x.Keys);
  }

  /** An object with exactly these fields is the object of its record. */
  lemma ObjectRead<T(!new)>(s: T -> Text, m: map<Text, Json>, fields: set<T>)
    requires F.Injective(s)
    requires ExactKeys(s, m, fields)
    ensures RecordOf(s, m, fields).Keys == fields && Object(s, RecordOf(s, m, fields)) == m
  {
    var x := RecordOf(s, m, fields);
    ExactKeysIsEquality(s, m, fields);
    forall f ensures s(f) in Object(s, x) <==> f in x ensures f in x ==> Object(s, x)[s(f)] == x[f] {
      ObjectMember(s, x, f);
    }
    assert Object(s, x).Keys == Spellings(s, fields);
  }

  lemma ObjectInjective<T(!new)>(s: T -> Text, x: map<T, Json>, y: map<T, Json>)
    requires F.Injective(s)
    requires Object(s, x) == Object(s, y)
    ensures x == y
  {
    forall f ensures f in x <==> f in y ensures f in x ==> x[f] == y[f] {
      ObjectMember(s, x, f);
      ObjectMember(s, y, f);
    }
  }

  function StringIn<T>(x: map<T, Json>, f: T): Option<Text> {
    if f in x && x[f].Str? then Some(x[f].text) else None
  }

  function ObjectIn<T>(x: map<T, Json>, f: T): Option<map<Text, Json>> {
    if f in x && x[f].Obj? then Some(x[f].members) else None
  }

  // ---------------------------------------------------------------- canonical form, member by member

  ghost predicate AllCanonicalizable<T(!new)>(p: Primitives, x: map<T, Json>) {
    forall f :: f in x ==> Canonicalizable(p, x[f])
  }

  lemma ObjectCanonicalizable<T(!new)>(s: T -> Text, p: Primitives, x: map<T, Json>)
    requires F.Injective(s)
    ensures Canonicalizable(p, Obj(Object(s, x))) <==> AllCanonicalizable(p, x)
  {
    var m := Object(s, x);
    assert Canonicalizable(p, Obj(m)) <==> forall k :: k in m ==> Canonicalizable(p, m[k]);
    if Canonicalizable(p, Obj(m)) {
      forall f | f in x ensures Canonicalizable(p, x[f]) { ObjectMember(s, x, f); assert s(f) in m; }
    }
  }

  ghost function NormalizeRecord<T(!new)>(p: Primitives, x: map<T, Json>): map<T, Json>
    requires AllCanonicalizable(p, x)
  {
    map f | f in x :: Normalize(p, x[f])
  }

  lemma NormalizeObject<T(!new)>(s: T -> Text, p: Primitives, x: map<T, Json>)
    requires F.Injective(s)
    requires AllCanonicalizable(p, x)
    ensures Canonicalizable(p, Obj(Object(s, x)))
    ensures Normalize(p, Obj(Object(s, x))) == Obj(Object(s, NormalizeRecord(p, x)))
  {
    ObjectCanonicalizable(s, p, x);
    assert Normalize(p, Obj(Object(s, x))).members == Object(s, NormalizeRecord(p, x));
  }

  lemma ObjectDepth<T(!new)>(s: T -> Text, x: map<T, Json>, d: nat)
    requires F.Injective(s)
    ensures DepthAtMost(Obj(Object(s, x)), d) <==> d > 0 && forall f :: f in x ==> DepthAtMost(x[f], d - 1)
  {
    var m := Object(s, x);
    if DepthAtMost(Obj(m), d) {
      forall f | f in x ensures DepthAtMost(x[f], d - 1) { ObjectMember(s, x, f); assert s(f) in m; }
    }
  }

  // ---------------------------------------------------------------- values without any doubt about numbers

  /** A value whose canonical text always exists and is simply its print. */
  ghost predicate Plain(p: Primitives, v: Json) { Canonicalizable(p, v) && NoFloats(v) }

  ghost predicate PlainRecord<T(!new)>(p: Primitives, x: map<T, Json>) { forall f :: f in x ==> Plain(p, x[f]) }

  lemma PlainObject<T(!new)>(s: T -> Text, p: Primitives, x: map<T, Json>)
    requires F.Injective(s)
    requires PlainRecord(p, x)
    ensures Plain(p, Obj(Object(s, x)))
  {
  }

  lemma PlainText(p: Primitives, v: Json)
    requires Plain(p, v)
    ensures Normalize(p, v) == v && Canonicalize(p, v) == Some(Print(v))
  {
  }
}
