/**
 `canonicalJson` of the audit-ledger writer, over JavaScript values: an object is a list of
 entries in insertion order, and the function sorts the keys itself. Two values print the
 same text exactly when they are the same JSON value, that is, equal up to the order in
 which their objects list their keys.
 */
module LedgerCanonicalJson {
  import opened Texts
  import opened Json
  import JsonReader

  datatype JsEntry = JsEntry(key: Text, value: JsValue)

  /** A finite acyclic value without `undefined`, non-finite numbers or negative zero. */
  datatype JsValue =
    | JsNull
    | JsBoolean(flag: bool)
    | JsNumber(number: Number)
    | JsString(text: Text)
    | JsArray(items: seq<JsValue>)
    | JsObject(entries: seq<JsEntry>)

  function Keys(entries: seq<JsEntry>): (keys: seq<Text>)
    ensures |keys| == |entries| && forall i :: 0 <= i < |keys| ==> keys[i] == entries[i].key
  {
    seq(|entries|, i requires 0 <= i < |entries| => entries[i].key)
  }

  /** What a JavaScript object guarantees: own keys are distinct, at every level. */
  ghost predicate Valid(v: JsValue)
    decreases v
  {
    match v
    case JsNumber(Float(token)) => IsFloatToken(token)
    case JsArray(items) => forall i :: 0 <= i < |items| ==> Valid(items[i])
    case JsObject(entries) =>
      && Distinct(Keys(entries))
      && forall i :: 0 <= i < |entries| ==> Valid(entries[i].value)
    case _ => true
  }

  function IndexOf(entries: seq<JsEntry>, key: Text): (i: nat)
    requires key in Keys(entries)
    ensures i < |entries| && entries[i].key == key
  {
    if entries[0].key == key then 0
    else
      assert Keys(entries)[1..] == Keys(entries[1..]);
      1 + IndexOf(entries[1..], key)
  }

  function CanonicalJson(v: JsValue): Text
    requires Valid(v)
    decreases v
  {
    match v
    case JsNull => NULL
    case JsBoolean(flag) => if flag then TRUE else FALSE
    case JsNumber(number) => PrintNumber(number)
    case JsString(text) => PrintString(text)
    case JsArray(items) => [LBRACKET] + JoinItems(items) + [RBRACKET]
    case JsObject(entries) =>
      SortAscending(Keys(entries));
      assert forall k :: k in Sort(Keys(entries)) ==> k in Members(Sort(Keys(entries)));
      [LBRACE] + JoinMembers(v, Sort(Keys(entries))) + [RBRACE]
  }

  function JoinItems(items: seq<JsValue>): Text
    requires forall i :: 0 <= i < |items| ==> Valid(items[i])
    decreases items
  {
    if items == [] then []
    else if |items| == 1 then CanonicalJson(items[0])
    else CanonicalJson(items[0]) + [COMMA] + JoinItems(items[1..])
  }

  function JoinMembers(v: JsValue, keys: seq<Text>): Text
    requires v.JsObject? && Valid(v) && forall k :: k in keys ==> k in Keys(v.entries)
    decreases v, |keys|
  {
    if keys == [] then []
    else
      var value := v.entries[IndexOf(v.entries, keys[0])].value;
      var first := PrintString(keys[0]) + [COLON] + CanonicalJson(value);
      if |keys| == 1 then first else first + [COMMA] + JoinMembers(v, keys[1..])
  }

  /** Equality of JSON values: arrays position by position, objects key by key. */
  ghost predicate SameJson(a: JsValue, b: JsValue)
    requires Valid(a) && Valid(b)
    decreases a
  {
    match (a, b)
    case (JsNull, JsNull) => true
    case (JsBoolean(x), JsBoolean(y)) => x == y
    case (JsNumber(x), JsNumber(y)) => x == y
    case (JsString(x), JsString(y)) => x == y
    case (JsArray(xs), JsArray(ys)) =>
      |xs| == |ys| && forall i :: 0 <= i < |xs| ==> SameJson(xs[i], ys[i])
    case (JsObject(xs), JsObject(ys)) =>
      && Members(Keys(xs)) == Members(Keys(ys))
      && forall i, j :: 0 <= i < |xs| && 0 <= j < |ys| && xs[i].key == ys[j].key
          ==> SameJson(xs[i].value, ys[j].value)
    case _ => false
  }

  // ---------------------------------------------------------------- forgetting key order

  ghost function Erase(v: JsValue): (r: Json)
    requires Valid(v)
    ensures WellFormed(r)
    decreases v
  {
    match v
    case JsNull => Null
    case JsBoolean(flag) => Bool(flag)
    case JsNumber(number) => Num(number)
    case JsString(text) => Str(text)
    case JsArray(items) =>
      Arr(seq(|items|, i requires 0 <= i < |items| => Erase(items[i])))
    case JsObject(entries) =>
      Obj(map k | k in Members(Keys(entries)) :: Erase(entries[IndexOf(entries, k)].value))
  }

  lemma {:induction false} IndexUnique(entries: seq<JsEntry>, i: nat)
    requires Distinct(Keys(entries)) && i < |entries|
    ensures entries[i].key in Keys(entries) && IndexOf(entries, entries[i].key) == i
  {
  }

  lemma {:induction false} SameIsEqualErased(a: JsValue, b: JsValue)
    requires Valid(a) && Valid(b)
    ensures ValuesMatch(a, b)
    decreases a
  {
    if a.JsArray? && b.JsArray? {
      forall i | 0 <= i < |a.items| && i < |b.items| ensures ValuesMatch(a.items[i], b.items[i]) {
        SameIsEqualErased(a.items[i], b.items[i]);
      }
      SameArrays(a, b);
    } else if a.JsObject? && b.JsObject? {
      forall i, j | 0 <= i < |a.entries| && 0 <= j < |b.entries|
        ensures ValuesMatch(a.entries[i].value, b.entries[j].value)
      {
        SameIsEqualErased(a.entries[i].value, b.entries[j].value);
      }
      SameObjects(a, b);
    }
  }

  lemma SameArrays(a: JsValue, b: JsValue)
    requires Valid(a) && Valid(b) && a.JsArray? && b.JsArray?
    requires forall i :: 0 <= i < |a.items| && i < |b.items| ==> ValuesMatch(a.items[i], b.items[i])
    ensures ValuesMatch(a, b)
  {
    if |a.items| == |b.items| {
      assert forall i :: 0 <= i < |a.items| ==>
        Erase(a).items[i] == Erase(a.items[i]) && Erase(b).items[i] == Erase(b.items[i]);
      forall i | 0 <= i < |a.items| ensures SameJson(a.items[i], b.items[i]) <==> Erase(a).items[i] == Erase(b).items[i] {
        assert ValuesMatch(a.items[i], b.items[i]);
      }
    }
  }

  lemma SameObjects(a: JsValue, b: JsValue)
    requires Valid(a) && Valid(b) && a.JsObject? && b.JsObject?
    requires forall i, j :: 0 <= i < |a.entries| && 0 <= j < |b.entries| ==>
      ValuesMatch(a.entries[i].value, b.entries[j].value)
    ensures ValuesMatch(a, b)
  {
    if Erase(a) == Erase(b) { EqualObjects(a, b); }
    if SameJson(a, b) { AlikeObjects(a, b); }
  }

  lemma ErasedMember(v: JsValue, i: nat)
    requires Valid(v) && v.JsObject? && i < |v.entries|
    ensures v.entries[i].key in Erase(v).members
    ensures Erase(v).members[v.entries[i].key] == Erase(v.entries[i].value)
  {
    IndexUnique(v.entries, i);
  }

  /** For these two values, being the same and erasing alike are the same thing. */
  ghost predicate ValuesMatch(x: JsValue, y: JsValue)
    requires Valid(x) && Valid(y)
  {
    SameJson(x, y) <==> Erase(x) == Erase(y)
  }

  lemma ErasedKeys(v: JsValue)
    requires Valid(v) && v.JsObject?
    ensures Erase(v).members.Keys == Members(Keys(v.entries))
  {
  }

  lemma EqualObjects(a: JsValue, b: JsValue)
    requires Valid(a) && Valid(b) && a.JsObject? && b.JsObject? && Erase(a) == Erase(b)
    requires forall i, j :: 0 <= i < |a.entries| && 0 <= j < |b.entries| ==>
      ValuesMatch(a.entries[i].value, b.entries[j].value)
    ensures SameJson(a, b)
  {
    ErasedKeys(a);
    ErasedKeys(b);
    forall i, j | 0 <= i < |a.entries| && 0 <= j < |b.entries| && a.entries[i].key == b.entries[j].key
      ensures SameJson(a.entries[i].value, b.entries[j].value)
    {
      ErasedMember(a, i);
      ErasedMember(b, j);
      assert ValuesMatch(a.entries[i].value, b.entries[j].value);
    }
  }

  lemma AlikeObjects(a: JsValue, b: JsValue)
    requires Valid(a) && Valid(b) && a.JsObject? && b.JsObject? && SameJson(a, b)
    requires forall i, j :: 0 <= i < |a.entries| && 0 <= j < |b.entries| ==>
      ValuesMatch(a.entries[i].value, b.entries[j].value)
    ensures Erase(a) == Erase(b)
  {
    var m, n := Erase(a).members, Erase(b).members;
    ErasedKeys(a);
    ErasedKeys(b);
    forall k | k in m ensures k in n && m[k] == n[k] {
      assert k in Members(Keys(a.entries)) && k in Members(Keys(b.entries));
      var i, j := IndexOf(a.entries, k), IndexOf(b.entries, k);
      assert ValuesMatch(a.entries[i].value, b.entries[j].value);
      assert SameJson(a.entries[i].value, b.entries[j].value);
    }
    assert m == n;
  }

  // ---------------------------------------------------------------- the two printers agree

  lemma {:induction false} CanonicalIsPrint(v: JsValue)
    requires Valid(v)
    ensures CanonicalJson(v) == Print(Erase(v))
    decreases v
  {
    match v
    case JsArray(items) =>
      JoinIsPrintItems(items, Erase(v).items);
    case JsObject(entries) =>
      SortIgnoresOrder(Keys(entries));
      assert Erase(v).members.Keys == Members(Keys(entries));
      assert forall k :: k in Sort(Keys(entries)) ==> k in Members(Sort(Keys(entries)));
      JoinIsPrintMembers(v, Sort(Keys(entries)));
    case _ =>
  }

  lemma {:induction false} JoinIsPrintItems(items: seq<JsValue>, erased: seq<Json>)
    requires forall i :: 0 <= i < |items| ==> Valid(items[i])
    requires |erased| == |items| && forall i :: 0 <= i < |items| ==> erased[i] == Erase(items[i])
    ensures JoinItems(items) == PrintItems(erased)
    decreases items
  {
    if items != [] {
      CanonicalIsPrint(items[0]);
      JoinIsPrintItems(items[1..], erased[1..]);
    }
  }

  lemma {:induction false} JoinIsPrintMembers(v: JsValue, keys: seq<Text>)
    requires v.JsObject? && Valid(v) && forall k :: k in keys ==> k in Keys(v.entries)
    ensures JoinMembers(v, keys) == PrintMembers(Erase(v), keys)
    decreases v, |keys|
  {
    if keys != [] {
      CanonicalIsPrint(v.entries[IndexOf(v.entries, keys[0])].value);
      JoinIsPrintMembers(v, keys[1..]);
    }
  }

  /** `canonicalJson` separates exactly the distinct JSON values. */
  lemma CanonicalJsonInjective(a: JsValue, b: JsValue)
    requires Valid(a) && Valid(b)
    ensures CanonicalJson(a) == CanonicalJson(b) <==> SameJson(a, b)
  {
    CanonicalIsPrint(a);
    CanonicalIsPrint(b);
    JsonReader.PrintInjective(Erase(a), Erase(b));
    SameIsEqualErased(a, b);
  }
}
