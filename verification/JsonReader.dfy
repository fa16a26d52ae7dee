/**
 A reader for JSON text as `serde_json::from_str` and `JSON.parse` accept it: optional white
 space, every escape, duplicate keys resolved to the last one, a bound on open containers.
 Reading what `Print` wrote gives the value back with the rest of the input untouched, so
 the canonical text decodes uniquely.
 */
module JsonReader {
  import opened Texts
  import opened Json

  datatype Parsed<+T> = Parsed(value: T, rest: Text)

  predicate IsSpace(u: Unit) { u in {0x20, 0x09, 0x0A, 0x0D} }

  function SkipSpace(t: Text): (r: Text)
    ensures |r| <= |t|
    ensures t != [] && !IsSpace(t[0]) ==> r == t
  {
    if t != [] && IsSpace(t[0]) then SkipSpace(t[1..]) else t
  }

  // ---------------------------------------------------------------- strings

  function ShortEscape(u: Unit): Option<Unit> {
    if u in {QUOTE, BACKSLASH, 0x2F} then Some(u)
    else if u == 0x62 then Some(0x08)
    else if u == 0x66 then Some(0x0C)
    else if u == 0x6E then Some(0x0A)
    else if u == 0x72 then Some(0x0D)
    else if u == 0x74 then Some(0x09)
    else None
  }

  function HexValue(u: Unit): (r: Option<int>)
    ensures r.Some? ==> 0 <= r.value < 16
  {
    if IsDigit(u) then Some(u - 0x30)
    else if 0x61 <= u <= 0x66 then Some(u - 0x61 + 10)
    else if 0x41 <= u <= 0x46 then Some(u - 0x41 + 10)
    else None
  }

  function Hex4Value(a: Unit, b: Unit, c: Unit, d: Unit): Option<Unit> {
    match (HexValue(a), HexValue(b), HexValue(c), HexValue(d))
    case (Some(w), Some(x), Some(y), Some(z)) => Some(((w * 16 + x) * 16 + y) * 16 + z)
    case _ => None
  }

  /** One unit of string content and what follows it; `None` where the string is malformed. */
  function ReadUnit(t: Text): (r: Option<Parsed<Unit>>)
    requires t != [] && t[0] != QUOTE
    ensures r.Some? ==> |r.value.rest| < |t|
  {
    if t[0] == BACKSLASH then
      if |t| < 2 then None
      else if t[1] == 0x75 then
        if |t| < 6 then None
        else
          var u := Hex4Value(t[2], t[3], t[4], t[5]);
          if u.None? then None else Some(Parsed(u.value, t[6..]))
      else
        var u := ShortEscape(t[1]);
        if u.None? then None else Some(Parsed(u.value, t[2..]))
    else if t[0] < 0x20 then None
    else Some(Parsed(t[0], t[1..]))
  }

  /** String content up to and including its closing quote. */
  function ReadString(t: Text): (r: Option<Parsed<Text>>)
    ensures r.Some? ==> |r.value.rest| < |t|
    decreases |t|
  {
    if t == [] then None
    else if t[0] == QUOTE then Some(Parsed([], t[1..]))
    else
      var u := ReadUnit(t);
      if u.None? then None
      else
        var more := ReadString(u.value.rest);
        if more.None? then None
        else Some(Parsed([u.value.value] + more.value.value, more.value.rest))
  }

  // ---------------------------------------------------------------- numbers

  function NumberRun(t: Text): (n: nat)
    ensures n <= |t|
  {
    if t == [] || !IsNumberUnit(t[0]) then 0 else 1 + NumberRun(t[1..])
  }

  function NatValue(t: Text): nat
    requires AllDigits(t)
  {
    if t == [] then 0 else NatValue(t[..|t| - 1]) * 10 + (t[|t| - 1] - 0x30)
  }

  function ReadToken(token: Text): Option<Number> {
    if IsIntToken(token) then
      if token[0] == MINUS then
        var n: int := NatValue(token[1..]);
        Some(Int(-n))
      else Some(Int(NatValue(token)))
    else if IsFloatToken(token) then Some(Float(token))
    else None
  }

  function ReadNumber(t: Text): (r: Option<Parsed<Json>>)
    ensures r.Some? ==> |r.value.rest| < |t|
  {
    var n := NumberRun(t);
    var number := ReadToken(t[..n]);
    if number.None? then None else Some(Parsed(Num(number.value), t[n..]))
  }

  // ---------------------------------------------------------------- values

  function ReadValue(text: Text, depth: nat): (r: Option<Parsed<Json>>)
    ensures r.Some? ==> |r.value.rest| < |text|
    decreases |text|, 1
  {
    var t := SkipSpace(text);
    if t == [] then None
    else if NULL <= t then Some(Parsed(Null, t[4..]))
    else if TRUE <= t then Some(Parsed(Bool(true), t[4..]))
    else if FALSE <= t then Some(Parsed(Bool(false), t[5..]))
    else if t[0] == QUOTE then
      var s := ReadString(t[1..]);
      if s.None? then None else Some(Parsed(Str(s.value.value), s.value.rest))
    else if t[0] == LBRACKET then
      var u := SkipSpace(t[1..]);
      if depth == 0 then None
      else if u != [] && u[0] == RBRACKET then Some(Parsed(Arr([]), u[1..]))
      else
        var items := ReadItems(u, depth - 1);
        if items.None? then None else Some(Parsed(Arr(items.value.value), items.value.rest))
    else if t[0] == LBRACE then
      var u := SkipSpace(t[1..]);
      if depth == 0 then None
      else if u != [] && u[0] == RBRACE then Some(Parsed(Obj(map[]), u[1..]))
      else
        var members := ReadMembers(u, depth - 1);
        if members.None? then None else Some(Parsed(Obj(members.value.value), members.value.rest))
    else ReadNumber(t)
  }

  function ReadItems(t: Text, depth: nat): (r: Option<Parsed<seq<Json>>>)
    ensures r.Some? ==> |r.value.rest| < |t|
    decreases |t|, 2
  {
    var first := ReadValue(t, depth);
    if first.None? then None
    else
      var u := SkipSpace(first.value.rest);
      if u == [] then None
      else if u[0] == RBRACKET then Some(Parsed([first.value.value], u[1..]))
      else if u[0] == COMMA then
        var more := ReadItems(u[1..], depth);
        if more.None? then None
        else Some(Parsed([first.value.value] + more.value.value, more.value.rest))
      else None
  }

  function ReadMembers(text: Text, depth: nat): (r: Option<Parsed<map<Text, Json>>>)
    ensures r.Some? ==> |r.value.rest| < |text|
    decreases |text|, 2
  {
    var t := SkipSpace(text);
    if t == [] || t[0] != QUOTE then None
    else
      var key := ReadString(t[1..]);
      if key.None? then None
      else
        var c := SkipSpace(key.value.rest);
        if c == [] || c[0] != COLON then None
        else
          var first := ReadValue(c[1..], depth);
          if first.None? then None
          else
            var here := map[key.value.value := first.value.value];
            var u := SkipSpace(first.value.rest);
            if u == [] then None
            else if u[0] == RBRACE then Some(Parsed(here, u[1..]))
            else if u[0] == COMMA then
              var more := ReadMembers(u[1..], depth);
              if more.None? then None
              else Some(Parsed(here + more.value.value, more.value.rest))
            else None
  }

  /** A whole text: one value and nothing but white space around it. */
  function Read(t: Text, depth: nat): Option<Json> {
    var r := ReadValue(t, depth);
    if r.Some? && SkipSpace(r.value.rest) == [] then Some(r.value.value) else None
  }

  // ---------------------------------------------------------------- reading what was printed

  lemma Regroup(a: Text, b: Text, c: Text, d: Text)
    ensures a + b + c + d == a + (b + c + d)
  {
  }

  lemma Join(a: Text, b: Text, c: Text)
    ensures a + b + c == a + (b + c)
  {
  }

  lemma Drop(a: Text, b: Text)
    ensures (a + b)[|a|..] == b && (a + b)[..|a|] == a
    ensures a != [] ==> (a + b)[0] == a[0]
  {
  }

  lemma HexDecodes(n: int)
    requires 0 <= n < 16
    ensures HexValue(HexUnit(n)) == Some(n)
  {
  }

  lemma Hex4Decodes(u: Unit)
    ensures var h := Hex4(u); Hex4Value(h[2], h[3], h[4], h[5]) == Some(u)
  {
    HexDecodes(u / 16 / 16 / 16);
    HexDecodes(u / 16 / 16 % 16);
    HexDecodes(u / 16 % 16);
    HexDecodes(u % 16);
  }

  lemma ReadUnitEscaped(u: Unit, tail: Text)
    ensures var t := EscapeUnit(u) + tail;
            t[0] != QUOTE && ReadUnit(t) == Some(Parsed(u, tail))
  {
    var e := EscapeUnit(u);
    Drop(e, tail);
    if e == Hex4(u) {
      Hex4Decodes(u);
    } else if |e| == 2 {
      assert (e + tail)[1] == e[1];
    }
  }

  /** A string whose first unit reads as `u` reads as `u` followed by what the rest reads as. */
  lemma ReadStringStep(t: Text, u: Unit, tail: Text, s: Text, rest: Text)
    requires t != [] && t[0] != QUOTE && ReadUnit(t) == Some(Parsed(u, tail))
    requires ReadString(tail) == Some(Parsed(s, rest))
    ensures ReadString(t) == Some(Parsed([u] + s, rest))
  {
  }

  lemma ReadRawUnit(u: Unit, tail: Text)
    requires IsHighSurrogate(u) || IsLowSurrogate(u)
    ensures ReadUnit([u] + tail) == Some(Parsed(u, tail))
  {
  }

  lemma ReadPair(s: Text, e: Text, rest: Text)
    requires |s| > 1 && IsHighSurrogate(s[0]) && IsLowSurrogate(s[1])
    requires ReadString(e) == Some(Parsed(s[2..], rest))
    ensures ReadString(s[..2] + e) == Some(Parsed(s, rest))
  {
    ReadRawUnit(s[1], e);
    ReadStringStep([s[1]] + e, s[1], e, s[2..], rest);
    ReadRawUnit(s[0], [s[1]] + e);
    ReadStringStep([s[0]] + ([s[1]] + e), s[0], [s[1]] + e, [s[1]] + s[2..], rest);
    assert s[..2] + e == [s[0]] + ([s[1]] + e);
    assert s == [s[0]] + ([s[1]] + s[2..]);
  }

  lemma {:induction false} ReadEscaped(s: Text, rest: Text)
    ensures ReadString(Escape(s) + [QUOTE] + rest) == Some(Parsed(s, rest))
  {
    if s == [] {
      assert Escape(s) + [QUOTE] + rest == [QUOTE] + rest;
      Drop([QUOTE], rest);
    } else if |s| > 1 && IsHighSurrogate(s[0]) && IsLowSurrogate(s[1]) {
      ReadEscaped(s[2..], rest);
      Regroup(s[..2], Escape(s[2..]), [QUOTE], rest);
      ReadPair(s, Escape(s[2..]) + [QUOTE] + rest, rest);
    } else {
      ReadEscaped(s[1..], rest);
      var tail := Escape(s[1..]) + [QUOTE] + rest;
      Regroup(EscapeUnit(s[0]), Escape(s[1..]), [QUOTE], rest);
      ReadUnitEscaped(s[0], tail);
      ReadStringStep(EscapeUnit(s[0]) + tail, s[0], tail, s[1..], rest);
      assert s == [s[0]] + s[1..];
    }
  }

  lemma {:induction false} DigitsToken(n: nat)
    ensures IsNatToken(Digits(n)) && NatValue(Digits(n)) == n
    ensures n > 0 ==> Digits(n)[0] != 0x30
  {
    if n >= 10 {
      DigitsToken(n / 10);
      var t := Digits(n);
      assert t[..|t| - 1] == Digits(n / 10);
    }
  }

  lemma IntToken(n: int)
    ensures IsIntToken(PrintInt(n)) && ReadToken(PrintInt(n)) == Some(Int(n))
  {
    if n < 0 {
      DigitsToken(-n);
      assert PrintInt(n)[1..] == Digits(-n);
    } else {
      DigitsToken(n);
    }
  }

  /** What may follow a value: the end of the text or the punctuation of a container. */
  predicate Delimited(rest: Text) {
    rest == [] || rest[0] in {COMMA, RBRACKET, RBRACE}
  }

  lemma {:induction false} NumberRunStops(token: Text, rest: Text)
    requires Delimited(rest) && forall i :: 0 <= i < |token| ==> IsNumberUnit(token[i])
    ensures NumberRun(token + rest) == |token|
  {
    if token == [] {
      assert token + rest == rest;
    } else {
      NumberRunStops(token[1..], rest);
      assert (token + rest)[1..] == token[1..] + rest;
    }
  }

  lemma NumberTokenShape(n: Number)
    requires n.Float? ==> IsFloatToken(n.token)
    ensures var t := PrintNumber(n);
            && t != [] && (IsDigit(t[0]) || t[0] == MINUS)
            && (forall i :: 0 <= i < |t| ==> IsNumberUnit(t[i]))
            && ReadToken(t) == Some(n)
  {
    if n.Int? {
      IntToken(n.value);
      var t := PrintInt(n.value);
      if t[0] == MINUS { assert t == [MINUS] + t[1..]; }
    }
  }

  lemma ReadPrintedNumber(n: Number, depth: nat, rest: Text)
    requires (n.Float? ==> IsFloatToken(n.token)) && Delimited(rest)
    ensures ReadValue(PrintNumber(n) + rest, depth) == Some(Parsed(Num(n), rest))
  {
    NumberTokenShape(n);
    var token := PrintNumber(n);
    var t := token + rest;
    NumberRunStops(token, rest);
    assert t[..|token|] == token && t[|token|..] == rest;
    assert t[0] == token[0];
    assert SkipSpace(t) == t;
    assert !(NULL <= t) && !(TRUE <= t) && !(FALSE <= t);
  }

  // What ReadValue does once it has seen the first unit of each form.

  lemma ReadQuoted(body: Text, depth: nat, s: Text, rest: Text)
    requires ReadString(body) == Some(Parsed(s, rest))
    ensures ReadValue([QUOTE] + body, depth) == Some(Parsed(Str(s), rest))
  {
  }

  lemma ReadWord(word: Text, rest: Text, depth: nat)
    requires word in {NULL, TRUE, FALSE}
    ensures ReadValue(word + rest, depth)
            == Some(Parsed(if word == NULL then Null else Bool(word == TRUE), rest))
  {
  }

  lemma ReadBracketed(body: Text, depth: nat, items: seq<Json>, rest: Text)
    requires depth > 0 && body != [] && !IsSpace(body[0])
    requires if body[0] == RBRACKET then items == [] && rest == body[1..]
             else ReadItems(body, depth - 1) == Some(Parsed(items, rest))
    ensures ReadValue([LBRACKET] + body, depth) == Some(Parsed(Arr(items), rest))
  {
  }

  lemma ReadBraced(body: Text, depth: nat, members: map<Text, Json>, rest: Text)
    requires depth > 0 && body != [] && !IsSpace(body[0])
    requires if body[0] == RBRACE then members == map[] && rest == body[1..]
             else ReadMembers(body, depth - 1) == Some(Parsed(members, rest))
    ensures ReadValue([LBRACE] + body, depth) == Some(Parsed(Obj(members), rest))
  {
  }

  lemma ReadLastItem(t: Text, v: Json, depth: nat, rest: Text)
    requires ReadValue(t, depth) == Some(Parsed(v, [RBRACKET] + rest))
    ensures ReadItems(t, depth) == Some(Parsed([v], rest))
  {
  }

  lemma ReadNextItem(t: Text, v: Json, depth: nat, tail: Text, items: seq<Json>, rest: Text)
    requires ReadValue(t, depth) == Some(Parsed(v, [COMMA] + tail))
    requires |tail| < |t| && ReadItems(tail, depth) == Some(Parsed(items, rest))
    ensures ReadItems(t, depth) == Some(Parsed([v] + items, rest))
  {
  }

  lemma ReadMember(body: Text, key: Text, t: Text, v: Json, depth: nat, after: Text,
                   m: map<Text, Json>, rest: Text)
    requires ReadString(body) == Some(Parsed(key, [COLON] + t))
    requires ReadValue(t, depth) == Some(Parsed(v, after))
    requires after != [] && (after[0] == RBRACE || after[0] == COMMA)
    requires if after[0] == RBRACE then m == map[] && rest == after[1..]
             else ReadMembers(after[1..], depth) == Some(Parsed(m, rest))
    ensures ReadMembers([QUOTE] + body, depth) == Some(Parsed(map[key := v] + m, rest))
  {
    Drop([QUOTE], body);
    Drop([COLON], t);
    assert SkipSpace([QUOTE] + body) == [QUOTE] + body;
    assert SkipSpace([COLON] + t) == [COLON] + t;
    assert SkipSpace(after) == after;
    assert map[key := v] + map[] == map[key := v];
  }

  lemma {:induction false} ReadPrinted(v: Json, depth: nat, rest: Text)
    requires WellFormed(v) && DepthAtMost(v, depth) && Delimited(rest)
    ensures ReadValue(Print(v) + rest, depth) == Some(Parsed(v, rest))
    decreases v
  {
    match v {
      case Null => ReadWord(NULL, rest, depth);
      case Bool(flag) => ReadWord(if flag then TRUE else FALSE, rest, depth);
      case Num(number) => ReadPrintedNumber(number, depth, rest);
      case Str(text) =>
        ReadEscaped(text, rest);
        Regroup([QUOTE], Escape(text), [QUOTE], rest);
        ReadQuoted(Escape(text) + [QUOTE] + rest, depth, text, rest);
      case Arr(items) =>
        Regroup([LBRACKET], PrintItems(items), [RBRACKET], rest);
        ReadPrintedArray(items, depth, rest);
      case Obj(members) =>
        var keys := SortedKeys(members.Keys);
        Regroup([LBRACE], PrintMembers(v, keys), [RBRACE], rest);
        ReadPrintedObject(v, keys, depth, rest);
    }
  }

  lemma {:induction false} ReadPrintedArray(items: seq<Json>, depth: nat, rest: Text)
    requires forall i :: 0 <= i < |items| ==> WellFormed(items[i])
    requires depth > 0 && forall i :: 0 <= i < |items| ==> DepthAtMost(items[i], depth - 1)
    requires Delimited(rest)
    ensures ReadValue([LBRACKET] + (PrintItems(items) + [RBRACKET] + rest), depth)
            == Some(Parsed(Arr(items), rest))
    decreases items, 1
  {
    var body := PrintItems(items) + [RBRACKET] + rest;
    if items == [] {
      assert body == [RBRACKET] + rest;
    } else {
      ReadPrintedItems(items, depth - 1, rest);
      PrintedStart(items[0]);
      assert body[0] == Print(items[0])[0];
    }
    ReadBracketed(body, depth, items, rest);
  }

  /** Printed values start with something that is neither white space nor a closing bracket. */
  lemma PrintedStart(v: Json)
    requires WellFormed(v)
    ensures Print(v) != [] && !IsSpace(Print(v)[0]) && Print(v)[0] != RBRACKET
  {
    match v
    case Num(number) => NumberTokenShape(number);
    case Arr(items) => assert Print(v)[0] == LBRACKET;
    case Obj(members) => assert Print(v)[0] == LBRACE;
    case Str(text) => assert Print(v)[0] == QUOTE;
    case _ =>
  }

  lemma {:induction false} ReadPrintedItems(items: seq<Json>, depth: nat, rest: Text)
    requires items != [] && Delimited(rest)
    requires forall i :: 0 <= i < |items| ==> WellFormed(items[i]) && DepthAtMost(items[i], depth)
    ensures ReadItems(PrintItems(items) + [RBRACKET] + rest, depth) == Some(Parsed(items, rest))
    decreases items, 0
  {
    if |items| == 1 {
      ReadPrinted(items[0], depth, [RBRACKET] + rest);
      LastItem(items, depth, rest);
    } else {
      ReadPrinted(items[0], depth, [COMMA] + (PrintItems(items[1..]) + [RBRACKET] + rest));
      ReadPrintedItems(items[1..], depth, rest);
      NextItem(items, depth, rest);
    }
  }

  lemma LastItem(items: seq<Json>, depth: nat, rest: Text)
    requires |items| == 1
    requires ReadValue(Print(items[0]) + ([RBRACKET] + rest), depth) == Some(Parsed(items[0], [RBRACKET] + rest))
    ensures ReadItems(PrintItems(items) + [RBRACKET] + rest, depth) == Some(Parsed(items, rest))
  {
    var first := Print(items[0]);
    Join(first, [RBRACKET], rest);
    ReadLastItem(first + [RBRACKET] + rest, items[0], depth, rest);
    assert items == [items[0]];
  }

  lemma NextItem(items: seq<Json>, depth: nat, rest: Text)
    requires |items| > 1
    requires var tail := PrintItems(items[1..]) + [RBRACKET] + rest;
             && ReadValue(Print(items[0]) + ([COMMA] + tail), depth) == Some(Parsed(items[0], [COMMA] + tail))
             && ReadItems(tail, depth) == Some(Parsed(items[1..], rest))
    ensures ReadItems(PrintItems(items) + [RBRACKET] + rest, depth) == Some(Parsed(items, rest))
  {
    var first, more := Print(items[0]), PrintItems(items[1..]);
    var tail := more + [RBRACKET] + rest;
    Regroup(first + [COMMA], more, [RBRACKET], rest);
    Join(first, [COMMA], tail);
    ReadNextItem(first + ([COMMA] + tail), items[0], depth, tail, items[1..], rest);
    assert items == [items[0]] + items[1..];
  }

  lemma {:induction false} ReadPrintedObject(v: Json, keys: seq<Text>, depth: nat, rest: Text)
    requires v.Obj? && keys == SortedKeys(v.members.Keys) && Delimited(rest) && depth > 0
    requires forall k :: k in v.members ==> WellFormed(v.members[k]) && DepthAtMost(v.members[k], depth - 1)
    ensures ReadValue([LBRACE] + (PrintMembers(v, keys) + [RBRACE] + rest), depth) == Some(Parsed(v, rest))
    decreases v, |keys| + 1
  {
    var body := PrintMembers(v, keys) + [RBRACE] + rest;
    MembersEmpty(keys);
    if keys == [] {
      assert body == [RBRACE] + rest;
      assert v.members == map[];
    } else {
      ReadPrintedMembers(v, keys, depth - 1, rest);
      PrintMembersHead(v, keys);
      PickedAll(v, keys);
    }
    ReadBraced(body, depth, v.members, rest);
  }

  /** The members of an object under some of its keys. */
  ghost function Picked(v: Json, keys: seq<Text>): map<Text, Json>
    requires v.Obj? && forall k :: k in keys ==> k in v.members
  {
    map k | k in keys :: v.members[k]
  }

  lemma PickedAll(v: Json, keys: seq<Text>)
    requires v.Obj? && Members(keys) == v.members.Keys && forall k :: k in keys ==> k in v.members
    ensures Picked(v, keys) == v.members
  {
  }

  lemma PickedStep(v: Json, keys: seq<Text>)
    requires v.Obj? && (forall k :: k in keys ==> k in v.members) && keys != [] && Ascending(keys)
    ensures Ascending(keys[1..])
    ensures Picked(v, keys) == map[keys[0] := v.members[keys[0]]] + Picked(v, keys[1..])
    ensures |keys| == 1 ==> Picked(v, keys[1..]) == map[]
  {
  }

  lemma PrintMembersHead(v: Json, keys: seq<Text>)
    requires v.Obj? && (forall k :: k in keys ==> k in v.members) && keys != []
    ensures PrintMembers(v, keys) != [] && PrintMembers(v, keys)[0] == QUOTE
  {
  }

  lemma {:induction false} ReadPrintedMembers(v: Json, keys: seq<Text>, depth: nat, rest: Text)
    requires v.Obj? && (forall k :: k in keys ==> k in v.members) && keys != [] && Delimited(rest)
    requires Ascending(keys)
    requires forall k :: k in v.members ==> WellFormed(v.members[k]) && DepthAtMost(v.members[k], depth)
    ensures ReadMembers(PrintMembers(v, keys) + [RBRACE] + rest, depth)
            == Some(Parsed(Picked(v, keys), rest))
    decreases v, |keys|
  {
    var key, value := keys[0], v.members[keys[0]];
    var more := if |keys| == 1 then [] else PrintMembers(v, keys[1..]);
    var after := if |keys| == 1 then [RBRACE] + rest else [COMMA] + (more + [RBRACE] + rest);
    MembersText(v, keys, more, rest, after);
    ReadEscaped(key, [COLON] + (Print(value) + after));
    ReadPrinted(value, depth, after);
    var m := Picked(v, keys[1..]);
    PickedStep(v, keys);
    if |keys| == 1 {
      Drop([RBRACE], rest);
    } else {
      ReadPrintedMembers(v, keys[1..], depth, rest);
      Drop([COMMA], more + [RBRACE] + rest);
    }
    ReadMember(Escape(key) + [QUOTE] + ([COLON] + (Print(value) + after)), key,
               Print(value) + after, value, depth, after, m, rest);
  }

  lemma MembersText(v: Json, keys: seq<Text>, more: Text, rest: Text, after: Text)
    requires v.Obj? && (forall k :: k in keys ==> k in v.members) && keys != []
    requires if |keys| == 1 then more == [] && after == [RBRACE] + rest
             else more == PrintMembers(v, keys[1..]) && after == [COMMA] + (more + [RBRACE] + rest)
    ensures PrintMembers(v, keys) + [RBRACE] + rest
            == [QUOTE] + (Escape(keys[0]) + [QUOTE] + ([COLON] + (Print(v.members[keys[0]]) + after)))
  {
    var e, p := Escape(keys[0]), Print(v.members[keys[0]]);
    var first := [QUOTE] + e + [QUOTE] + [COLON] + p;
    if |keys| == 1 {
      FlattenLast(e, p, rest);
    } else {
      FlattenMore(e, p, more, rest);
    }
  }

  lemma FlattenLast(e: Text, p: Text, rest: Text)
    ensures [QUOTE] + e + [QUOTE] + [COLON] + p + [RBRACE] + rest
            == [QUOTE] + (e + [QUOTE] + ([COLON] + (p + ([RBRACE] + rest))))
  {
  }

  lemma FlattenMore(e: Text, p: Text, more: Text, rest: Text)
    ensures [QUOTE] + e + [QUOTE] + [COLON] + p + [COMMA] + more + [RBRACE] + rest
            == [QUOTE] + (e + [QUOTE] + ([COLON] + (p + ([COMMA] + (more + [RBRACE] + rest)))))
  {
  }

  /** Reading a canonical text gives back exactly the value it was printed from. */
  lemma ReadPrint(v: Json, depth: nat)
    requires WellFormed(v) && DepthAtMost(v, depth)
    ensures Read(Print(v), depth) == Some(v)
  {
    ReadPrinted(v, depth, []);
    assert Print(v) + [] == Print(v);
  }

  /** Canonical text decodes uniquely: equal texts come only from equal values. */
  lemma PrintInjective(a: Json, b: Json)
    requires WellFormed(a) && WellFormed(b)
    ensures Print(a) == Print(b) <==> a == b
  {
    if Print(a) == Print(b) {
      var d := DepthExists(a);
      var e := DepthExists(b);
      DepthMonotone(a, d, d + e);
      DepthMonotone(b, e, d + e);
      ReadPrint(a, d + e);
      ReadPrint(b, d + e);
    }
  }
}
