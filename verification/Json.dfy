/**
 JSON values and the one canonical text both languages print for them: no white space,
 object keys in ascending code-unit order, strings escaped as in section 7 of RFC 8259 the
 way `JSON.stringify` and `serde_json` do it (short escapes, lowercase `\u00xx` for other
 controls, `\udxxx` for an unpaired surrogate), numbers as decimal tokens.
 */
module Json {
  import opened Texts

  /**
   A number is an integer, or any other number identified with its decimal token. On the
   JavaScript side the token is what `Number::toString` prints for a finite number that is
   not an integer below 1e21; on the Rust side it is a token that serde reads as `f64`
   (a fraction, an exponent, or `-0`).
   */
  datatype Number = Int(value: int) | Float(token: Text)

  datatype Json =
    | Null
    | Bool(flag: bool)
    | Num(number: Number)
    | Str(text: Text)
    | Arr(items: seq<Json>)
    | Obj(members: map<Text, Json>)

  const QUOTE: Unit := 0x22
  const COMMA: Unit := 0x2C
  const MINUS: Unit := 0x2D
  const POINT: Unit := 0x2E
  const COLON: Unit := 0x3A
  const LBRACKET: Unit := 0x5B
  const BACKSLASH: Unit := 0x5C
  const RBRACKET: Unit := 0x5D
  const LBRACE: Unit := 0x7B
  const RBRACE: Unit := 0x7D

  const NULL: Text := [0x6E, 0x75, 0x6C, 0x6C]
  const TRUE: Text := [0x74, 0x72, 0x75, 0x65]
  const FALSE: Text := [0x66, 0x61, 0x6C, 0x73, 0x65]

  // ---------------------------------------------------------------- numbers

  function Digits(n: nat): Text {
    if n < 10 then [0x30 + n] else Digits(n / 10) + [0x30 + n % 10]
  }

  function PrintInt(n: int): Text {
    if n < 0 then [MINUS] + Digits(-n) else Digits(n)
  }

  function PrintNumber(n: Number): Text {
    match n
    case Int(value) => PrintInt(value)
    case Float(token) => token
  }

  predicate AllDigits(t: Text) { forall i :: 0 <= i < |t| ==> IsDigit(t[i]) }

  predicate IsNatToken(t: Text) {
    t != [] && AllDigits(t) && (|t| == 1 || t[0] != 0x30)
  }

  predicate IsIntToken(t: Text) {
    || IsNatToken(t)
    || (t != [] && t[0] == MINUS && IsNatToken(t[1..]) && t[1..] != [0x30])
  }

  predicate IsNumberUnit(u: Unit) {
    IsDigit(u) || u in {0x2B, MINUS, POINT, 0x45, 0x65}
  }

  function DigitRun(t: Text): (n: nat)
    ensures n <= |t|
    ensures n > 0 ==> IsDigit(t[0])
  {
    if t == [] || !IsDigit(t[0]) then 0 else 1 + DigitRun(t[1..])
  }

  predicate ExponentPart(t: Text) {
    t == [] ||
    (t[0] in {0x45, 0x65} &&
     var d := if |t| > 1 && t[1] in {0x2B, MINUS} then t[2..] else t[1..];
     d != [] && AllDigits(d))
  }

  predicate FractionPart(t: Text) {
    if t != [] && t[0] == POINT then
      var n := DigitRun(t[1..]);
      n > 0 && ExponentPart(t[1 + n..])
    else ExponentPart(t)
  }

  /** The number production of section 6 of RFC 8259. */
  predicate IsNumberToken(t: Text) {
    var body := if t != [] && t[0] == MINUS then t[1..] else t;
    var n := DigitRun(body);
    n > 0 && (body[0] == 0x30 ==> n == 1) && FractionPart(body[n..])
  }

  /** Tokens of numbers that are not plain integers. */
  predicate IsFloatToken(t: Text) {
    && IsNumberToken(t) && !IsIntToken(t)
    && (forall i :: 0 <= i < |t| ==> IsNumberUnit(t[i]))
  }

  // ---------------------------------------------------------------- strings

  function HexUnit(n: int): Unit
    requires 0 <= n < 16
  {
    if n < 10 then 0x30 + n else 0x61 + (n - 10)
  }

  function Hex4(u: Unit): Text {
    [BACKSLASH, 0x75, HexUnit(u / 16 / 16 / 16), HexUnit(u / 16 / 16 % 16), HexUnit(u / 16 % 16), HexUnit(u % 16)]
  }

  /** One code unit that is not half of a surrogate pair. */
  function EscapeUnit(u: Unit): Text {
    if u == QUOTE || u == BACKSLASH then [BACKSLASH, u]
    else if u == 0x08 then [BACKSLASH, 0x62]
    else if u == 0x0C then [BACKSLASH, 0x66]
    else if u == 0x0A then [BACKSLASH, 0x6E]
    else if u == 0x0D then [BACKSLASH, 0x72]
    else if u == 0x09 then [BACKSLASH, 0x74]
    else if u < 0x20 || IsHighSurrogate(u) || IsLowSurrogate(u) then Hex4(u)
    else [u]
  }

  function Escape(s: Text): Text {
    if s == [] then []
    else if |s| > 1 && IsHighSurrogate(s[0]) && IsLowSurrogate(s[1]) then s[..2] + Escape(s[2..])
    else EscapeUnit(s[0]) + Escape(s[1..])
  }

  function PrintString(s: Text): Text { [QUOTE] + Escape(s) + [QUOTE] }

  // ---------------------------------------------------------------- values

  ghost function Print(v: Json): Text
    decreases v
  {
    match v
    case Null => NULL
    case Bool(flag) => if flag then TRUE else FALSE
    case Num(number) => PrintNumber(number)
    case Str(text) => PrintString(text)
    case Arr(items) => [LBRACKET] + PrintItems(items) + [RBRACKET]
    case Obj(members) => [LBRACE] + PrintMembers(v, SortedKeys(members.Keys)) + [RBRACE]
  }

  ghost function PrintItems(items: seq<Json>): Text
    decreases items
  {
    if items == [] then []
    else if |items| == 1 then Print(items[0])
    else Print(items[0]) + [COMMA] + PrintItems(items[1..])
  }

  ghost function PrintMembers(v: Json, keys: seq<Text>): Text
    requires v.Obj? && forall k :: k in keys ==> k in v.members
    decreases v, |keys|
  {
    if keys == [] then []
    else
      var first := PrintString(keys[0]) + [COLON] + Print(v.members[keys[0]]);
      if |keys| == 1 then first else first + [COMMA] + PrintMembers(v, keys[1..])
  }

  /** Every non-integer number carries a token of the number grammar. */
  ghost predicate WellFormed(v: Json)
    decreases v
  {
    match v
    case Num(Float(token)) => IsFloatToken(token)
    case Arr(items) => forall i :: 0 <= i < |items| ==> WellFormed(items[i])
    case Obj(members) => forall k :: k in members ==> WellFormed(members[k])
    case _ => true
  }

  /** At most `depth` containers are open at once anywhere in the value. */
  ghost predicate DepthAtMost(v: Json, depth: nat)
    decreases depth
  {
    match v
    case Arr(items) => depth > 0 && forall i :: 0 <= i < |items| ==> DepthAtMost(items[i], depth - 1)
    case Obj(members) => depth > 0 && forall k :: k in members ==> DepthAtMost(members[k], depth - 1)
    case _ => true
  }

  lemma {:induction false} DepthMonotone(v: Json, d: nat, e: nat)
    requires d <= e && DepthAtMost(v, d)
    ensures DepthAtMost(v, e)
    decreases d
  {
    match v
    case Arr(items) =>
      forall i | 0 <= i < |items| ensures DepthAtMost(items[i], e - 1) {
        DepthMonotone(items[i], d - 1, e - 1);
      }
    case Obj(members) =>
      forall k | k in members ensures DepthAtMost(members[k], e - 1) {
        DepthMonotone(members[k], d - 1, e - 1);
      }
    case _ =>
  }

  /** Every value is finite: some depth bounds it. */
  lemma {:induction false} DepthExists(v: Json) returns (d: nat)
    ensures DepthAtMost(v, d)
    decreases v
  {
    d := 0;
    match v {
      case Arr(items) =>
        d := DepthOfItems(items);
        d := d + 1;
      case Obj(members) =>
        d := DepthOfMembers(v, members.Keys);
        d := d + 1;
      case _ =>
    }
  }

  lemma {:induction false} DepthOfItems(items: seq<Json>) returns (d: nat)
    ensures forall i :: 0 <= i < |items| ==> DepthAtMost(items[i], d)
    decreases items
  {
    d := 0;
    if items != [] {
      var a := DepthExists(items[0]);
      var b := DepthOfItems(items[1..]);
      d := a + b;
      forall i | 0 <= i < |items| ensures DepthAtMost(items[i], d) {
        if i == 0 { DepthMonotone(items[0], a, d); } else { DepthMonotone(items[1..][i - 1], b, d); }
      }
    }
  }

  lemma {:induction false} DepthOfMembers(v: Json, keys: set<Text>) returns (d: nat)
    requires v.Obj? && keys <= v.members.Keys
    ensures forall k :: k in keys ==> DepthAtMost(v.members[k], d)
    decreases v, keys
  {
    d := 0;
    if keys != {} {
      var k :| k in keys;
      var a := DepthExists(v.members[k]);
      var b := DepthOfMembers(v, keys - {k});
      d := a + b;
      forall j | j in keys ensures DepthAtMost(v.members[j], d) {
        if j == k { DepthMonotone(v.members[j], a, d); } else { DepthMonotone(v.members[j], b, d); }
      }
    }
  }
}
