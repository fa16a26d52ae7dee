/**
 The body of a packet submission (`inspectBoundedRequest`): after the walk, the body must be
 an object that wraps one packet, and its JSON text must fit.
 */
module IntakeBody {
  import opened Texts
  import opened Bytes
  import opened Inspector
  import J = Json
  import R = JsonReader

  datatype Bounded = Fits(packet: Value) | TooLarge | Malformed

  const MAX_REQUEST_BYTES: nat := 65_536
  const PACKET_KEY: Text := Ascii("packet")

  // ---------------------------------------------------------------- JSON text and value

  /** `JSON.stringify` down to a number of levels; what JSON has no place for becomes `null`. */
  function Serialize(h: Heap, v: Value, levels: nat): Text
    decreases levels, 0
  {
    match v
    case Null => J.NULL
    case Boolean(flag) => if flag then J.TRUE else J.FALSE
    case Number(_, number) => J.PrintNumber(number)
    case String(text) => J.PrintString(text)
    case Other => J.NULL
    case Ref(r) =>
      if r !in h || levels == 0 then J.NULL
      else if h[r].Array? then [J.LBRACKET] + SerializeAll(h, Entries(h[r]), false, levels - 1) + [J.RBRACKET]
      else [J.LBRACE] + SerializeAll(h, Entries(h[r]), true, levels - 1) + [J.RBRACE]
  }

  function Labelled(e: Entry, keyed: bool, text: Text): Text {
    if keyed then J.PrintString(e.key) + [J.COLON] + text else text
  }

  function SerializeAll(h: Heap, es: seq<Entry>, keyed: bool, levels: nat): Text
    decreases levels, |es|
  {
    if es == [] then []
    else
      var first := Labelled(es[0], keyed, Serialize(h, es[0].value, levels));
      if |es| == 1 then first else first + [J.COMMA] + SerializeAll(h, es[1..], keyed, levels)
  }

  /** The JSON value of the same text. */
  function ToJson(h: Heap, v: Value, levels: nat): J.Json
    decreases levels, 0
  {
    match v
    case Null => J.Null
    case Boolean(flag) => J.Bool(flag)
    case Number(_, number) => J.Num(number)
    case String(text) => J.Str(text)
    case Other => J.Null
    case Ref(r) =>
      if r !in h || levels == 0 then J.Null
      else if h[r].Array? then J.Arr(ItemsOf(h, Entries(h[r]), levels - 1))
      else J.Obj(MembersOf(h, Entries(h[r]), levels - 1))
  }

  function ItemsOf(h: Heap, es: seq<Entry>, levels: nat): seq<J.Json>
    decreases levels, |es|
  {
    if es == [] then [] else [ToJson(h, es[0].value, levels)] + ItemsOf(h, es[1..], levels)
  }

  function MembersOf(h: Heap, es: seq<Entry>, levels: nat): map<Text, J.Json>
    decreases levels, |es|
  {
    if es == [] then map[] else map[es[0].key := ToJson(h, es[0].value, levels)] + MembersOf(h, es[1..], levels)
  }

  /** The JSON text of an unfolding, with no bound on levels. */
  function Stringify(h: Heap, t: Tree): Text
    decreases t
  {
    match t.value
    case Null => J.NULL
    case Boolean(flag) => if flag then J.TRUE else J.FALSE
    case Number(_, number) => J.PrintNumber(number)
    case String(text) => J.PrintString(text)
    case Other => J.NULL
    case Ref(r) =>
      if r !in h then J.NULL
      else if h[r].Array? then [J.LBRACKET] + StringifyAll(h, Entries(h[r]), t.below, false) + [J.RBRACKET]
      else [J.LBRACE] + StringifyAll(h, Entries(h[r]), t.below, true) + [J.RBRACE]
  }

  function StringifyAll(h: Heap, es: seq<Entry>, ts: seq<Tree>, keyed: bool): Text
    decreases ts
  {
    if es == [] || ts == [] then []
    else
      var first := Labelled(es[0], keyed, Stringify(h, ts[0]));
      if |es| == 1 then first else first + [J.COMMA] + StringifyAll(h, es[1..], ts[1..], keyed)
  }

  /** Enough levels give the whole text. */
  lemma {:induction false} SerializeWhole(h: Heap, t: Tree, levels: nat)
    requires Unfolds(h, t) && levels > 0 && HeightAtMost(t, levels - 1)
    ensures Serialize(h, t.value, levels) == Stringify(h, t)
    decreases t
  {
    if t.value.Ref? {
      SerializeWholeAll(h, Entries(h[t.value.ref]), t.below, !h[t.value.ref].Array?, levels - 1);
    }
  }

  lemma {:induction false} SerializeWholeAll(h: Heap, es: seq<Entry>, ts: seq<Tree>, keyed: bool, levels: nat)
    requires UnfoldsAll(h, es, ts) && (ts != [] ==> levels > 0 && HeightsAtMost(ts, levels - 1))
    ensures SerializeAll(h, es, keyed, levels) == StringifyAll(h, es, ts, keyed)
    decreases ts
  {
    if ts != [] {
      SerializeWhole(h, ts[0], levels);
      SerializeWholeAll(h, es[1..], ts[1..], keyed, levels);
    }
  }

  // ---------------------------------------------------------------- the text reads as the value

  /** Serialized values start with something that is neither white space nor a closing bracket. */
  lemma SerializedStart(h: Heap, v: Value, levels: nat)
    ensures var t := Serialize(h, v, levels); t != [] && !R.IsSpace(t[0]) && t[0] != J.RBRACKET
  {
    match v
    case Number(_, number) => R.NumberTokenShape(number);
    case String(text) => assert Serialize(h, v, levels)[0] == J.QUOTE;
    case Ref(r) =>
      if r in h && levels > 0 {
        assert Serialize(h, v, levels)[0] == if h[r].Array? then J.LBRACKET else J.LBRACE;
      }
    case _ =>
  }

  lemma AllStart(h: Heap, es: seq<Entry>, keyed: bool, levels: nat)
    requires es != []
    ensures var t := SerializeAll(h, es, keyed, levels);
            t != [] && !R.IsSpace(t[0]) && t[0] != J.RBRACKET && (keyed ==> t[0] == J.QUOTE)
  {
    SerializedStart(h, es[0].value, levels);
    var first := Labelled(es[0], keyed, Serialize(h, es[0].value, levels));
    assert first != [] && (keyed ==> first[0] == J.QUOTE);
  }

  /** Reading the text of any value, cut off at any level, gives the JSON value cut off there. */
  lemma {:induction false} ReadSerialized(h: Heap, v: Value, levels: nat, rest: Text)
    requires R.Delimited(rest)
    ensures R.ReadValue(Serialize(h, v, levels) + rest, levels) == Some(R.Parsed(ToJson(h, v, levels), rest))
    decreases levels, 0
  {
    match v
    case Null => R.ReadWord(J.NULL, rest, levels);
    case Boolean(flag) => R.ReadWord(if flag then J.TRUE else J.FALSE, rest, levels);
    case Number(_, number) => R.ReadPrintedNumber(number, levels, rest);
    case String(text) =>
      R.ReadEscaped(text, rest);
      R.Regroup([J.QUOTE], J.Escape(text), [J.QUOTE], rest);
      R.ReadQuoted(J.Escape(text) + [J.QUOTE] + rest, levels, text, rest);
    case Other => R.ReadWord(J.NULL, rest, levels);
    case Ref(r) =>
      if r !in h || levels == 0 { R.ReadWord(J.NULL, rest, levels); }
      else if h[r].Array? { ReadArray(h, Entries(h[r]), levels, rest); }
      else {
        if Entries(h[r]) != [] { ReadKeyed(h, Entries(h[r]), levels - 1, rest); }
        Braced(h, Entries(h[r]), levels, rest);
      }
  }

  lemma Bracketed(all: Text, items: seq<J.Json>, levels: nat, rest: Text)
    requires levels > 0
    requires if all == [] then items == []
             else !R.IsSpace(all[0]) && all[0] != J.RBRACKET
                  && R.ReadItems(all + [J.RBRACKET] + rest, levels - 1) == Some(R.Parsed(items, rest))
    ensures R.ReadValue([J.LBRACKET] + all + [J.RBRACKET] + rest, levels) == Some(R.Parsed(J.Arr(items), rest))
  {
    R.Regroup([J.LBRACKET], all, [J.RBRACKET], rest);
    R.ReadBracketed(all + [J.RBRACKET] + rest, levels, items, rest);
  }

  /** The entries followed by a closing brace read as the members. */
  predicate KeyedReads(h: Heap, es: seq<Entry>, levels: nat, rest: Text) {
    R.ReadMembers(SerializeAll(h, es, true, levels) + [J.RBRACE] + rest, levels)
    == Some(R.Parsed(MembersOf(h, es, levels), rest))
  }

  predicate ObjectReads(h: Heap, es: seq<Entry>, levels: nat, rest: Text)
    requires levels > 0
  {
    R.ReadValue([J.LBRACE] + SerializeAll(h, es, true, levels - 1) + [J.RBRACE] + rest, levels)
    == Some(R.Parsed(J.Obj(MembersOf(h, es, levels - 1)), rest))
  }

  lemma Braced(h: Heap, es: seq<Entry>, levels: nat, rest: Text)
    requires levels > 0 && (es == [] || KeyedReads(h, es, levels - 1, rest))
    ensures ObjectReads(h, es, levels, rest)
  {
    var all := SerializeAll(h, es, true, levels - 1);
    if es != [] { AllStart(h, es, true, levels - 1); }
    R.Regroup([J.LBRACE], all, [J.RBRACE], rest);
    R.ReadBraced(all + [J.RBRACE] + rest, levels, MembersOf(h, es, levels - 1), rest);
  }

  lemma {:induction false} ReadArray(h: Heap, es: seq<Entry>, levels: nat, rest: Text)
    requires R.Delimited(rest) && levels > 0
    ensures R.ReadValue([J.LBRACKET] + SerializeAll(h, es, false, levels - 1) + [J.RBRACKET] + rest, levels)
         == Some(R.Parsed(J.Arr(ItemsOf(h, es, levels - 1)), rest))
    decreases levels - 1, |es| + 1
  {
    var all := SerializeAll(h, es, false, levels - 1);
    if es != [] {
      ReadEach(h, es, levels - 1, rest);
      AllStart(h, es, false, levels - 1);
    }
    Bracketed(all, ItemsOf(h, es, levels - 1), levels, rest);
  }

  lemma {:induction false} ReadEach(h: Heap, es: seq<Entry>, levels: nat, rest: Text)
    requires es != [] && R.Delimited(rest)
    ensures R.ReadItems(SerializeAll(h, es, false, levels) + [J.RBRACKET] + rest, levels)
         == Some(R.Parsed(ItemsOf(h, es, levels), rest))
    decreases levels, |es|
  {
    var first, v := Serialize(h, es[0].value, levels), ToJson(h, es[0].value, levels);
    if |es| == 1 {
      ReadSerialized(h, es[0].value, levels, [J.RBRACKET] + rest);
      R.Join(first, [J.RBRACKET], rest);
      R.ReadLastItem(first + [J.RBRACKET] + rest, v, levels, rest);
      assert ItemsOf(h, es, levels) == [v];
    } else {
      var more := SerializeAll(h, es[1..], false, levels);
      var tail := more + [J.RBRACKET] + rest;
      ReadSerialized(h, es[0].value, levels, [J.COMMA] + tail);
      ReadEach(h, es[1..], levels, rest);
      R.Regroup(first + [J.COMMA], more, [J.RBRACKET], rest);
      R.Join(first, [J.COMMA], tail);
      R.ReadNextItem(first + ([J.COMMA] + tail), v, levels, tail, ItemsOf(h, es[1..], levels), rest);
    }
  }

  lemma {:induction false} ReadKeyed(h: Heap, es: seq<Entry>, levels: nat, rest: Text)
    requires es != [] && R.Delimited(rest)
    ensures KeyedReads(h, es, levels, rest)
    decreases levels, |es|
  {
    var e, p, v := J.Escape(es[0].key), Serialize(h, es[0].value, levels), ToJson(h, es[0].value, levels);
    var more := if |es| == 1 then [] else SerializeAll(h, es[1..], true, levels);
    var after := if |es| == 1 then [J.RBRACE] + rest else [J.COMMA] + (more + [J.RBRACE] + rest);
    R.ReadEscaped(es[0].key, [J.COLON] + (p + after));
    ReadSerialized(h, es[0].value, levels, after);
    if |es| == 1 {
      R.Drop([J.RBRACE], rest);
      R.FlattenLast(e, p, rest);
    } else {
      ReadKeyed(h, es[1..], levels, rest);
      R.Drop([J.COMMA], more + [J.RBRACE] + rest);
      R.FlattenMore(e, p, more, rest);
    }
    R.ReadMember(e + [J.QUOTE] + ([J.COLON] + (p + after)), es[0].key, p + after, v, levels, after,
                 MembersOf(h, es[1..], levels), rest);
  }

  // ---------------------------------------------------------------- the request

  /** The body is an object whose one property is `packet`. */
  predicate WrapsPacket(h: Heap, body: Value) {
    && body.Ref? && body.ref in h && h[body.ref].Object? && h[body.ref].plain
    && |h[body.ref].entries| == 1 && h[body.ref].entries[0].key == PACKET_KEY
  }

  function BodyText(h: Heap, body: Value): Text { Serialize(h, body, MAX_DEPTH + 1) }

  function BoundedRequest(h: Heap, body: Value): Bounded {
    var (ok, after) := Visit(h, body, 0, Progress(0, {}, false));
    if !ok then (if after.tooLarge then TooLarge else Malformed)
    else if !WrapsPacket(h, body) then Malformed
    else if ByteLength(BodyText(h, body)) > MAX_REQUEST_BYTES then TooLarge
    else Fits(h[body.ref].entries[0].value)
  }

  /** `inspectBoundedRequest`. */
  method InspectBoundedRequest(h: Heap, body: Value) returns (r: Bounded)
    ensures r == BoundedRequest(h, body)
  {
    var state := new Inspection();
    var ok := state.Inspect(h, body, 0);
    if !ok {
      return if state.tooLarge then TooLarge else Malformed;
    }
    if !WrapsPacket(h, body) {
      return Malformed;
    }
    if ByteLength(BodyText(h, body)) > MAX_REQUEST_BYTES {
      return TooLarge;
    }
    return Fits(h[body.ref].entries[0].value);
  }

  /**
   A body is passed on exactly when it unfolds acceptably, wraps one packet, and its whole JSON
   text has at most 65536 bytes.
   */
  lemma BoundedExactly(h: Heap, body: Value)
    ensures BoundedRequest(h, body).Fits? <==>
      exists t :: Acceptable(h, body, t) && WrapsPacket(h, body) && ByteLength(Stringify(h, t)) <= MAX_REQUEST_BYTES
    ensures forall t :: Acceptable(h, body, t) ==> BodyText(h, body) == Stringify(h, t)
  {
    InspectionExact(h, body);
    forall t | Acceptable(h, body, t) ensures BodyText(h, body) == Stringify(h, t) {
      SerializeWhole(h, t, MAX_DEPTH + 1);
    }
  }

  lemma {:induction false} BytesCoverUnits(t: Text)
    ensures |t| <= ByteLength(t)
  {
    if t != [] {
      if |t| > 1 && IsHighSurrogate(t[0]) && IsLowSurrogate(t[1]) { BytesCoverUnits(t[2..]); }
      else { BytesCoverUnits(t[1..]); }
    }
  }

  function PacketText(h: Heap, packet: Value): Text { Serialize(h, packet, MAX_DEPTH) }

  /** The packet's own text is part of the body's, so it fits too. */
  lemma PacketTextFits(h: Heap, body: Value)
    requires BoundedRequest(h, body).Fits?
    ensures |PacketText(h, BoundedRequest(h, body).packet)| <= MAX_REQUEST_BYTES
  {
    BytesCoverUnits(BodyText(h, body));
    var es := h[body.ref].entries;
    assert SerializeAll(h, es, true, MAX_DEPTH) == Labelled(es[0], true, PacketText(h, es[0].value));
  }

  /** What the validator is given is what the packet's JSON text says, for every heap and value. */
  lemma PacketTextReads(h: Heap, packet: Value)
    ensures R.Read(PacketText(h, packet), MAX_DEPTH) == Some(ToJson(h, packet, MAX_DEPTH))
  {
    ReadSerialized(h, packet, MAX_DEPTH, []);
    assert PacketText(h, packet) + [] == PacketText(h, packet);
  }
}
