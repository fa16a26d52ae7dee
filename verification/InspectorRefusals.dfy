/**
 Why the inspector refuses. The walk stops at the first value in document order that breaks a
 rule; everything before it was acceptable. Breaking a limit makes the request too large,
 breaking any other rule makes it malformed.
 */
module InspectorRefusals {
  import opened Texts
  import opened Bytes
  import opened Inspector
  import B = IntakeBody

  datatype Cause =
    | TooManyValues | TooDeep | LongString | LongArray | ManyKeys | LongKey
    | NotFinite | NotJson | Repeated | NotPlain | Accessor

  predicate IsLimit(c: Cause) { c in {TooManyValues, TooDeep, LongString, LongArray, ManyKeys, LongKey} }

  /** The culprit: the value itself, or a key or value below it after the subtrees `before`. */
  datatype Blame = Itself(cause: Cause) | Below(before: seq<Tree>, spot: Spot)

  datatype Spot = Key(cause: Cause) | Member(inner: Blame)

  function CauseOf(b: Blame): Cause {
    match b
    case Itself(cause) => cause
    case Below(_, Key(cause)) => cause
    case Below(_, Member(inner)) => CauseOf(inner)
  }

  /** What is wrong with a value at this depth, after `nodes` values and the objects `seen`. */
  predicate Faulty(h: Heap, v: Value, depth: nat, nodes: nat, seen: set<Ref>, cause: Cause) {
    if nodes >= MAX_NODES then cause == TooManyValues
    else if depth > MAX_DEPTH then cause == TooDeep
    else if v.Ref? && v.ref in h && v.ref !in seen then FaultyNode(h[v.ref], cause)
    else
      match cause
      case NotFinite => v.Number? && !v.finite
      case LongString => v.String? && |Utf8(v.text)| > MAX_STRING_BYTES
      case NotJson => v.Other? || (v.Ref? && v.ref !in h)
      case Repeated => v.Ref? && v.ref in seen
      case _ => false
  }

  predicate FaultyNode(n: Node, cause: Cause) {
    match n
    case Array(items) => cause == LongArray && |items| > MAX_ITEMS
    case Object(plain, symbolKeys, entries) =>
      if plain && !symbolKeys then cause == ManyKeys && |entries| > MAX_KEYS else cause == NotPlain
  }

  predicate FaultyKey(e: Entry, cause: Cause) {
    if |Utf8(e.key)| > MAX_KEY_BYTES then cause == LongKey else !e.data && cause == Accessor
  }

  /** `before` are the acceptable unfoldings of the first entries. */
  predicate Passed(h: Heap, es: seq<Entry>, depth: nat, nodes: nat, seen: set<Ref>, before: seq<Tree>) {
    && |before| <= |es| && UnfoldsAll(h, es[..|before|], before) && OnePathAll(before) && RefsAll(before) !! seen
    && (before != [] ==> depth <= MAX_DEPTH && HeightsAtMost(before, MAX_DEPTH - depth))
    && nodes + SizeAll(before) <= MAX_NODES
  }

  predicate Stuck(h: Heap, es: seq<Entry>, depth: nat, nodes: nat, seen: set<Ref>, before: seq<Tree>, spot: Spot)
    decreases spot
  {
    && Passed(h, es, depth, nodes, seen, before) && |before| < |es|
    && match spot
       case Key(cause) => FaultyKey(es[|before|], cause)
       case Member(inner) =>
         && EntryOk(es[|before|])
         && Blamed(h, es[|before|].value, depth, nodes + SizeAll(before), seen + RefsAll(before), inner)
  }

  /** `b` is the first thing wrong with `v`. */
  predicate Blamed(h: Heap, v: Value, depth: nat, nodes: nat, seen: set<Ref>, b: Blame)
    decreases b
  {
    match b
    case Itself(cause) => Faulty(h, v, depth, nodes, seen, cause)
    case Below(before, spot) =>
      && nodes < MAX_NODES && depth <= MAX_DEPTH
      && v.Ref? && v.ref in h && v.ref !in seen && NodeOk(h[v.ref])
      && Stuck(h, Entries(h[v.ref]), depth + 1, nodes + 1, seen + {v.ref}, before, spot)
  }

  // ---------------------------------------------------------------- the culprit decides

  lemma PassedTail(h: Heap, es: seq<Entry>, depth: nat, p: Progress, before: seq<Tree>)
    requires Passed(h, es, depth, p.nodes, p.seen, before) && before != [] && !p.tooLarge
    ensures var q := After(p, Size(before[0]), Refs(before[0]));
            && Passed(h, es[1..], depth, q.nodes, q.seen, before[1..])
            && VisitAll(h, es, depth, p) == VisitAll(h, es[1..], depth, q)
  {
    VisitSucceeds(h, before[0], depth, p);
    assert es[..|before|][0] == es[0] && es[..|before|][1..] == es[1..][..|before| - 1];
  }

  lemma AfterBoth(p: Progress, before: seq<Tree>)
    requires before != []
    ensures After(After(p, Size(before[0]), Refs(before[0])), SizeAll(before[1..]), RefsAll(before[1..]))
         == After(p, SizeAll(before), RefsAll(before))
  {
  }

  /** After an acceptable prefix the walk goes on with the rest. */
  lemma {:induction false} PrefixVisited(h: Heap, es: seq<Entry>, depth: nat, p: Progress, before: seq<Tree>)
    requires Passed(h, es, depth, p.nodes, p.seen, before) && !p.tooLarge
    ensures VisitAll(h, es, depth, p) == VisitAll(h, es[|before|..], depth, After(p, SizeAll(before), RefsAll(before)))
    decreases before
  {
    if before == [] {
      assert p.seen + RefsAll(before) == p.seen;
    } else {
      PassedTail(h, es, depth, p, before);
      PrefixVisited(h, es[1..], depth, After(p, Size(before[0]), Refs(before[0])), before[1..]);
      AfterBoth(p, before);
      assert es[1..][|before| - 1..] == es[|before|..];
    }
  }

  /** Whatever is blamed, the walk refuses, and says too large exactly for a limit. */
  lemma {:induction false} BlamedRefused(h: Heap, v: Value, depth: nat, p: Progress, b: Blame)
    requires p.nodes <= MAX_NODES && !p.tooLarge && Blamed(h, v, depth, p.nodes, p.seen, b)
    ensures !Visit(h, v, depth, p).0 && (Visit(h, v, depth, p).1.tooLarge <==> IsLimit(CauseOf(b)))
    decreases b
  {
    if b.Below? {
      StuckRefused(h, Entries(h[v.ref]), depth + 1, Progress(p.nodes + 1, p.seen + {v.ref}, false), b.before, b.spot);
    }
  }

  lemma {:induction false} StuckRefused(h: Heap, es: seq<Entry>, depth: nat, p: Progress, before: seq<Tree>, spot: Spot)
    requires p.nodes <= MAX_NODES && !p.tooLarge && Stuck(h, es, depth, p.nodes, p.seen, before, spot)
    ensures var r := VisitAll(h, es, depth, p);
            !r.0 && (r.1.tooLarge <==> IsLimit(CauseOf(Below(before, spot))))
    decreases spot
  {
    PrefixVisited(h, es, depth, p, before);
    var rest, q := es[|before|..], After(p, SizeAll(before), RefsAll(before));
    assert rest[0] == es[|before|];
    if spot.Member? { BlamedRefused(h, rest[0].value, depth, q, spot.inner); }
  }

  // ---------------------------------------------------------------- there always is one

  /** Whatever is refused has a culprit. */
  lemma {:induction false} RefusedBlamed(h: Heap, v: Value, depth: nat, p: Progress) returns (b: Blame)
    requires p.nodes <= MAX_NODES && !p.tooLarge && !Visit(h, v, depth, p).0
    ensures Blamed(h, v, depth, p.nodes, p.seen, b)
    decreases MAX_NODES + 1 - p.nodes, 0
  {
    if p.nodes >= MAX_NODES { b := Itself(TooManyValues); }
    else if depth > MAX_DEPTH { b := Itself(TooDeep); }
    else if v.Number? { b := Itself(NotFinite); }
    else if v.String? { b := Itself(LongString); }
    else if v.Other? || v.ref !in h { b := Itself(NotJson); }
    else if v.ref in p.seen { b := Itself(Repeated); }
    else if NodeOk(h[v.ref]) {
      var before, spot := RefusedStuck(h, Entries(h[v.ref]), depth + 1, Progress(p.nodes + 1, p.seen + {v.ref}, false));
      b := Below(before, spot);
    }
    else if h[v.ref].Array? { b := Itself(LongArray); }
    else if !h[v.ref].plain || h[v.ref].symbolKeys { b := Itself(NotPlain); }
    else { b := Itself(ManyKeys); }
  }

  lemma {:induction false} RefusedStuck(h: Heap, es: seq<Entry>, depth: nat, p: Progress) returns (before: seq<Tree>, spot: Spot)
    requires depth > 0 && p.nodes <= MAX_NODES && !p.tooLarge && !VisitAll(h, es, depth, p).0
    ensures Stuck(h, es, depth, p.nodes, p.seen, before, spot)
    decreases MAX_NODES + 1 - p.nodes, |es|
  {
    before := [];
    if |Utf8(es[0].key)| > MAX_KEY_BYTES { spot := Key(LongKey); }
    else if !es[0].data { spot := Key(Accessor); }
    else if !Visit(h, es[0].value, depth, p).0 {
      var inner := RefusedBlamed(h, es[0].value, depth, p);
      spot := Member(inner);
      assert p.seen + RefsAll(before) == p.seen;
    } else {
      var first := VisitExplained(h, es[0].value, depth, p);
      var q := After(p, Size(first), Refs(first));
      before, spot := RefusedStuck(h, es[1..], depth, q);
      StuckLater(h, es, depth, p, first, before, spot);
      before := [first] + before;
    }
  }

  /** Being stuck in the tail, after an acceptable first entry, is being stuck. */
  lemma StuckLater(h: Heap, es: seq<Entry>, depth: nat, p: Progress, first: Tree, before: seq<Tree>, spot: Spot)
    requires es != [] && EntryOk(es[0]) && Explains(h, es[0].value, depth, p, After(p, Size(first), Refs(first)), first)
    requires Stuck(h, es[1..], depth, p.nodes + Size(first), p.seen + Refs(first), before, spot)
    ensures Stuck(h, es, depth, p.nodes, p.seen, [first] + before, spot)
  {
    var all := [first] + before;
    assert all[1..] == before && es[..|all|][1..] == es[1..][..|before|];
    assert es[|all|] == es[1..][|before|];
    assert p.seen + Refs(first) + RefsAll(before) == p.seen + RefsAll(all);
  }

  // ---------------------------------------------------------------- the answers

  ghost predicate FirstFault(h: Heap, v: Value, limit: bool) {
    exists b :: Blamed(h, v, 0, 0, {}, b) && IsLimit(CauseOf(b)) == limit
  }

  lemma RefusalExact(h: Heap, v: Value, limit: bool)
    ensures FirstFault(h, v, limit) <==>
      !Visit(h, v, 0, Progress(0, {}, false)).0 && Visit(h, v, 0, Progress(0, {}, false)).1.tooLarge == limit
  {
    var p := Progress(0, {}, false);
    forall b | Blamed(h, v, 0, 0, {}, b)
      ensures !Visit(h, v, 0, p).0 && (Visit(h, v, 0, p).1.tooLarge <==> IsLimit(CauseOf(b)))
    {
      BlamedRefused(h, v, 0, p, b);
    }
    if !Visit(h, v, 0, p).0 { var b := RefusedBlamed(h, v, 0, p); }
  }

  /**
   A body is too large exactly when the first fault in it is a limit, or it has no fault, wraps
   one packet and its text is too long. It is malformed exactly when the first fault is another
   one, or it has none and does not wrap one packet.
   */
  lemma RefusalsExactly(h: Heap, body: Value)
    ensures B.BoundedRequest(h, body) == B.TooLarge <==>
      || FirstFault(h, body, true)
      || exists t :: Acceptable(h, body, t) && B.WrapsPacket(h, body) && |Utf8(B.Stringify(h, t))| > B.MAX_REQUEST_BYTES
    ensures B.BoundedRequest(h, body) == B.Malformed <==>
      FirstFault(h, body, false) || ((exists t :: Acceptable(h, body, t)) && !B.WrapsPacket(h, body))
  {
    RefusalExact(h, body, true);
    RefusalExact(h, body, false);
    InspectionExact(h, body);
    B.BoundedExactly(h, body);
  }
}
