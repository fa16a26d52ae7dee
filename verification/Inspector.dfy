/**
 The bounded inspector of packet intake (`inspectJsonValue`): a recursive walk over a heap of
 JavaScript objects that may be shared or cyclic, with one counter, one set of objects seen
 and one flag. The theorem replaces the walk by a property of the graph.
 */
module Inspector {
  import opened Texts
  import opened Bytes
  import J = Json

  type Ref = int

  /** A JavaScript number, told by the decimal token it prints as. */
  type Decimal = n: J.Number | n.Float? ==> J.IsFloatToken(n.token) witness J.Int(0)

  /** `Other` stands for every value JSON has no place for. */
  datatype Value =
    Null | Boolean(flag: bool) | Number(finite: bool, number: Decimal) | String(text: Text) | Other | Ref(ref: Ref)

  /** A property: its key, whether it is a data property, and its value. */
  datatype Entry = Entry(key: Text, data: bool, value: Value)

  datatype Node =
    | Array(items: seq<Value>)
    | Object(plain: bool, symbolKeys: bool, entries: seq<Entry>)

  type Heap = map<Ref, Node>

  const MAX_NODES: nat := 2_048
  const MAX_DEPTH: nat := 12
  const MAX_KEYS: nat := 64
  const MAX_ITEMS: nat := 128
  const MAX_KEY_BYTES: nat := 128
  const MAX_STRING_BYTES: nat := 2_048

  function ByteLength(t: Text): nat { |Utf8(t)| }

  /** What a node leads to; an array's items count as properties with an empty key. */
  function Entries(n: Node): (es: seq<Entry>)
    ensures n.Array? ==> |es| == |n.items| && forall i :: 0 <= i < |es| ==> es[i] == Entry([], true, n.items[i])
  {
    match n
    case Array(items) => seq(|items|, i requires 0 <= i < |items| => Entry([], true, items[i]))
    case Object(_, _, entries) => entries
  }

  // ---------------------------------------------------------------- the walk

  datatype Progress = Progress(nodes: nat, seen: set<Ref>, tooLarge: bool)

  function Visit(h: Heap, v: Value, depth: nat, p: Progress): (r: (bool, Progress))
    requires p.nodes <= MAX_NODES
    ensures p.nodes < r.1.nodes <= MAX_NODES + 1
    ensures r.0 ==> r.1.nodes <= MAX_NODES
    decreases MAX_NODES + 1 - p.nodes, 0
  {
    var q := p.(nodes := p.nodes + 1);
    var large := q.(tooLarge := true);
    if q.nodes > MAX_NODES || depth > MAX_DEPTH then (false, large)
    else
      match v
      case Null => (true, q)
      case Boolean(_) => (true, q)
      case Number(finite, _) => (finite, q)
      case String(text) =>
        var checked := if ByteLength(text) > MAX_STRING_BYTES then large else q;
        (!checked.tooLarge, checked)
      case Other => (false, q)
      case Ref(r) =>
        if r !in h || r in q.seen then (false, q)
        else
          var marked := q.(seen := q.seen + {r});
          match h[r]
          case Array(items) =>
            if |items| > MAX_ITEMS then (false, marked.(tooLarge := true))
            else VisitAll(h, Entries(h[r]), depth + 1, marked)
          case Object(plain, symbolKeys, entries) =>
            if !plain || symbolKeys then (false, marked)
            else if |entries| > MAX_KEYS then (false, marked.(tooLarge := true))
            else VisitAll(h, entries, depth + 1, marked)
  }

  function VisitAll(h: Heap, es: seq<Entry>, depth: nat, p: Progress): (r: (bool, Progress))
    requires p.nodes <= MAX_NODES
    ensures p.nodes <= r.1.nodes <= MAX_NODES + 1
    ensures r.0 ==> r.1.nodes <= MAX_NODES
    decreases MAX_NODES + 1 - p.nodes, |es|
  {
    if es == [] then (true, p)
    else if ByteLength(es[0].key) > MAX_KEY_BYTES then (false, p.(tooLarge := true))
    else if !es[0].data then (false, p)
    else
      var (ok, q) := Visit(h, es[0].value, depth, p);
      if ok then VisitAll(h, es[1..], depth, q) else (false, q)
  }

  /** The source's form: three fields updated as the recursion and its loops go along. */
  class Inspection {
    var nodes: nat
    var seen: set<Ref>
    var tooLarge: bool

    constructor ()
      ensures View() == Progress(0, {}, false)
    {
      nodes, seen, tooLarge := 0, {}, false;
    }

    function View(): Progress
      reads this
    {
      Progress(nodes, seen, tooLarge)
    }

    method Inspect(h: Heap, value: Value, depth: nat) returns (ok: bool)
      requires nodes <= MAX_NODES
      modifies this
      ensures (ok, View()) == Visit(h, value, depth, old(View()))
      decreases MAX_NODES + 1 - nodes, 0
    {
      nodes := nodes + 1;
      if nodes > MAX_NODES || depth > MAX_DEPTH {
        tooLarge := true;
        return false;
      }
      match value
      case Null => return true;
      case Boolean(_) => return true;
      case Number(finite, _) => return finite;
      case String(text) =>
        if ByteLength(text) > MAX_STRING_BYTES {
          tooLarge := true;
        }
        return !tooLarge;
      case Other => return false;
      case Ref(r) =>
        if r !in h || r in seen {
          return false;
        }
        seen := seen + {r};
        match h[r]
        case Array(items) =>
          if |items| > MAX_ITEMS {
            tooLarge := true;
            return false;
          }
          ok := InspectItems(h, items, depth + 1);
        case Object(plain, symbolKeys, entries) =>
          if !plain || symbolKeys {
            return false;
          }
          if |entries| > MAX_KEYS {
            tooLarge := true;
            return false;
          }
          ok := InspectEntries(h, entries, depth + 1);
    }

    /** `value.every(...)`. */
    method InspectItems(h: Heap, items: seq<Value>, depth: nat) returns (ok: bool)
      requires nodes <= MAX_NODES
      modifies this
      ensures (ok, View()) == VisitAll(h, Entries(Array(items)), depth, old(View()))
      decreases MAX_NODES + 1 - nodes, 1
    {
      ghost var es := Entries(Array(items));
      var i := 0;
      while i < |items|
        invariant 0 <= i <= |items| && old(nodes) <= nodes <= MAX_NODES
        invariant VisitAll(h, es[i..], depth, View()) == VisitAll(h, es, depth, old(View()))
      {
        assert es[i..][1..] == es[i + 1..];
        var good := Inspect(h, items[i], depth);
        if !good {
          return false;
        }
        i := i + 1;
      }
      return true;
    }

    /** The loop over an object's own keys. */
    method InspectEntries(h: Heap, entries: seq<Entry>, depth: nat) returns (ok: bool)
      requires nodes <= MAX_NODES
      modifies this
      ensures (ok, View()) == VisitAll(h, entries, depth, old(View()))
      decreases MAX_NODES + 1 - nodes, 1
    {
      var i := 0;
      while i < |entries|
        invariant 0 <= i <= |entries| && old(nodes) <= nodes <= MAX_NODES
        invariant VisitAll(h, entries[i..], depth, View()) == VisitAll(h, entries, depth, old(View()))
      {
        assert entries[i..][1..] == entries[i + 1..];
        if ByteLength(entries[i].key) > MAX_KEY_BYTES {
          tooLarge := true;
          return false;
        }
        if !entries[i].data {
          return false;
        }
        var good := Inspect(h, entries[i].value, depth);
        if !good {
          return false;
        }
        i := i + 1;
      }
      return true;
    }
  }

  // ---------------------------------------------------------------- the property

  /** A value and everything below it, written out; a shared object appears once per path. */
  datatype Tree = Tree(value: Value, below: seq<Tree>)

  function Size(t: Tree): nat { 1 + SizeAll(t.below) }

  function SizeAll(ts: seq<Tree>): nat { if ts == [] then 0 else Size(ts[0]) + SizeAll(ts[1..]) }

  function Refs(t: Tree): set<Ref> { (if t.value.Ref? then {t.value.ref} else {}) + RefsAll(t.below) }

  function RefsAll(ts: seq<Tree>): set<Ref> { if ts == [] then {} else Refs(ts[0]) + RefsAll(ts[1..]) }

  /** Every object is reached by one path only. */
  predicate OnePath(t: Tree) {
    (t.value.Ref? ==> t.value.ref !in RefsAll(t.below)) && OnePathAll(t.below)
  }

  predicate OnePathAll(ts: seq<Tree>) {
    ts == [] || (OnePath(ts[0]) && OnePathAll(ts[1..]) && Refs(ts[0]) !! RefsAll(ts[1..]))
  }

  /** No value is more than `n` levels below the root. */
  predicate HeightAtMost(t: Tree, n: nat) {
    t.below == [] || (n > 0 && HeightsAtMost(t.below, n - 1))
  }

  predicate HeightsAtMost(ts: seq<Tree>, n: nat) {
    ts == [] || (HeightAtMost(ts[0], n) && HeightsAtMost(ts[1..], n))
  }

  predicate EntryOk(e: Entry) { ByteLength(e.key) <= MAX_KEY_BYTES && e.data }

  predicate NodeOk(n: Node) {
    match n
    case Array(items) => |items| <= MAX_ITEMS
    case Object(plain, symbolKeys, entries) => plain && !symbolKeys && |entries| <= MAX_KEYS
  }

  /** The tree is the unfolding of its root, and each value in it is within its own limits. */
  predicate Unfolds(h: Heap, t: Tree)
    decreases t
  {
    match t.value
    case Null => t.below == []
    case Boolean(_) => t.below == []
    case Number(finite, _) => finite && t.below == []
    case String(text) => ByteLength(text) <= MAX_STRING_BYTES && t.below == []
    case Other => false
    case Ref(r) => r in h && NodeOk(h[r]) && UnfoldsAll(h, Entries(h[r]), t.below)
  }

  predicate UnfoldsAll(h: Heap, es: seq<Entry>, ts: seq<Tree>)
    decreases ts
  {
    if ts == [] then es == []
    else es != [] && EntryOk(es[0]) && ts[0].value == es[0].value && Unfolds(h, ts[0]) && UnfoldsAll(h, es[1..], ts[1..])
  }

  /** What intake means to accept. */
  ghost predicate Acceptable(h: Heap, v: Value, t: Tree) {
    && t.value == v && Unfolds(h, t) && OnePath(t) && Size(t) <= MAX_NODES && HeightAtMost(t, MAX_DEPTH)
  }

  // ---------------------------------------------------------------- exactness

  function After(p: Progress, size: nat, refs: set<Ref>): Progress {
    Progress(p.nodes + size, p.seen + refs, false)
  }

  /** What a successful visit has found. */
  ghost predicate Explains(h: Heap, v: Value, depth: nat, p: Progress, q: Progress, t: Tree) {
    && t.value == v && Unfolds(h, t) && OnePath(t) && Refs(t) !! p.seen
    && depth <= MAX_DEPTH && HeightAtMost(t, MAX_DEPTH - depth)
    && q == After(p, Size(t), Refs(t))
  }

  lemma {:induction false} VisitExplained(h: Heap, v: Value, depth: nat, p: Progress) returns (t: Tree)
    requires p.nodes <= MAX_NODES && !p.tooLarge && Visit(h, v, depth, p).0
    ensures Explains(h, v, depth, p, Visit(h, v, depth, p).1, t)
    decreases MAX_NODES + 1 - p.nodes, 0
  {
    t := Tree(v, []);
    if v.Ref? {
      var marked := Progress(p.nodes + 1, p.seen + {v.ref}, false);
      var es := Entries(h[v.ref]);
      var ts := VisitAllExplained(h, es, depth + 1, marked);
      t := Tree(v, ts);
    }
  }

  lemma {:induction false} VisitAllExplained(h: Heap, es: seq<Entry>, depth: nat, p: Progress) returns (ts: seq<Tree>)
    requires p.nodes <= MAX_NODES && !p.tooLarge && VisitAll(h, es, depth, p).0 && depth > 0
    ensures UnfoldsAll(h, es, ts) && OnePathAll(ts) && RefsAll(ts) !! p.seen
    ensures ts != [] ==> depth <= MAX_DEPTH && HeightsAtMost(ts, MAX_DEPTH - depth)
    ensures VisitAll(h, es, depth, p).1 == After(p, SizeAll(ts), RefsAll(ts))
    decreases MAX_NODES + 1 - p.nodes, |es|
  {
    ts := [];
    if es != [] {
      var q := Visit(h, es[0].value, depth, p).1;
      var first := VisitExplained(h, es[0].value, depth, p);
      var rest := VisitAllExplained(h, es[1..], depth, q);
      ts := [first] + rest;
      assert ts[1..] == rest;
    }
  }

  lemma {:induction false} VisitSucceeds(h: Heap, t: Tree, depth: nat, p: Progress)
    requires Unfolds(h, t) && OnePath(t) && Refs(t) !! p.seen && !p.tooLarge
    requires depth <= MAX_DEPTH && HeightAtMost(t, MAX_DEPTH - depth) && p.nodes + Size(t) <= MAX_NODES
    ensures Visit(h, t.value, depth, p) == (true, After(p, Size(t), Refs(t)))
    decreases t
  {
    if t.value.Ref? {
      var marked := Progress(p.nodes + 1, p.seen + {t.value.ref}, false);
      if t.below == [] {
        assert Entries(h[t.value.ref]) == [] && marked.seen + RefsAll(t.below) == marked.seen;
      } else {
        VisitAllSucceeds(h, Entries(h[t.value.ref]), t.below, depth + 1, marked);
      }
      assert marked.seen + RefsAll(t.below) == p.seen + Refs(t);
    } else {
      assert p.seen + Refs(t) == p.seen;
    }
  }

  lemma {:induction false} VisitAllSucceeds(h: Heap, es: seq<Entry>, ts: seq<Tree>, depth: nat, p: Progress)
    requires UnfoldsAll(h, es, ts) && OnePathAll(ts) && RefsAll(ts) !! p.seen && !p.tooLarge
    requires depth <= MAX_DEPTH && HeightsAtMost(ts, MAX_DEPTH - depth) && p.nodes + SizeAll(ts) <= MAX_NODES
    ensures VisitAll(h, es, depth, p) == (true, After(p, SizeAll(ts), RefsAll(ts)))
    decreases ts
  {
    if ts != [] {
      VisitSucceeds(h, ts[0], depth, p);
      VisitAllSucceeds(h, es[1..], ts[1..], depth, After(p, Size(ts[0]), Refs(ts[0])));
      assert p.seen + Refs(ts[0]) + RefsAll(ts[1..]) == p.seen + RefsAll(ts);
    } else {
      assert p.seen + RefsAll(ts) == p.seen;
    }
  }

  /**
   The walk accepts exactly the graphs that unfold to a tree of at most 2048 values, at most
   12 levels deep, in which no object occurs twice and every limit on arrays, keys, strings
   and numbers holds. It visits at most 2049 values whether or not the graph has cycles.
   */
  lemma InspectionExact(h: Heap, v: Value)
    ensures Visit(h, v, 0, Progress(0, {}, false)).0 <==> exists t :: Acceptable(h, v, t)
    ensures Visit(h, v, 0, Progress(0, {}, false)).1.nodes <= MAX_NODES + 1
  {
    var p := Progress(0, {}, false);
    if Visit(h, v, 0, p).0 {
      var t := VisitExplained(h, v, 0, p);
      assert Acceptable(h, v, t);
    }
    if t :| Acceptable(h, v, t) {
      VisitSucceeds(h, t, 0, p);
    }
  }

  /** On acceptance the counter is the size of that tree and the set is its objects. */
  lemma InspectionCounts(h: Heap, v: Value, t: Tree)
    requires Acceptable(h, v, t)
    ensures Visit(h, v, 0, Progress(0, {}, false)) == (true, Progress(Size(t), Refs(t), false))
  {
    VisitSucceeds(h, t, 0, Progress(0, {}, false));
    assert {} + Refs(t) == Refs(t);
  }
}
