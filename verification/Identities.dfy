/**
 The finite allocator of operation identities (`headless_operation_identity.rs`). An identity
 pairs its allocator's domain, compared by reference, with a nonzero 64-bit ordinal.
 */
module Identities {
  import opened Texts

  const U64_MAX: nat := 0xFFFF_FFFF_FFFF_FFFF

  class Domain {
    constructor () {}
  }

  /** `D` is the allocator's domain object, or its index where a run is written down. */
  datatype Identity<D> = Identity(domain: D, ordinal: nat)

  predicate SameOperation<D(==)>(a: Identity<D>, b: Identity<D>) { a.domain == b.domain && a.ordinal == b.ordinal }

  /** New value of `next`, and the ordinal handed out. */
  function Issue(next: Option<nat>): (Option<nat>, Option<nat>) {
    if next.None? then (None, None)
    else if next.value + 1 > U64_MAX then (None, None)
    else (Some(next.value + 1), next)
  }

  class Allocator {
    const domain: Domain
    var next: Option<nat>

    constructor ()
      ensures fresh(domain) && next == Some(1)
    {
      domain := new Domain();
      next := Some(1);
    }

    method IssueIdentity() returns (r: Option<Identity<Domain>>)
      modifies this
      ensures next == Issue(old(next)).0
      ensures r.Some? <==> Issue(old(next)).1.Some?
      ensures r.Some? ==> r.value == Identity(domain, Issue(old(next)).1.value)
    {
      if next.None? {
        return None;
      }
      var ordinal := next.value;
      if ordinal + 1 > U64_MAX {
        next := None;
        return None;
      }
      next := Some(ordinal + 1);
      return Some(Identity(domain, ordinal));
    }
  }

  // ---------------------------------------------------------------- runs over many allocators

  datatype Call = Create | Ask(allocator: nat)

  /** `result` of one call of `issue` on allocator `from`. */
  datatype Event = Event(from: nat, result: Option<nat>)

  datatype World = World(nexts: seq<Option<nat>>, events: seq<Event>)

  function Perform(w: World, c: Call): World {
    match c
    case Create => w.(nexts := w.nexts + [Some(1)])
    case Ask(k) =>
      if k >= |w.nexts| then w
      else
        var (next, ordinal) := Issue(w.nexts[k]);
        World(w.nexts[k := next], w.events + [Event(k, ordinal)])
  }

  function PerformAll(calls: seq<Call>): World {
    if calls == [] then World([], []) else Perform(PerformAll(calls[..|calls| - 1]), calls[|calls| - 1])
  }

  /** How an earlier and a later event of the same allocator compare. */
  predicate Follows(a: Event, b: Event) {
    a.from == b.from ==>
      && (a.result.None? ==> b.result.None?)
      && (a.result.Some? && b.result.Some? ==> a.result.value < b.result.value)
  }

  predicate Past(next: Option<nat>, e: Event) {
    match e.result
    case None => next.None?
    case Some(n) => 1 <= n <= U64_MAX - 1 && (next.Some? ==> n < next.value)
  }

  ghost predicate Ordered(w: World) {
    && (forall k :: 0 <= k < |w.nexts| && w.nexts[k].Some? ==> 1 <= w.nexts[k].value <= U64_MAX)
    && (forall i :: 0 <= i < |w.events| ==> w.events[i].from < |w.nexts| && Past(w.nexts[w.events[i].from], w.events[i]))
    && (forall i, j :: 0 <= i < j < |w.events| ==> Follows(w.events[i], w.events[j]))
  }

  lemma PerformKeeps(w: World, c: Call)
    requires Ordered(w)
    ensures Ordered(Perform(w, c))
  {
  }

  /**
   In any run over any number of allocators: ordinals from one allocator strictly increase
   within 1 to 2^64 - 2, so no two issued identities are the same operation, and after the
   first refusal an allocator only refuses.
   */
  lemma {:induction false} IdentitiesNeverRepeat(calls: seq<Call>)
    ensures Ordered(PerformAll(calls))
    ensures var es := PerformAll(calls).events;
            && (forall i :: 0 <= i < |es| && es[i].result.Some? ==> 1 <= es[i].result.value <= U64_MAX - 1)
            && (forall i, j :: 0 <= i < j < |es| && es[i].result.Some? && es[j].result.Some? ==>
                  es[i].from != es[j].from || es[i].result.value < es[j].result.value)
            && (forall i, j :: 0 <= i < j < |es| && es[i].result.Some? && es[j].result.Some? ==>
                  !SameOperation(Identity(es[i].from, es[i].result.value), Identity(es[j].from, es[j].result.value)))
            && (forall i, j :: 0 <= i < j < |es| && es[i].from == es[j].from && es[i].result.None? ==> es[j].result.None?)
  {
    if calls != [] {
      IdentitiesNeverRepeat(calls[..|calls| - 1]);
      PerformKeeps(PerformAll(calls[..|calls| - 1]), calls[|calls| - 1]);
    }
    var es := PerformAll(calls).events;
    forall i, j | 0 <= i < j < |es|
      ensures es[i].from == es[j].from && es[i].result.None? ==> es[j].result.None?
      ensures es[i].result.Some? && es[j].result.Some? ==> es[i].from != es[j].from || es[i].result.value < es[j].result.value
    {
      assert Follows(es[i], es[j]);
    }
  }

  /** Nothing is skipped: the first refusal comes after exactly 2^64 - 2 identities. */
  lemma {:induction false} OrdinalsConsecutive(n: nat)
    requires n <= U64_MAX
    ensures NextAfter(n) == if n < U64_MAX then Some(n + 1) else None
    decreases n
  {
    if n > 0 { OrdinalsConsecutive(n - 1); }
  }

  /** `next` after `n` calls of `issue` on a new allocator. */
  function NextAfter(n: nat): Option<nat>
    decreases n
  {
    if n == 0 then Some(1) else Issue(NextAfter(n - 1)).0
  }

  // ---------------------------------------------------------------- allocators and their domain objects

  /** What an event handed out, once indices are replaced by domain objects. */
  ghost function Handed(all: seq<Allocator>, e: Event): Option<Identity<Domain>> {
    if e.from < |all| && e.result.Some? then Some(Identity(all[e.from].domain, e.result.value)) else None
  }

  /** Allocators made one after another, each asked any number of times, and all answers given. */
  class ControlRoots {
    var all: seq<Allocator>
    var answers: seq<Option<Identity<Domain>>>
    ghost var calls: seq<Call>

    /** This is the run of `calls`, with each allocator's own domain object in place of its index. */
    ghost predicate Valid()
      reads this, set a | a in all
    {
      var w := PerformAll(calls);
      && |w.nexts| == |all| && (forall k :: 0 <= k < |all| ==> all[k].next == w.nexts[k])
      && (forall j, k :: 0 <= j < k < |all| ==> all[j] != all[k] && all[j].domain != all[k].domain)
      && |answers| == |w.events|
      && (forall i :: 0 <= i < |answers| ==> w.events[i].from < |all| && answers[i] == Handed(all, w.events[i]))
    }

    constructor ()
      ensures Valid() && calls == [] && all == [] && answers == []
    {
      all, answers, calls := [], [], [];
    }

    /** A new allocator has a domain that no earlier one has. */
    method Create()
      requires Valid()
      modifies this
      ensures Valid() && calls == old(calls) + [Call.Create] && answers == old(answers)
      ensures |all| == |old(all)| + 1 && all[..|old(all)|] == old(all) && fresh(all[|old(all)|])
    {
      var a := new Allocator();
      all := all + [a];
      calls := calls + [Call.Create];
      assert calls[..|calls| - 1] == old(calls);
    }

    /** `issue` on one of the allocators. */
    method Ask(k: nat) returns (r: Option<Identity<Domain>>)
      requires Valid() && k < |all|
      modifies this`answers, this`calls, all[k]
      ensures Valid() && calls == old(calls) + [Call.Ask(k)] && answers == old(answers) + [r]
      ensures r.Some? ==> r.value.domain == all[k].domain
    {
      r := all[k].IssueIdentity();
      answers := answers + [r];
      calls := calls + [Call.Ask(k)];
      assert calls[..|calls| - 1] == old(calls);
    }

    /** No two identities ever issued, by whichever allocators, are the same operation. */
    lemma NoTwoAlike(i: nat, j: nat)
      requires Valid() && i < j < |answers| && answers[i].Some? && answers[j].Some?
      ensures !SameOperation(answers[i].value, answers[j].value)
    {
      IdentitiesNeverRepeat(calls);
    }
  }
}
