/**
 Text as both halves of the repository compare it: a sequence of UTF-16 code units. A
 JavaScript string is exactly that; a Rust string is one without unpaired surrogates, and
 the Rust side calls `encode_utf16` wherever it orders or measures. The module also holds
 the code-unit order and the theory of strictly ascending lists, which the canonical JSON
 writer (object keys) and the approval contracts (reference and capability lists) share.
 */
module Texts {

  type Unit = u: int | 0 <= u < 0x10000

  type Text = seq<Unit>

  datatype Option<+T> = None | Some(value: T)

  /** A character of the basic plane as a code unit; the model's literals are all ASCII. */
  function CodeUnit(c: char): Unit { if c as int < 0x10000 then c as int else 0xFFFD }

  /** The text of an ASCII literal. */
  function Ascii(s: string): (t: Text)
    ensures |t| == |s|
    ensures forall i :: 0 <= i < |s| ==> t[i] == CodeUnit(s[i])
  {
    seq(|s|, i requires 0 <= i < |s| => CodeUnit(s[i]))
  }

  predicate IsHighSurrogate(u: Unit) { 0xD800 <= u < 0xDC00 }

  predicate IsLowSurrogate(u: Unit) { 0xDC00 <= u < 0xE000 }

  /** True of the texts that are Rust strings: every surrogate is half of a pair. */
  predicate PairedSurrogates(t: Text) {
    if t == [] then true
    else if IsHighSurrogate(t[0]) then
      |t| > 1 && IsLowSurrogate(t[1]) && PairedSurrogates(t[2..])
    else !IsLowSurrogate(t[0]) && PairedSurrogates(t[1..])
  }

  /** Unicode scalar count, `chars().count()` in Rust: a surrogate pair is one character. */
  function ScalarCount(t: Text): nat {
    if t == [] then 0
    else if |t| > 1 && IsHighSurrogate(t[0]) && IsLowSurrogate(t[1]) then 1 + ScalarCount(t[2..])
    else 1 + ScalarCount(t[1..])
  }

  predicate IsDigit(u: Unit) { '0' as int <= u <= '9' as int }

  predicate IsLower(u: Unit) { 'a' as int <= u <= 'z' as int }

  predicate IsUpper(u: Unit) { 'A' as int <= u <= 'Z' as int }

  predicate IsLowerHex(u: Unit) { IsDigit(u) || 'a' as int <= u <= 'f' as int }

  /** A known prefix followed by 64 lowercase hexadecimal digits. */
  predicate PrefixedDigest(t: Text, prefix: Text) {
    && prefix <= t
    && |t| == |prefix| + 64
    && forall i :: |prefix| <= i < |t| ==> IsLowerHex(t[i])
  }

  /** A separator that does not occur before it can be found again. */
  lemma JoinInjective(a: Text, x: Text, b: Text, y: Text, u: Unit)
    requires u !in a && u !in b
    ensures a + [u] + x == b + [u] + y <==> a == b && x == y
  {
    var t := a + [u] + x;
    if t == b + [u] + y {
      assert t[|a|] == u && t[|b|] == u;
      assert forall i :: 0 <= i < |a| ==> t[i] == a[i];
      assert forall i :: 0 <= i < |b| ==> t[i] == b[i];
      assert a == t[..|a|] == b;
      assert x == t[|a| + 1..] == y;
    }
  }

  // ---------------------------------------------------------------- code-unit order

  /** Strict code-unit order: `<` on JavaScript strings, `encode_utf16().cmp` in Rust. */
  predicate Less(a: Text, b: Text) {
    if b == [] then false
    else if a == [] then true
    else a[0] < b[0] || (a[0] == b[0] && Less(a[1..], b[1..]))
  }

  lemma {:induction false} LessIrreflexive(a: Text)
    ensures !Less(a, a)
  {
    if a != [] { LessIrreflexive(a[1..]); }
  }

  lemma {:induction false} LessTransitive(a: Text, b: Text, c: Text)
    requires Less(a, b) && Less(b, c)
    ensures Less(a, c)
  {
    if a != [] && a[0] == b[0] && b[0] == c[0] {
      LessTransitive(a[1..], b[1..], c[1..]);
    }
  }

  lemma {:induction false} LessTotal(a: Text, b: Text)
    ensures Less(a, b) || a == b || Less(b, a)
  {
    if a != [] && b != [] && a[0] == b[0] {
      LessTotal(a[1..], b[1..]);
      assert a == [a[0]] + a[1..] && b == [b[0]] + b[1..];
    }
  }

  lemma LessAsymmetric(a: Text, b: Text)
    requires Less(a, b)
    ensures !Less(b, a) && a != b
  {
  }

  // ---------------------------------------------------------------- ascending lists

  ghost function Members(xs: seq<Text>): set<Text> { set x | x in xs }

  /** The check the contracts make: no adjacent pair is out of order. */
  predicate AdjacentAscending(xs: seq<Text>) {
    forall i :: 0 <= i < |xs| - 1 ==> Less(xs[i], xs[i + 1])
  }

  ghost predicate Ascending(xs: seq<Text>) {
    forall i, j :: 0 <= i < j < |xs| ==> Less(xs[i], xs[j])
  }

  lemma {:induction false} AdjacentReaches(xs: seq<Text>, i: nat, j: nat)
    requires AdjacentAscending(xs) && i < j < |xs|
    ensures Less(xs[i], xs[j])
    decreases j - i
  {
    if i + 1 < j {
      AdjacentReaches(xs, i + 1, j);
      LessTransitive(xs[i], xs[i + 1], xs[j]);
    }
  }

  /** Checking neighbours is checking every pair; an accepted list has no duplicates. */
  lemma AdjacentIsGlobal(xs: seq<Text>)
    ensures AdjacentAscending(xs) <==> Ascending(xs)
    ensures AdjacentAscending(xs) ==> forall i, j :: 0 <= i < j < |xs| ==> xs[i] != xs[j]
  {
    if AdjacentAscending(xs) {
      forall i, j | 0 <= i < j < |xs|
        ensures Less(xs[i], xs[j]) && xs[i] != xs[j]
      {
        AdjacentReaches(xs, i, j);
        LessAsymmetric(xs[i], xs[j]);
      }
    }
  }

  lemma AscendingTail(xs: seq<Text>)
    requires Ascending(xs) && xs != []
    ensures Ascending(xs[1..]) && Members(xs[1..]) == Members(xs) - {xs[0]}
  {
    forall x | x in xs[1..] ensures x != xs[0] {
      var i :| 0 <= i < |xs[1..]| && xs[1..][i] == x;
      LessAsymmetric(xs[0], xs[i + 1]);
    }
    assert xs == [xs[0]] + xs[1..];
  }

  lemma MembersEmpty(xs: seq<Text>)
    ensures Members(xs) == {} <==> xs == []
  {
    if xs != [] { assert xs[0] in Members(xs); }
  }

  lemma AscendingHeads(xs: seq<Text>, ys: seq<Text>)
    requires Ascending(xs) && Ascending(ys) && Members(xs) == Members(ys) && xs != [] && ys != []
    ensures xs[0] == ys[0]
  {
    if xs[0] != ys[0] {
      assert xs[0] in Members(ys) && ys[0] in Members(xs);
      var i :| 0 <= i < |ys| && ys[i] == xs[0];
      var j :| 0 <= j < |xs| && xs[j] == ys[0];
      LessAsymmetric(ys[0], ys[i]);
      assert false;
    }
  }

  /** An ascending list is determined by its members: it is a canonical form of a set. */
  lemma {:induction false} AscendingIsCanonical(xs: seq<Text>, ys: seq<Text>)
    requires Ascending(xs) && Ascending(ys) && Members(xs) == Members(ys)
    ensures xs == ys
  {
    MembersEmpty(xs);
    MembersEmpty(ys);
    if xs != [] {
      AscendingHeads(xs, ys);
      AscendingTail(xs);
      AscendingTail(ys);
      AscendingIsCanonical(xs[1..], ys[1..]);
    }
  }

  // ---------------------------------------------------------------- sorting keys

  function Insert(x: Text, xs: seq<Text>): (r: seq<Text>) {
    if xs == [] || Less(x, xs[0]) then [x] + xs else [xs[0]] + Insert(x, xs[1..])
  }

  /** `Array.prototype.sort` on strings, as any stable comparison sort computes it. */
  function Sort(xs: seq<Text>): (r: seq<Text>) {
    if xs == [] then [] else Insert(xs[0], Sort(xs[1..]))
  }

  lemma {:induction false} InsertAscending(x: Text, xs: seq<Text>)
    requires Ascending(xs) && x !in xs
    ensures Ascending(Insert(x, xs)) && Members(Insert(x, xs)) == Members(xs) + {x}
  {
    if xs == [] {
    } else if Less(x, xs[0]) {
      var r := [x] + xs;
      forall j | 0 < j < |r| ensures Less(x, r[j]) {
        if j > 1 { LessTransitive(x, xs[0], xs[j - 1]); }
      }
    } else {
      LessTotal(x, xs[0]);
      AscendingTail(xs);
      InsertAscending(x, xs[1..]);
      var t := Insert(x, xs[1..]);
      forall j | 0 <= j < |t| ensures Less(xs[0], t[j]) {
        assert t[j] in Members(t);
        if t[j] != x {
          var k :| 0 <= k < |xs[1..]| && xs[1..][k] == t[j];
          assert xs[k + 1] == t[j];
        }
      }
      assert xs == [xs[0]] + xs[1..];
    }
  }

  predicate Distinct(xs: seq<Text>) {
    forall i, j :: 0 <= i < j < |xs| ==> xs[i] != xs[j]
  }

  lemma {:induction false} SortAscending(xs: seq<Text>)
    requires Distinct(xs)
    ensures Ascending(Sort(xs)) && Members(Sort(xs)) == Members(xs)
  {
    if xs != [] {
      assert Distinct(xs[1..]) by {
        forall i, j | 0 <= i < j < |xs[1..]| ensures xs[1..][i] != xs[1..][j] {
          assert xs[i + 1] != xs[j + 1];
        }
      }
      SortAscending(xs[1..]);
      assert xs[0] !in Sort(xs[1..]) by {
        assert forall y :: y in Sort(xs[1..]) <==> y in Members(Sort(xs[1..]));
        assert forall y :: y in xs[1..] <==> y in Members(xs[1..]);
      }
      InsertAscending(xs[0], Sort(xs[1..]));
      assert xs == [xs[0]] + xs[1..];
    }
  }

  /** Some listing of a finite set without repetition. */
  ghost function Listing(s: set<Text>): (r: seq<Text>)
    ensures Members(r) == s && Distinct(r)
  {
    if s == {} then []
    else
      var x :| x in s;
      var rest := Listing(s - {x});
      assert x !in rest by { assert Members(rest) == s - {x}; }
      assert Members([x] + rest) == {x} + Members(rest);
      [x] + rest
  }

  /** The one ascending listing of a set of keys. */
  ghost function SortedKeys(s: set<Text>): (r: seq<Text>)
    ensures Ascending(r) && Members(r) == s
  {
    SortAscending(Listing(s));
    Sort(Listing(s))
  }

  /** Sorting any enumeration of a set gives the same list, whatever order it came in. */
  lemma SortIgnoresOrder(xs: seq<Text>)
    requires Distinct(xs)
    ensures Sort(xs) == SortedKeys(Members(xs))
  {
    SortAscending(xs);
    AscendingIsCanonical(Sort(xs), SortedKeys(Members(xs)));
  }
}
