/**
 The identifier, reference and capability grammars of the contracts crate. The same rules
 appear in `packet.rs` and again in `approval.rs`; the model has each of them once.
 */
module Grammar {
  import opened Texts

  /** `char::is_whitespace`: the White_Space characters, all in the basic plane. */
  predicate IsWhitespace(u: Unit) {
    || 0x09 <= u <= 0x0D || u == 0x20 || u == 0x85 || u == 0xA0 || u == 0x1680
    || 0x2000 <= u <= 0x200A || u in {0x2028, 0x2029, 0x202F, 0x205F, 0x3000}
  }

  /** `char::is_control`. */
  predicate IsControl(u: Unit) { u < 0x20 || 0x7F <= u <= 0x9F }

  function FirstIndex(t: Text, u: Unit): (i: nat)
    ensures i <= |t| && (i < |t| ==> t[i] == u)
    ensures forall j :: 0 <= j < i ==> t[j] != u
    ensures i == |t| <==> u !in t
  {
    if t == [] then 0
    else if t[0] == u then 0
    else
      assert t == [t[0]] + t[1..];
      1 + FirstIndex(t[1..], u)
  }

  predicate SchemeUnit(u: Unit, index: nat) {
    if index == 0 then IsLower(u)
    else IsLower(u) || IsDigit(u) || u in {0x2B, 0x2E, 0x2D}
  }

  /** `valid_reference`: a lowercase scheme, a colon, and a bounded opaque remainder. */
  predicate Reference(t: Text) {
    var colon := FirstIndex(t, 0x3A);
    && colon < |t|
    && 0 < colon
    && (forall i :: 0 <= i < colon ==> SchemeUnit(t[i], i))
    && |t| <= 256
    && colon + 1 < |t|
    && ScalarCount(t[colon + 1..]) <= 240
    && forall i :: colon < i < |t| ==>
        !IsWhitespace(t[i]) && t[i] > 0x1F && t[i] != 0x7F
  }

  predicate ReferenceWith(t: Text, prefix: Text) { prefix <= t && Reference(t) }

  /** `valid_prefixed_identifier`. */
  predicate Identifier(t: Text, prefix: Text, min: nat, max: nat) {
    && prefix <= t
    && min <= |t| <= max
    && forall i :: |prefix| <= i < |t| ==>
        IsLower(t[i]) || IsDigit(t[i]) || (i > |prefix| && t[i] in {0x5F, 0x2D})
  }

  // ---------------------------------------------------------------- capability names

  predicate IsAlnum(u: Unit) { IsLower(u) || IsDigit(u) }

  predicate IsSeparator(u: Unit) { u in {0x2E, 0x5F, 0x3A, 0x2D} }

  function AlnumRun(t: Text): (n: nat)
    ensures n <= |t|
    ensures forall i :: 0 <= i < n ==> IsAlnum(t[i])
    ensures n < |t| ==> !IsAlnum(t[n])
  {
    if t == [] || !IsAlnum(t[0]) then 0 else 1 + AlnumRun(t[1..])
  }

  /** Zero or more groups: one separator, then at least one letter or digit. */
  predicate Groups(t: Text)
    decreases |t|
  {
    t == [] ||
    (IsSeparator(t[0]) && AlnumRun(t[1..]) > 0 && Groups(t[1 + AlnumRun(t[1..])..]))
  }

  /** The grammar: a lowercase letter, letters or digits, then groups; at most 128 long. */
  predicate Capability(t: Text) {
    t != [] && |t| <= 128 && IsLower(t[0]) && Groups(t[AlnumRun(t)..])
  }

  /** The same set of names, seen unit by unit. */
  predicate Spaced(t: Text) {
    && (forall i :: 0 <= i < |t| ==> IsAlnum(t[i]) || IsSeparator(t[i]))
    && (forall i :: 0 <= i < |t| && IsSeparator(t[i]) ==> i + 1 < |t| && IsAlnum(t[i + 1]))
  }

  lemma SpacedSuffix(t: Text, n: nat)
    requires n <= |t| && forall i :: 0 <= i < n ==> IsAlnum(t[i])
    ensures Spaced(t) <==> Spaced(t[n..])
  {
  }

  lemma {:induction false} GroupsAreSpaced(t: Text)
    requires t == [] || IsSeparator(t[0])
    ensures Groups(t) <==> Spaced(t)
    decreases |t|
  {
    if t != [] {
      var n := AlnumRun(t[1..]);
      var rest := t[1 + n..];
      assert t[1..][n..] == rest;
      SpacedSuffix(t[1..], n);
      assert Spaced(t) ==> n > 0 && Spaced(t[1..]) by {
        if Spaced(t) {
          assert IsAlnum(t[1..][0]);
          assert forall i :: 0 <= i < |t| - 1 ==> t[1..][i] == t[i + 1];
        }
      }
      if rest == [] || IsSeparator(rest[0]) {
        GroupsAreSpaced(rest);
        assert n > 0 && Spaced(t[1..]) ==> Spaced(t) by {
          assert forall i :: 1 <= i < |t| ==> t[i] == t[1..][i - 1];
        }
      } else {
        assert rest[0] == t[1..][n];
        assert !Spaced(rest);
      }
    }
  }

  lemma CapabilityIsSpaced(t: Text)
    ensures Capability(t) <==> t != [] && |t| <= 128 && IsLower(t[0]) && Spaced(t)
  {
    var n := AlnumRun(t);
    SpacedSuffix(t, n);
    var rest := t[n..];
    if rest == [] || IsSeparator(rest[0]) {
      GroupsAreSpaced(rest);
    } else {
      assert rest[0] == t[n];
    }
  }

  /** What the loop checks at one place, looking back. */
  predicate Admitted(t: Text, i: nat)
    requires i < |t|
  {
    && (IsAlnum(t[i]) || IsSeparator(t[i]))
    && (IsSeparator(t[i]) ==> 0 < i && !IsSeparator(t[i - 1]) && i + 1 < |t|)
  }

  lemma AdmittedIsSpaced(t: Text)
    requires t == [] || IsLower(t[0])
    ensures Spaced(t) <==> forall i :: 0 <= i < |t| ==> Admitted(t, i)
  {
    if Spaced(t) {
      forall i | 0 <= i < |t| ensures Admitted(t, i) {
        if i > 0 { assert IsSeparator(t[i - 1]) ==> IsAlnum(t[i]); }
      }
    }
    if forall i :: 0 <= i < |t| ==> Admitted(t, i) {
      forall i | 0 <= i < |t| && IsSeparator(t[i]) ensures i + 1 < |t| && IsAlnum(t[i + 1]) {
        assert Admitted(t, i);
        assert Admitted(t, i + 1);
      }
      forall i | 0 <= i < |t| ensures IsAlnum(t[i]) || IsSeparator(t[i]) { assert Admitted(t, i); }
    }
  }

  /** `valid_capability`: the loop remembers only whether the previous unit was a separator. */
  method ValidCapability(value: Text) returns (ok: bool)
    ensures ok <==> Capability(value)
  {
    CapabilityIsSpaced(value);
    if value == [] || |value| > 128 || !IsLower(value[0]) {
      return false;
    }
    AdmittedIsSpaced(value);
    var previousSeparator := false;
    var index := 0;
    while index < |value|
      invariant 0 <= index <= |value|
      invariant forall i :: 0 <= i < index ==> Admitted(value, i)
      invariant previousSeparator <==> index > 0 && IsSeparator(value[index - 1])
    {
      var separator := IsSeparator(value[index]);
      if (!IsLower(value[index]) && !IsDigit(value[index]) && !separator)
         || (separator && (index == 0 || previousSeparator || index + 1 == |value|))
      {
        return false;
      }
      previousSeparator := separator;
      index := index + 1;
    }
    return true;
  }

  /** The contracts' list check: every element well formed, neighbours in order. */
  predicate SortedReferences(values: seq<Text>) {
    (forall i :: 0 <= i < |values| ==> Reference(values[i])) && AdjacentAscending(values)
  }

  predicate SortedCapabilities(values: seq<Text>) {
    (forall i :: 0 <= i < |values| ==> Capability(values[i])) && AdjacentAscending(values)
  }
}
