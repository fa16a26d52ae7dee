/**
 Two imperative pieces of the knowledge gateway: request validation, which pushes onto one
 shared list of errors and runs the envelope check twice, and the filter that blanks every
 line outside the wanted sections of a document.
 */
module Gateway {
  import opened Texts

  /** Two errors can agree in code and path and differ in message. */
  datatype Error = Error(code: Text, path: Text, message: Message)

  datatype Message =
    BlockedField | UnexpectedField | BlockedCollection | BlockedEffects | BlockedCredential | UnsafeId | NotPositive

  /** A request value as far as validation looks at it. */
  datatype Value = True | Word(text: Text) | EmptyList | Whole(positive: bool) | Something

  datatype Field = Field(key: Text, value: Value)

  /** The fixed tables and patterns of the gateway. */
  datatype Rules = Rules(
    allowed: set<Text>, forbidden: map<Text, Text>, credential: Text -> bool, pointer: Text -> Text,
    requestId: Text -> bool, positiveWord: Text -> bool)

  const LIVE: Text := Ascii("live_collection_allowed")
  const SIDE_EFFECTS: Text := Ascii("side_effects")
  const REQUEST_ID: Text := Ascii("request_id")
  const LIMIT: Text := Ascii("limit")
  const TRUE_WORD: Text := Ascii("true")

  const UNEXPECTED: Text := Ascii("knowledge_gateway.unexpected_field")
  const NO_LIVE: Text := Ascii("knowledge_gateway.forbidden_live_collection")
  const NO_MUTATION: Text := Ascii("knowledge_gateway.forbidden_mutation")
  const NO_CREDENTIAL: Text := Ascii("knowledge_gateway.forbidden_credential")
  const BAD_ID: Text := Ascii("knowledge_gateway.invalid_request_id")
  const BAD_LIMIT: Text := Ascii("knowledge_gateway.invalid_limit")

  function At(input: seq<Field>, key: Text): Option<Value> {
    if input == [] then None else if input[0].key == key then Some(input[0].value) else At(input[1..], key)
  }

  // ---------------------------------------------------------------- which errors

  function KeyErrors(r: Rules, input: seq<Field>): seq<Error> {
    if input == [] then []
    else
      var f := input[0];
      (if f.key in r.allowed then []
       else if f.key in r.forbidden then [Error(r.forbidden[f.key], r.pointer(f.key), BlockedField)]
       else [Error(UNEXPECTED, r.pointer(f.key), UnexpectedField)])
      + KeyErrors(r, input[1..])
  }

  function CredentialErrors(r: Rules, input: seq<Field>): seq<Error> {
    if input == [] then []
    else
      var f := input[0];
      (if f.value.Word? && r.credential(f.value.text) then [Error(NO_CREDENTIAL, r.pointer(f.key), BlockedCredential)] else [])
      + CredentialErrors(r, input[1..])
  }

  function FlagErrors(r: Rules, input: seq<Field>): seq<Error> {
    var live, effects := At(input, LIVE), At(input, SIDE_EFFECTS);
    (if live in {Some(True), Some(Word(TRUE_WORD))} then [Error(NO_LIVE, r.pointer(LIVE), BlockedCollection)] else [])
    + (if effects.Some? && effects != Some(EmptyList) then [Error(NO_MUTATION, r.pointer(SIDE_EFFECTS), BlockedEffects)] else [])
  }

  /** `validateRequestEnvelope`. */
  function EnvelopeErrors(r: Rules, input: seq<Field>): seq<Error> {
    KeyErrors(r, input) + FlagErrors(r, input) + CredentialErrors(r, input)
  }

  function IdErrors(r: Rules, input: seq<Field>): seq<Error> {
    var id := At(input, REQUEST_ID);
    if id.Some? && !(id.value.Word? && r.requestId(id.value.text)) then [Error(BAD_ID, r.pointer(REQUEST_ID), UnsafeId)] else []
  }

  function LimitErrors(r: Rules, input: seq<Field>): seq<Error> {
    var limit := At(input, LIMIT);
    if limit.None? || limit == Some(Whole(true)) || (limit.value.Word? && r.positiveWord(limit.value.text)) then []
    else [Error(BAD_LIMIT, r.pointer(LIMIT), NotPositive)]
  }

  // ---------------------------------------------------------------- what is an error

  /** An object's own keys are distinct. */
  predicate OwnKeys(input: seq<Field>) { forall i, j :: 0 <= i < j < |input| ==> input[i].key != input[j].key }

  lemma {:induction false} AtMeaning(input: seq<Field>, key: Text, v: Value)
    requires OwnKeys(input)
    ensures At(input, key) == Some(v) <==> Field(key, v) in input
  {
    if input != [] {
      AtMeaning(input[1..], key, v);
      assert forall f :: f in input[1..] ==> f.key != input[0].key;
      assert input == [input[0]] + input[1..];
    }
  }

  /** A key outside the allowed ones is reported under its own code if it has one. */
  predicate KeyFault(r: Rules, f: Field, e: Error) {
    && f.key !in r.allowed && e.path == r.pointer(f.key)
    && (f.key in r.forbidden ==> e.code == r.forbidden[f.key] && e.message == BlockedField)
    && (f.key !in r.forbidden ==> e.code == UNEXPECTED && e.message == UnexpectedField)
  }

  predicate CredentialFault(r: Rules, f: Field, e: Error) {
    f.value.Word? && r.credential(f.value.text) && e == Error(NO_CREDENTIAL, r.pointer(f.key), BlockedCredential)
  }

  /** A field that is only wrong for its value. */
  predicate ValueFault(r: Rules, f: Field, e: Error) {
    || (f.key == LIVE && f.value in {True, Word(TRUE_WORD)} && e == Error(NO_LIVE, r.pointer(LIVE), BlockedCollection))
    || (f.key == SIDE_EFFECTS && f.value != EmptyList && e == Error(NO_MUTATION, r.pointer(SIDE_EFFECTS), BlockedEffects))
    || (f.key == REQUEST_ID && !(f.value.Word? && r.requestId(f.value.text))
        && e == Error(BAD_ID, r.pointer(REQUEST_ID), UnsafeId))
    || (f.key == LIMIT && f.value != Whole(true) && !(f.value.Word? && r.positiveWord(f.value.text))
        && e == Error(BAD_LIMIT, r.pointer(LIMIT), NotPositive))
  }

  predicate Fault(r: Rules, f: Field, e: Error) { KeyFault(r, f, e) || CredentialFault(r, f, e) || ValueFault(r, f, e) }

  lemma {:induction false} KeyErrorsMeaning(r: Rules, input: seq<Field>, e: Error)
    ensures e in KeyErrors(r, input) <==> exists f :: f in input && KeyFault(r, f, e)
  {
    if input != [] {
      KeyErrorsMeaning(r, input[1..], e);
      var tail := KeyErrors(r, input[1..]);
      if e in KeyErrors(r, input) && e !in tail { assert KeyFault(r, input[0], e); }
      if f :| f in input && KeyFault(r, f, e) {
        assert f == input[0] || f in input[1..];
        if f == input[0] { assert KeyErrors(r, input) == [e] + tail; }
      }
    }
  }

  lemma {:induction false} CredentialErrorsMeaning(r: Rules, input: seq<Field>, e: Error)
    ensures e in CredentialErrors(r, input) <==> exists f :: f in input && CredentialFault(r, f, e)
  {
    if input != [] {
      CredentialErrorsMeaning(r, input[1..], e);
      var tail := CredentialErrors(r, input[1..]);
      if e in CredentialErrors(r, input) && e !in tail { assert CredentialFault(r, input[0], e); }
      if f :| f in input && CredentialFault(r, f, e) {
        assert f == input[0] || f in input[1..];
        if f == input[0] { assert CredentialErrors(r, input) == [e] + tail; }
      }
    }
  }

  lemma ValueErrorsMeaning(r: Rules, input: seq<Field>, e: Error)
    requires OwnKeys(input)
    ensures e in FlagErrors(r, input) + IdErrors(r, input) + LimitErrors(r, input) <==>
      exists f :: f in input && ValueFault(r, f, e)
  {
    forall key, v ensures At(input, key) == Some(v) <==> Field(key, v) in input { AtMeaning(input, key, v); }
    var es := FlagErrors(r, input) + IdErrors(r, input) + LimitErrors(r, input);
    if e in es {
      var key := if e.message.UnsafeId? then REQUEST_ID else if e.message.NotPositive? then LIMIT
                 else if e.message.BlockedEffects? then SIDE_EFFECTS else LIVE;
      assert ValueFault(r, Field(key, At(input, key).value), e);
    }
    if f :| f in input && ValueFault(r, f, e) { assert At(input, f.key) == Some(f.value) by { assert f == Field(f.key, f.value); } }
  }

  /** The search request has an error exactly where one of its fields is at fault. */
  lemma SearchFaults(r: Rules, input: seq<Field>, e: Error)
    requires OwnKeys(input)
    ensures e in EnvelopeErrors(r, input) + IdErrors(r, input) + LimitErrors(r, input) <==>
      exists f :: f in input && Fault(r, f, e)
  {
    KeyErrorsMeaning(r, input, e);
    CredentialErrorsMeaning(r, input, e);
    ValueErrorsMeaning(r, input, e);
    if f :| f in input && KeyFault(r, f, e) { assert Fault(r, f, e); }
    if f :| f in input && CredentialFault(r, f, e) { assert Fault(r, f, e); }
    if f :| f in input && ValueFault(r, f, e) { assert Fault(r, f, e); }
    if f :| f in input && Fault(r, f, e) {
      assert KeyFault(r, f, e) || CredentialFault(r, f, e) || ValueFault(r, f, e);
    }
  }

  // ---------------------------------------------------------------- de-duplication

  /** The string the source keys errors by: code, colon, path. */
  function Key(e: Error): Text { e.code + [0x3A] + e.path }

  /** With codes that hold no colon, equal keys mean equal code and path. */
  lemma KeyMeaning(a: Error, b: Error)
    requires 0x3A !in a.code && 0x3A !in b.code
    ensures Key(a) == Key(b) <==> a.code == b.code && a.path == b.path
  {
    JoinInjective(a.code, a.path, b.code, b.path, 0x3A);
  }

  function Keys(es: seq<Error>): set<Text> { set e | e in es :: Key(e) }

  /** First occurrences only, given the keys already seen. */
  function Dedupe(es: seq<Error>, seen: set<Text>): seq<Error> {
    if es == [] then []
    else if Key(es[0]) in seen then Dedupe(es[1..], seen)
    else [es[0]] + Dedupe(es[1..], seen + {Key(es[0])})
  }

  /** `dedupeGatewayErrors`, with its set of keys. */
  method DedupeErrors(es: seq<Error>) returns (kept: seq<Error>)
    ensures kept == Dedupe(es, {})
  {
    var seen: set<Text> := {};
    kept := [];
    var i := 0;
    while i < |es|
      invariant 0 <= i <= |es|
      invariant kept + Dedupe(es[i..], seen) == Dedupe(es, {})
    {
      assert es[i..][1..] == es[i + 1..];
      if Key(es[i]) !in seen {
        kept := kept + [es[i]];
        seen := seen + {Key(es[i])};
      }
      i := i + 1;
    }
  }

  lemma DedupeStep(e: Error, es: seq<Error>, seen: set<Text>)
    ensures Dedupe([e] + es, seen)
         == if Key(e) in seen then Dedupe(es, seen) else [e] + Dedupe(es, seen + {Key(e)})
  {
    assert ([e] + es)[1..] == es;
  }

  lemma {:induction false} DedupeAppend(a: seq<Error>, b: seq<Error>, seen: set<Text>)
    ensures Dedupe(a + b, seen) == Dedupe(a, seen) + Dedupe(b, seen + Keys(a))
  {
    if a == [] {
      assert a + b == b && seen + Keys(a) == seen;
    } else {
      var e, rest := a[0], a[1..];
      assert a == [e] + rest && a + b == [e] + (rest + b);
      DedupeStep(e, rest, seen);
      DedupeStep(e, rest + b, seen);
      KeysNext(a, seen);
      if Key(e) in seen {
        DedupeAppend(rest, b, seen);
      } else {
        DedupeAppend(rest, b, seen + {Key(e)});
        Assoc([e], Dedupe(rest, seen + {Key(e)}), Dedupe(b, seen + Keys(a)));
      }
    }
  }

  lemma Assoc(a: seq<Error>, b: seq<Error>, c: seq<Error>)
    ensures a + (b + c) == a + b + c
  {
  }

  lemma KeysNext(a: seq<Error>, seen: set<Text>)
    requires a != []
    ensures seen + {Key(a[0])} + Keys(a[1..]) == seen + Keys(a)
    ensures Key(a[0]) in seen ==> seen + Keys(a[1..]) == seen + Keys(a)
  {
    KeysStep(a);
  }

  lemma KeysStep(es: seq<Error>)
    requires es != []
    ensures Keys(es) == {Key(es[0])} + Keys(es[1..])
  {
    assert es == [es[0]] + es[1..];
  }

  lemma {:induction false} DedupeSeen(es: seq<Error>, seen: set<Text>)
    requires Keys(es) <= seen
    ensures Dedupe(es, seen) == []
  {
    if es != [] {
      assert Key(es[0]) in Keys(es);
      assert Keys(es[1..]) <= Keys(es);
      DedupeSeen(es[1..], seen);
    }
  }

  /** Repeating errors that are already in the list changes nothing. */
  lemma RepeatedErrorsVanish(e: seq<Error>, r: seq<Error>, l: seq<Error>)
    ensures Dedupe(e + r + e + l, {}) == Dedupe(e + r + l, {})
  {
    DedupeAppend(e + r + e, l, {});
    DedupeAppend(e + r, e, {});
    assert Keys(e) <= Keys(e + r);
    DedupeSeen(e, {} + Keys(e + r));
    assert Keys(e + r + e) == Keys(e + r);
    DedupeAppend(e + r, l, {});
  }

  /** No two errors with one key, and none seen before. */
  ghost predicate Fresh(es: seq<Error>, seen: set<Text>) {
    && (forall i :: 0 <= i < |es| ==> Key(es[i]) !in seen)
    && (forall i, j :: 0 <= i < j < |es| ==> Key(es[i]) != Key(es[j]))
  }

  lemma {:induction false} DedupeFresh(es: seq<Error>, seen: set<Text>)
    ensures Fresh(Dedupe(es, seen), seen)
  {
    if es != [] {
      if Key(es[0]) in seen { DedupeFresh(es[1..], seen); } else { DedupeFresh(es[1..], seen + {Key(es[0])}); }
    }
  }

  lemma {:induction false} FreshStays(es: seq<Error>, seen: set<Text>)
    requires Fresh(es, seen)
    ensures Dedupe(es, seen) == es
  {
    if es != [] {
      FreshStays(es[1..], seen + {Key(es[0])});
      assert es == [es[0]] + es[1..];
    }
  }

  /** De-duplicating twice is de-duplicating once. */
  lemma DedupeTwice(es: seq<Error>)
    ensures Dedupe(Dedupe(es, {}), {}) == Dedupe(es, {})
  {
    DedupeFresh(es, {});
    FreshStays(Dedupe(es, {}), {});
  }

  /** `e` stands in the list with nothing of its key before it. */
  ghost predicate StandsFirst(es: seq<Error>, i: nat, e: Error) {
    i < |es| && es[i] == e && forall j :: 0 <= j < i ==> Key(es[j]) != Key(e)
  }

  ghost predicate IsFirst(es: seq<Error>, e: Error) { exists i: nat :: StandsFirst(es, i, e) }

  /** Being first in a list is being its head, or first in the tail under another key. */
  lemma FirstOfTail(es: seq<Error>, e: Error)
    requires es != []
    ensures IsFirst(es, e) <==> es[0] == e || (Key(es[0]) != Key(e) && IsFirst(es[1..], e))
  {
    if i: nat :| StandsFirst(es, i, e) {
      if i > 0 { assert StandsFirst(es[1..], i - 1, e); }
    }
    if j: nat :| StandsFirst(es[1..], j, e) {
      if Key(es[0]) != Key(e) { assert StandsFirst(es, j + 1, e); }
    }
    if es[0] == e { assert StandsFirst(es, 0, e); }
  }

  /** An error survives exactly when no earlier one has its key. */
  lemma {:induction false} DedupeKeepsFirsts(es: seq<Error>, seen: set<Text>, e: Error)
    ensures e in Dedupe(es, seen) <==> Key(e) !in seen && IsFirst(es, e)
  {
    if es != [] {
      FirstOfTail(es, e);
      DedupeKeepsFirsts(es[1..], if Key(es[0]) in seen then seen else seen + {Key(es[0])}, e);
    }
  }

  // ---------------------------------------------------------------- the shared list

  /** The `errors` array that validators push onto. */
  class Errors {
    var items: seq<Error>

    constructor ()
      ensures items == []
    {
      items := [];
    }

    method ValidateKeys(r: Rules, input: seq<Field>)
      modifies this
      ensures items == old(items) + KeyErrors(r, input)
    {
      var i := 0;
      while i < |input|
        invariant 0 <= i <= |input|
        invariant items + KeyErrors(r, input[i..]) == old(items) + KeyErrors(r, input)
      {
        var f := input[i];
        assert input[i..][0] == f && input[i..][1..] == input[i + 1..];
        if f.key !in r.allowed {
          var error := if f.key in r.forbidden then Error(r.forbidden[f.key], r.pointer(f.key), BlockedField)
                       else Error(UNEXPECTED, r.pointer(f.key), UnexpectedField);
          items := items + [error];
        }
        i := i + 1;
      }
    }

    method ValidateCredentials(r: Rules, input: seq<Field>)
      modifies this
      ensures items == old(items) + CredentialErrors(r, input)
    {
      var i := 0;
      while i < |input|
        invariant 0 <= i <= |input|
        invariant items + CredentialErrors(r, input[i..]) == old(items) + CredentialErrors(r, input)
      {
        var f := input[i];
        assert input[i..][0] == f && input[i..][1..] == input[i + 1..];
        if f.value.Word? && r.credential(f.value.text) {
          items := items + [Error(NO_CREDENTIAL, r.pointer(f.key), BlockedCredential)];
        }
        i := i + 1;
      }
    }

    method ValidateEnvelope(r: Rules, input: seq<Field>)
      modifies this
      ensures items == old(items) + EnvelopeErrors(r, input)
    {
      ValidateKeys(r, input);
      items := items + FlagErrors(r, input);
      ValidateCredentials(r, input);
    }

    method ValidateRequestId(r: Rules, input: seq<Field>)
      modifies this
      ensures items == old(items) + IdErrors(r, input)
    {
      items := items + IdErrors(r, input);
    }

    method ValidateLimit(r: Rules, input: seq<Field>)
      modifies this
      ensures items == old(items) + LimitErrors(r, input)
    {
      items := items + LimitErrors(r, input);
    }
  }

  /**
   `normalizeSearchGatewayRequest` followed by the failure builder: although the envelope is
   validated twice into one list and the list is de-duplicated twice, the report is the
   de-duplication of one validation followed by the id and limit errors, and it is empty
   exactly when the request has no error.
   */
  method SearchErrors(r: Rules, input: seq<Field>) returns (report: seq<Error>)
    ensures report == Dedupe(EnvelopeErrors(r, input) + IdErrors(r, input) + LimitErrors(r, input), {})
    ensures report == [] <==> EnvelopeErrors(r, input) == [] && IdErrors(r, input) == [] && LimitErrors(r, input) == []
  {
    var errors := new Errors();
    errors.ValidateEnvelope(r, input);
    errors.ValidateRequestId(r, input);
    errors.ValidateEnvelope(r, input);
    errors.ValidateLimit(r, input);
    var once := DedupeErrors(errors.items);
    report := DedupeErrors(once);
    var e, i, l := EnvelopeErrors(r, input), IdErrors(r, input), LimitErrors(r, input);
    assert errors.items == e + i + e + l;
    DedupeTwice(errors.items);
    RepeatedErrorsVanish(e, i, l);
    assert e + i + l != [] ==> report != [] && report[0] == (e + i + l)[0];
  }

  // ---------------------------------------------------------------- sections of a document

  /** Line `i` lies in a wanted section: the last heading up to it is wanted. */
  ghost predicate InWanted(heading: Text -> bool, wanted: Text -> bool, lines: seq<Text>, i: nat)
    requires i < |lines|
  {
    exists j :: 0 <= j <= i && heading(lines[j]) && wanted(lines[j])
             && forall k :: j < k <= i ==> !heading(lines[k])
  }

  /** A heading decides for itself, any other line goes with the line before it. */
  lemma WantedStep(heading: Text -> bool, wanted: Text -> bool, lines: seq<Text>, n: nat)
    requires n < |lines|
    ensures InWanted(heading, wanted, lines, n) <==>
      if heading(lines[n]) then wanted(lines[n]) else n > 0 && InWanted(heading, wanted, lines, n - 1)
  {
    if InWanted(heading, wanted, lines, n) {
      var j :| 0 <= j <= n && heading(lines[j]) && wanted(lines[j]) && forall k :: j < k <= n ==> !heading(lines[k]);
    }
    if n > 0 && !heading(lines[n]) && InWanted(heading, wanted, lines, n - 1) {
      var j :| 0 <= j <= n - 1 && heading(lines[j]) && wanted(lines[j]) && forall k :: j < k <= n - 1 ==> !heading(lines[k]);
    }
  }

  /** A line is kept when it lies in a wanted section and is not forbidden, else it is blanked. */
  ghost function KeptLine(heading: Text -> bool, wanted: Text -> bool, forbidden: Text -> bool, lines: seq<Text>, i: nat): Text
    requires i < |lines|
  {
    if InWanted(heading, wanted, lines, i) && !forbidden(lines[i]) then lines[i] else []
  }

  /** `linePreservingSelectedSections` on the lines of a document. */
  method SelectSections(heading: Text -> bool, wanted: Text -> bool, forbidden: Text -> bool, lines: seq<Text>)
    returns (kept: seq<Text>)
    ensures |kept| == |lines|
    ensures forall i :: 0 <= i < |lines| ==> kept[i] == KeptLine(heading, wanted, forbidden, lines, i)
  {
    kept := [];
    var keep := false;
    var n := 0;
    while n < |lines|
      invariant 0 <= n <= |lines| && |kept| == n
      invariant keep <==> n > 0 && InWanted(heading, wanted, lines, n - 1)
      invariant forall i :: 0 <= i < n ==> kept[i] == KeptLine(heading, wanted, forbidden, lines, i)
    {
      WantedStep(heading, wanted, lines, n);
      if heading(lines[n]) {
        keep := wanted(lines[n]);
      }
      kept := kept + [if !keep || forbidden(lines[n]) then [] else lines[n]];
      n := n + 1;
    }
  }
}
