/**
 The authentication codecs (`lnsat-auth`): session tokens, the control-socket cookie parser
 and domain-separated digests. Header text is a sequence of bytes.
 */
module Auth {
  import opened Texts
  import opened Bytes
  import opened Grammar

  const DOT: Unit := 0x2E
  const SEMICOLON: Unit := 0x3B
  const EQUALS: Unit := 0x3D
  const SPACE: Unit := 0x20
  const TAB: Unit := 0x09

  const SES: Text := [0x73, 0x65, 0x73, 0x5F]
  const COOKIE_NAME: Text := Ascii("lnsat_session_v1")
  const MAX_HEADER: nat := 4096

  // ---------------------------------------------------------------- session tokens

  predicate LowerHex(t: Text, n: nat) { |t| == n && forall i :: 0 <= i < |t| ==> IsLowerHex(t[i]) }

  predicate SessionId(t: Text) { SES <= t && LowerHex(t[|SES|..], 32) }

  /** `local_session_id_from_token_v1`: the part before the first dot, if both parts are well formed. */
  function TokenSession(token: Text): (r: Option<Text>) {
    var dot := FirstIndex(token, DOT);
    if dot < |token| && SessionId(token[..dot]) && LowerHex(token[dot + 1..], 64)
    then Some(token[..dot]) else None
  }

  /** The token made from fresh random bytes. */
  function IssueToken(id: seq<Byte>, secret: seq<Byte>): Text {
    SES + EncodeHex(id) + [DOT] + EncodeHex(secret)
  }

  lemma FirstAfter(a: Text, u: Unit, b: Text)
    requires u !in a
    ensures FirstIndex(a + [u] + b, u) == |a|
    ensures (a + [u] + b)[..|a|] == a && (a + [u] + b)[|a| + 1..] == b
  {
    var t := a + [u] + b;
    assert t[|a|] == u;
    assert forall i :: 0 <= i < |a| ==> t[i] == a[i];
  }

  lemma NoDotInId(id: Text)
    requires SessionId(id)
    ensures DOT !in id
  {
  }

  /** Well-formed tokens are exactly an id, a dot and a secret, and they carry their id. */
  lemma TokenExact(token: Text, id: Text)
    ensures TokenSession(token) == Some(id) <==>
      SessionId(id) && exists secret :: LowerHex(secret, 64) && token == id + [DOT] + secret
  {
    if SessionId(id) {
      NoDotInId(id);
      if secret :| LowerHex(secret, 64) && token == id + [DOT] + secret {
        FirstAfter(id, DOT, secret);
      }
    }
    if TokenSession(token) == Some(id) {
      var secret := token[|id| + 1..];
      assert token == id + [DOT] + secret;
    }
  }

  /** Every issued token is accepted and names its session; different bytes give different tokens. */
  lemma TokenRoundTrip(id: seq<Byte>, secret: seq<Byte>)
    requires |id| == 16 && |secret| == 32
    ensures TokenSession(IssueToken(id, secret)) == Some(SES + EncodeHex(id))
    ensures DecodeHex(TokenSession(IssueToken(id, secret)).value[4..]) == Some(id)
    ensures DecodeHex(IssueToken(id, secret)[37..]) == Some(secret)
  {
    var head := SES + EncodeHex(id);
    assert head[|SES|..] == EncodeHex(id);
    assert IssueToken(id, secret) == head + [DOT] + EncodeHex(secret);
    TokenExact(IssueToken(id, secret), head);
    HexRoundTrip(id);
    HexRoundTrip(secret);
    assert IssueToken(id, secret)[37..] == EncodeHex(secret);
  }

  // ---------------------------------------------------------------- digests

  function DomainDigest(sha256: seq<Byte> -> Digest, domain: seq<Byte>, value: seq<Byte>): Text {
    SHA256_PREFIX + EncodeHex(sha256(Frame(domain, value)))
  }

  /** `verify_domain_digest`: None for malformed evidence. */
  function VerifyDigest(sha256: seq<Byte> -> Digest, domain: seq<Byte>, value: seq<Byte>, evidence: Text): Option<bool> {
    var expected := DecodeSha256(evidence);
    if expected.None? then None else Some(sha256(Frame(domain, value)) == expected.value)
  }

  /** Evidence verifies exactly when it is the text of this value's digest. */
  lemma DigestVerifies(sha256: seq<Byte> -> Digest, domain: seq<Byte>, value: seq<Byte>, evidence: Text)
    ensures VerifyDigest(sha256, domain, value, evidence) == Some(true) <==> evidence == DomainDigest(sha256, domain, value)
  {
    var d := sha256(Frame(domain, value));
    HexRoundTrip(d);
    assert (SHA256_PREFIX + EncodeHex(d))[7..] == EncodeHex(d);
    if DecodeSha256(evidence).Some? {
      HexCanonical(evidence[7..]);
      assert evidence == SHA256_PREFIX + evidence[7..];
    }
  }

  // ---------------------------------------------------------------- the cookie header

  datatype Result = Ok(token: Text) | CookieRejected | DuplicateAuthCookie | SessionRejected

  /** Token characters of section 5.6.2 of RFC 9110. */
  predicate NameByte(u: Unit) {
    || IsLower(u) || IsUpper(u) || IsDigit(u) || u == 0x21 || 0x23 <= u <= 0x27
    || u in {0x2A, 0x2B, 0x2D, 0x2E, 0x5E, 0x5F, 0x60, 0x7C, 0x7E}
  }

  /** Cookie octets of section 4.1.1 of RFC 6265. */
  predicate ValueByte(u: Unit) {
    u == 0x21 || 0x23 <= u <= 0x2B || 0x2D <= u <= 0x3A || 0x3C <= u <= 0x5B || 0x5D <= u <= 0x7E
  }

  predicate CookieName(t: Text) { t != [] && forall i :: 0 <= i < |t| ==> NameByte(t[i]) }

  predicate CookieValue(t: Text) { forall i :: 0 <= i < |t| ==> ValueByte(t[i]) }

  predicate Blank(u: Unit) { u == SPACE || u == TAB }

  function TrimStart(t: Text): Text { if t != [] && Blank(t[0]) then TrimStart(t[1..]) else t }

  function TrimEnd(t: Text): Text { if t != [] && Blank(t[|t| - 1]) then TrimEnd(t[..|t| - 1]) else t }

  function Trim(t: Text): Text { TrimEnd(TrimStart(t)) }

  function Split(t: Text): (r: seq<Text>)
    ensures |r| > 0
    decreases |t|
  {
    var i := FirstIndex(t, SEMICOLON);
    if i == |t| then [t] else [t[..i]] + Split(t[i + 1..])
  }

  datatype Pair = Pair(name: Text, value: Text)

  function SplitPair(piece: Text): Option<Pair> {
    var t := Trim(piece);
    var i := FirstIndex(t, EQUALS);
    if i < |t| && CookieName(t[..i]) && CookieValue(t[i + 1..]) then Some(Pair(t[..i], t[i + 1..])) else None
  }

  /** The loop over the pieces, by recursion; `session` is what has been found so far. */
  function Scan(pieces: seq<Text>, session: Option<Text>): Result {
    if pieces == [] then
      if session.Some? && TokenSession(session.value).Some? then Ok(session.value) else SessionRejected
    else
      var pair := SplitPair(pieces[0]);
      if pair.None? then CookieRejected
      else if pair.value.name != COOKIE_NAME then Scan(pieces[1..], session)
      else if session.Some? then DuplicateAuthCookie
      else Scan(pieces[1..], Some(pair.value.value))
  }

  function ParseCookie(header: Option<Text>): Result {
    if header.None? || header.value == [] || |header.value| > MAX_HEADER then CookieRejected
    else Scan(Split(header.value), None)
  }

  /** `parse_local_control_session_cookie_v1` as the loop it is. */
  method ParseControlCookie(header: Option<seq<Byte>>) returns (r: Result)
    ensures r == ParseCookie(header)
  {
    if header.None? || header.value == [] || |header.value| > MAX_HEADER {
      return CookieRejected;
    }
    var pieces := Split(header.value);
    var session: Option<Text> := None;
    var i := 0;
    while i < |pieces|
      invariant 0 <= i <= |pieces|
      invariant Scan(pieces[i..], session) == ParseCookie(header)
    {
      assert pieces[i..][1..] == pieces[i + 1..];
      var pair := SplitPair(pieces[i]);
      if pair.None? {
        return CookieRejected;
      }
      if pair.value.name == COOKIE_NAME {
        if session.Some? {
          return DuplicateAuthCookie;
        }
        session := Some(pair.value.value);
      }
      i := i + 1;
    }
    if session.Some? && TokenSession(session.value).Some? {
      return Ok(session.value);
    }
    return SessionRejected;
  }

  // ---------------------------------------------------------------- what the parser accepts

  function SessionValues(pairs: seq<Pair>): seq<Text> {
    if pairs == [] then []
    else (if pairs[0].name == COOKIE_NAME then [pairs[0].value] else []) + SessionValues(pairs[1..])
  }

  /** The answer for a list of well-formed pairs, from the session cookies among them alone. */
  function Answer(values: seq<Text>): Result {
    if |values| > 1 then DuplicateAuthCookie
    else if |values| == 1 && TokenSession(values[0]).Some? then Ok(values[0])
    else SessionRejected
  }

  /** Each piece reads as the pair in its place. */
  predicate ReadsBy(read: Text -> Option<Pair>, pieces: seq<Text>, pairs: seq<Pair>) {
    |pieces| == |pairs| && forall i :: 0 <= i < |pieces| ==> read(pieces[i]) == Some(pairs[i])
  }

  /** `pieces` are well-formed pairs, in order. */
  predicate Reads(pieces: seq<Text>, pairs: seq<Pair>) { ReadsBy(SplitPair, pieces, pairs) }

  function Found(session: Option<Text>): seq<Text> { if session.Some? then [session.value] else [] }

  lemma {:induction false} ScanReads(pieces: seq<Text>, pairs: seq<Pair>, session: Option<Text>)
    requires Reads(pieces, pairs)
    ensures Scan(pieces, session) == Answer(Found(session) + SessionValues(pairs))
  {
    if pieces == [] {
      assert Found(session) + SessionValues(pairs) == Found(session);
    } else {
      var rest := pairs[1..];
      assert Reads(pieces[1..], rest);
      if pairs[0].name != COOKIE_NAME {
        ScanReads(pieces[1..], rest, session);
        assert SessionValues(pairs) == SessionValues(rest);
      } else if session.None? {
        ScanReads(pieces[1..], rest, Some(pairs[0].value));
        assert Found(session) + SessionValues(pairs) == [pairs[0].value] + SessionValues(rest);
      }
    }
  }

  lemma ReadsMore(read: Text -> Option<Pair>, piece: Text, pieces: seq<Text>, pair: Pair, pairs: seq<Pair>)
    requires read(piece) == Some(pair) && ReadsBy(read, pieces, pairs)
    ensures ReadsBy(read, [piece] + pieces, [pair] + pairs)
  {
  }

  lemma ScanStep(pieces: seq<Text>, session: Option<Text>)
    requires pieces != [] && Scan(pieces, session).Ok?
    ensures var pair := SplitPair(pieces[0]);
            && pair.Some?
            && Scan(pieces[1..], if pair.value.name == COOKIE_NAME then Some(pair.value.value) else session).Ok?
  {
  }

  lemma {:induction false} ScanAccepts(pieces: seq<Text>, session: Option<Text>) returns (pairs: seq<Pair>)
    requires Scan(pieces, session).Ok?
    ensures Reads(pieces, pairs)
  {
    pairs := [];
    if pieces != [] {
      ScanStep(pieces, session);
      var pair := SplitPair(pieces[0]).value;
      var rest := ScanAccepts(pieces[1..], if pair.name == COOKIE_NAME then Some(pair.value) else session);
      ReadsMore(SplitPair, pieces[0], pieces[1..], pair, rest);
      assert pieces == [pieces[0]] + pieces[1..];
      pairs := [pair] + rest;
    }
  }

  /**
   A token is returned exactly when a header of 1 to 4096 bytes splits into well-formed pairs
   of which one and only one is the session cookie, and that one holds a well-formed token.
   */
  lemma CookieAccepted(header: Text, token: Text)
    ensures ParseCookie(Some(header)) == Ok(token) <==>
      && 1 <= |header| <= MAX_HEADER && TokenSession(token).Some?
      && exists pairs :: Reads(Split(header), pairs) && SessionValues(pairs) == [token]
  {
    if header != [] && |header| <= MAX_HEADER {
      if ParseCookie(Some(header)) == Ok(token) {
        var pairs := ScanAccepts(Split(header), None);
        ScanReads(Split(header), pairs, None);
        assert Found(None) + SessionValues(pairs) == SessionValues(pairs);
      }
      if pairs :| Reads(Split(header), pairs) && SessionValues(pairs) == [token] {
        ScanReads(Split(header), pairs, None);
        assert Found(None) + SessionValues(pairs) == SessionValues(pairs);
      }
    }
  }

  // ---------------------------------------------------------------- pieces and pairs

  predicate AllBlank(t: Text) { forall i :: 0 <= i < |t| ==> Blank(t[i]) }

  /** `t` is `core` between blanks, and `core` neither starts nor ends with one. */
  ghost predicate TrimsTo(t: Text, core: Text) {
    && (core != [] ==> !Blank(core[0]) && !Blank(core[|core| - 1]))
    && exists a, b :: AllBlank(a) && AllBlank(b) && t == a + core + b
  }

  lemma {:induction false} TrimStartMeaning(t: Text) returns (a: Text)
    ensures AllBlank(a) && t == a + TrimStart(t) && (TrimStart(t) != [] ==> !Blank(TrimStart(t)[0]))
  {
    a := [];
    if t != [] && Blank(t[0]) {
      a := TrimStartMeaning(t[1..]);
      a := [t[0]] + a;
      assert t == [t[0]] + t[1..];
    }
  }

  lemma {:induction false} TrimEndMeaning(t: Text) returns (b: Text)
    ensures AllBlank(b) && t == TrimEnd(t) + b && (TrimEnd(t) != [] ==> !Blank(TrimEnd(t)[|TrimEnd(t)| - 1]))
  {
    b := [];
    if t != [] && Blank(t[|t| - 1]) {
      b := TrimEndMeaning(t[..|t| - 1]);
      b := b + [t[|t| - 1]];
      assert t == t[..|t| - 1] + [t[|t| - 1]];
    }
  }

  lemma TrimMeaning(t: Text)
    ensures TrimsTo(t, Trim(t))
  {
    var a := TrimStartMeaning(t);
    var m := TrimStart(t);
    var b := TrimEndMeaning(m);
    assert t == a + Trim(t) + b;
    if Trim(t) != [] { assert m[0] == Trim(t)[0]; }
  }

  /** A piece reads as a pair exactly when, without its blanks, it is a name, an equals sign and a value. */
  lemma SplitPairMeaning(piece: Text, pair: Pair)
    ensures SplitPair(piece) == Some(pair) <==>
      CookieName(pair.name) && CookieValue(pair.value) && Trim(piece) == pair.name + [EQUALS] + pair.value
  {
    var t := Trim(piece);
    if CookieName(pair.name) && t == pair.name + [EQUALS] + pair.value {
      assert EQUALS !in pair.name;
      FirstAfter(pair.name, EQUALS, pair.value);
    }
    if SplitPair(piece) == Some(pair) {
      var i := FirstIndex(t, EQUALS);
      assert t == t[..i] + [EQUALS] + t[i + 1..];
    }
  }

  function Join(pieces: seq<Text>): Text
    requires pieces != []
  {
    if |pieces| == 1 then pieces[0] else pieces[0] + [SEMICOLON] + Join(pieces[1..])
  }

  /** Splitting cuts at every semicolon and nowhere else. */
  lemma {:induction false} SplitMeaning(t: Text)
    ensures Join(Split(t)) == t && forall i :: 0 <= i < |Split(t)| ==> SEMICOLON !in Split(t)[i]
    decreases |t|
  {
    var i := FirstIndex(t, SEMICOLON);
    if i < |t| {
      SplitMeaning(t[i + 1..]);
      JoinStep(t[..i], Split(t[i + 1..]));
      assert t == t[..i] + [SEMICOLON] + t[i + 1..];
    }
  }

  lemma JoinStep(piece: Text, pieces: seq<Text>)
    requires pieces != []
    ensures Join([piece] + pieces) == piece + [SEMICOLON] + Join(pieces)
  {
    assert ([piece] + pieces)[1..] == pieces;
  }

  // ---------------------------------------------------------------- printing and parsing

  predicate CookiePair(p: Pair) { CookieName(p.name) && CookieValue(p.value) }

  function PrintPair(p: Pair): Text { p.name + [EQUALS] + p.value }

  /** Pairs joined by a semicolon and a space, the way clients send them. */
  function PrintPairs(pairs: seq<Pair>): Text {
    if pairs == [] then []
    else if |pairs| == 1 then PrintPair(pairs[0])
    else PrintPair(pairs[0]) + [SEMICOLON] + ([SPACE] + PrintPairs(pairs[1..]))
  }

  predicate Visible(t: Text) { forall i :: 0 <= i < |t| ==> !Blank(t[i]) && t[i] != SEMICOLON }

  lemma PairVisible(p: Pair)
    requires CookiePair(p)
    ensures PrintPair(p) != [] && Visible(PrintPair(p)) && EQUALS !in p.name
  {
  }

  lemma TrimVisible(t: Text)
    requires Visible(t)
    ensures Trim(t) == t && Trim([SPACE] + t) == t
  {
  }

  lemma PairReads(p: Pair)
    requires CookiePair(p)
    ensures SplitPair(PrintPair(p)) == Some(p) && SplitPair([SPACE] + PrintPair(p)) == Some(p)
  {
    PairVisible(p);
    TrimVisible(PrintPair(p));
    FirstAfter(p.name, EQUALS, p.value);
  }

  lemma SplitFirst(a: Text, b: Text)
    requires SEMICOLON !in a
    ensures Split(a) == [a] && Split(a + [SEMICOLON] + b) == [a] + Split(b)
  {
    FirstAfter(a, SEMICOLON, b);
  }

  function Lead(space: bool): Text { if space then [SPACE] else [] }

  /** A way of reading pieces that undoes the printing of one pair. */
  ghost predicate Undoes(read: Text -> Option<Pair>) {
    forall p :: CookiePair(p) ==> read(PrintPair(p)) == Some(p) && read([SPACE] + PrintPair(p)) == Some(p)
  }

  lemma FirstPiece(read: Text -> Option<Pair>, p: Pair, space: bool)
    requires CookiePair(p) && Undoes(read)
    ensures read(Lead(space) + PrintPair(p)) == Some(p)
    ensures SEMICOLON !in Lead(space) + PrintPair(p)
  {
    PairVisible(p);
    if !space { assert Lead(space) + PrintPair(p) == PrintPair(p); }
  }

  lemma Regroup(a: Text, b: Text, c: Text, d: Text)
    ensures a + (b + c + d) == (a + b) + c + d
  {
  }

  /** The pieces of a text that begins with a printed pair. */
  lemma SplitPrinted(read: Text -> Option<Pair>, p: Pair, space: bool, rest: Text)
    requires CookiePair(p) && Undoes(read)
    ensures read(Lead(space) + PrintPair(p)) == Some(p)
    ensures Split(Lead(space) + PrintPair(p)) == [Lead(space) + PrintPair(p)]
    ensures Split(Lead(space) + (PrintPair(p) + [SEMICOLON] + rest)) == [Lead(space) + PrintPair(p)] + Split(rest)
  {
    FirstPiece(read, p, space);
    SplitFirst(Lead(space) + PrintPair(p), rest);
    Regroup(Lead(space), PrintPair(p), [SEMICOLON], rest);
  }

  lemma {:induction false} PrintedSplits(read: Text -> Option<Pair>, pairs: seq<Pair>, space: bool)
    requires pairs != [] && (forall i :: 0 <= i < |pairs| ==> CookiePair(pairs[i])) && Undoes(read)
    ensures ReadsBy(read, Split(Lead(space) + PrintPairs(pairs)), pairs)
  {
    var p, tail := pairs[0], pairs[1..];
    var first, rest := Lead(space) + PrintPair(p), [SPACE] + PrintPairs(tail);
    assert pairs == [p] + tail;
    SplitPrinted(read, p, space, rest);
    if tail == [] {
      assert PrintPairs(pairs) == PrintPair(p);
      ReadsMore(read, first, [], p, []);
    } else {
      assert PrintPairs(pairs) == PrintPair(p) + [SEMICOLON] + rest;
      PrintedSplits(read, tail, true);
      ReadsMore(read, first, Split(rest), p, tail);
    }
  }

  lemma SplitPairUndoes()
    ensures Undoes(SplitPair)
  {
    forall p | CookiePair(p)
      ensures SplitPair(PrintPair(p)) == Some(p) && SplitPair([SPACE] + PrintPair(p)) == Some(p)
    {
      PairReads(p);
    }
  }

  /** Parsing a printed list of pairs answers from the session cookies in the list. */
  lemma PrintedCookieParses(pairs: seq<Pair>)
    requires forall i :: 0 <= i < |pairs| ==> CookiePair(pairs[i])
    ensures ParseCookie(Some(PrintPairs(pairs)))
         == if pairs == [] || |PrintPairs(pairs)| > MAX_HEADER then CookieRejected else Answer(SessionValues(pairs))
  {
    if pairs != [] {
      PairVisible(pairs[0]);
      SplitPairUndoes();
      PrintedSplits(SplitPair, pairs, false);
      assert Lead(false) + PrintPairs(pairs) == PrintPairs(pairs);
      ScanReads(Split(PrintPairs(pairs)), pairs, None);
      assert Found(None) + SessionValues(pairs) == SessionValues(pairs);
    }
  }
}
