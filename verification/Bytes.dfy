/**
 Bytes, their lowercase hexadecimal form, UTF-8 encoding and the domain-separated framing
 that the contracts and the authentication crate feed to SHA-256. The hash itself is a
 parameter of the model; what is proved is about the bytes that reach it.
 */
module Bytes {
  import opened Texts

  type Byte = b: int | 0 <= b < 256

  /** A SHA-256 result. */
  type Digest = d: seq<Byte> | |d| == 32 witness seq(32, _ => 0)

  // ---------------------------------------------------------------- hexadecimal

  function HexDigit(n: int): Unit
    requires 0 <= n < 16
  {
    if n < 10 then 0x30 + n else 0x61 + (n - 10)
  }

  function HexNibble(u: Unit): (r: Option<int>)
    ensures r.Some? <==> IsLowerHex(u)
    ensures r.Some? ==> 0 <= r.value < 16
  {
    if IsDigit(u) then Some(u - 0x30)
    else if 0x61 <= u <= 0x66 then Some(u - 0x61 + 10)
    else None
  }

  /** `format!("{byte:02x}")` for every byte in turn. */
  function EncodeHex(bytes: seq<Byte>): (t: Text)
    ensures |t| == 2 * |bytes|
    ensures forall i :: 0 <= i < |t| ==> IsLowerHex(t[i])
  {
    if bytes == [] then []
    else [HexDigit(bytes[0] / 16), HexDigit(bytes[0] % 16)] + EncodeHex(bytes[1..])
  }

  lemma EncodeHexStep(bytes: seq<Byte>, i: nat)
    requires i < |bytes|
    ensures EncodeHex(bytes[i..]) == [HexDigit(bytes[i] / 16), HexDigit(bytes[i] % 16)] + EncodeHex(bytes[i + 1..])
  {
  }

  /** `encode_lower_hex` and `lowercase_sha256`: two digits appended to a string per byte. */
  method AppendLowerHex(bytes: seq<Byte>) returns (output: Text)
    ensures output == EncodeHex(bytes)
  {
    output := [];
    var i := 0;
    while i < |bytes|
      invariant 0 <= i <= |bytes|
      invariant output + EncodeHex(bytes[i..]) == EncodeHex(bytes)
    {
      EncodeHexStep(bytes, i);
      output := output + [HexDigit(bytes[i] / 16), HexDigit(bytes[i] % 16)];
      i := i + 1;
    }
  }

  function DecodeHex(t: Text): (r: Option<seq<Byte>>)
    ensures r.Some? <==> |t| % 2 == 0 && forall i :: 0 <= i < |t| ==> IsLowerHex(t[i])
    ensures r.Some? ==> |r.value| == |t| / 2
  {
    if t == [] then Some([])
    else if |t| == 1 then None
    else
      var high, low, rest := HexNibble(t[0]), HexNibble(t[1]), DecodeHex(t[2..]);
      if high.None? || low.None? || rest.None? then
        None
      else
        Some([high.value * 16 + low.value] + rest.value)
  }

  lemma NibbleRoundTrip(b: Byte)
    ensures HexNibble(HexDigit(b / 16)) == Some(b / 16)
    ensures HexNibble(HexDigit(b % 16)) == Some(b % 16)
  {
  }

  lemma {:induction false} HexRoundTrip(bytes: seq<Byte>)
    ensures DecodeHex(EncodeHex(bytes)) == Some(bytes)
  {
    if bytes != [] {
      HexRoundTrip(bytes[1..]);
      NibbleRoundTrip(bytes[0]);
      assert bytes == [bytes[0]] + bytes[1..];
      assert EncodeHex(bytes)[2..] == EncodeHex(bytes[1..]);
    }
  }

  lemma {:induction false} HexCanonical(t: Text)
    requires DecodeHex(t).Some?
    ensures EncodeHex(DecodeHex(t).value) == t
  {
    if t != [] {
      HexCanonical(t[2..]);
      var b := DecodeHex(t).value;
      assert b[1..] == DecodeHex(t[2..]).value;
      assert t == t[..2] + t[2..];
    }
  }

  const SHA256_PREFIX: Text := Ascii("sha256:")

  function DecodeSha256(value: Text): (r: Option<seq<Byte>>)
    ensures r.Some? <==> PrefixedDigest(value, SHA256_PREFIX)
    ensures r.Some? ==> |r.value| == 32
  {
    if SHA256_PREFIX <= value && |value| == 71 then
      var hex := value[7..];
      assert forall i :: 7 <= i < |value| ==> value[i] == hex[i - 7];
      DecodeHex(hex)
    else None
  }

  /** Digits `2k` and `2k + 1` spell byte `b`. */
  predicate PairIs(hex: Text, k: nat, b: Byte) {
    && 2 * k + 1 < |hex|
    && HexNibble(hex[2 * k]).Some? && HexNibble(hex[2 * k + 1]).Some?
    && b == HexNibble(hex[2 * k]).value * 16 + HexNibble(hex[2 * k + 1]).value
  }

  lemma {:induction false} PairsDecode(hex: Text, bytes: seq<Byte>)
    requires |hex| == 2 * |bytes| && forall k :: 0 <= k < |bytes| ==> PairIs(hex, k, bytes[k])
    ensures DecodeHex(hex) == Some(bytes)
  {
    if bytes != [] {
      var t, b := hex[2..], bytes[1..];
      forall k | 0 <= k < |b| ensures PairIs(t, k, b[k]) {
        assert PairIs(hex, k + 1, bytes[k + 1]);
      }
      PairsDecode(t, b);
      assert PairIs(hex, 0, bytes[0]);
      assert bytes == [bytes[0]] + b;
    }
  }

  /** The loop form: a fixed buffer filled two digits at a time, given up at a bad digit. */
  method FillSha256(value: Text) returns (r: Option<seq<Byte>>)
    ensures r == DecodeSha256(value)
  {
    if !(SHA256_PREFIX <= value && |value| == 71) {
      return None;
    }
    var hex := value[7..];
    var output := new Byte[32](_ => 0);
    var index := 0;
    while index < 32
      invariant 0 <= index <= 32
      invariant forall k :: 0 <= k < index ==> PairIs(hex, k, output[k])
    {
      var high, low := HexNibble(hex[2 * index]), HexNibble(hex[2 * index + 1]);
      if high.None? || low.None? {
        return None;
      }
      output[index] := high.value * 16 + low.value;
      index := index + 1;
    }
    PairsDecode(hex, output[..]);
    return Some(output[..]);
  }

  // ---------------------------------------------------------------- UTF-8

  /** Bytes of one scalar value, section 3 of RFC 3629. */
  function Utf8Scalar(c: int): seq<Byte>
    requires 0 <= c < 0x110000
  {
    if c < 0x80 then [c]
    else if c < 0x800 then [0xC0 + c / 64, 0x80 + c % 64]
    else if c < 0x10000 then [0xE0 + c / 4096, 0x80 + c / 64 % 64, 0x80 + c % 64]
    else [0xF0 + c / 262144, 0x80 + c / 4096 % 64, 0x80 + c / 64 % 64, 0x80 + c % 64]
  }

  function Utf8(t: Text): seq<Byte> {
    if t == [] then []
    else if |t| > 1 && IsHighSurrogate(t[0]) && IsLowSurrogate(t[1]) then
      var high: int, low: int := t[0] - 0xD800, t[1] - 0xDC00;
      Utf8Scalar(0x10000 + high * 1024 + low) + Utf8(t[2..])
    else Utf8Scalar(t[0]) + Utf8(t[1..])
  }

  /** What a continuation byte adds. */
  function SixBits(b: seq<Byte>, i: nat): int {
    if i < |b| then
      var w: int := b[i];
      w - 0x80
    else 0
  }

  /** The scalar value that starts a text, and how many bytes it takes. */
  function DecodeScalar(b: seq<Byte>): (r: Option<(int, nat)>)
    requires b != []
    ensures r.Some? ==> 0 < r.value.1 <= |b|
  {
    var w: int, n := b[0], |b|;
    var x, y, z := SixBits(b, 1), SixBits(b, 2), SixBits(b, 3);
    if w < 0x80 then Some((w, 1))
    else if 0xC0 <= w < 0xE0 && n > 1 then Some(((w - 0xC0) * 64 + x, 2))
    else if 0xE0 <= w < 0xF0 && n > 2 then Some(((w - 0xE0) * 4096 + x * 64 + y, 3))
    else if 0xF0 <= w && n > 3 then Some(((w - 0xF0) * 262144 + x * 4096 + y * 64 + z, 4))
    else None
  }

  /** A scalar value beyond the basic plane is two code units. */
  function Units(c: int): Text
    requires 0 <= c < 0x110000
  {
    if c < 0x10000 then [c] else [0xD800 + (c - 0x10000) / 1024, 0xDC00 + (c - 0x10000) % 1024]
  }

  /** The code units of UTF-8 bytes. */
  function DecodeUtf8(b: seq<Byte>): Option<Text>
    decreases |b|
  {
    if b == [] then Some([])
    else
      var c := DecodeScalar(b);
      if c.None? || !(0 <= c.value.0 < 0x110000) then None
      else
        var rest := DecodeUtf8(b[c.value.1..]);
        if rest.None? then None else Some(Units(c.value.0) + rest.value)
  }

  lemma SixBitDigits(c: int)
    requires 0 <= c < 0x110000
    ensures c == c / 64 * 64 + c % 64
    ensures c == c / 4096 * 4096 + c / 64 % 64 * 64 + c % 64
    ensures c == c / 262144 * 262144 + c / 4096 % 64 * 4096 + c / 64 % 64 * 64 + c % 64
  {
    assert c / 64 / 64 == c / 4096 && c / 4096 / 64 == c / 262144;
  }

  lemma DecodeAppended(b: seq<Byte>, rest: seq<Byte>)
    requires b != [] && DecodeScalar(b).Some? && DecodeScalar(b).value.1 == |b|
    ensures DecodeScalar(b + rest) == DecodeScalar(b) && (b + rest)[|b|..] == rest
  {
    var t := b + rest;
    assert forall i :: 0 <= i < |b| ==> t[i] == b[i];
    assert forall i: nat :: i < |b| ==> SixBits(t, i) == SixBits(b, i);
  }

  lemma ScalarRoundTrip(c: int, rest: seq<Byte>)
    requires 0 <= c < 0x110000
    ensures DecodeScalar(Utf8Scalar(c) + rest) == Some((c, |Utf8Scalar(c)|))
    ensures (Utf8Scalar(c) + rest)[|Utf8Scalar(c)|..] == rest
  {
    SixBitDigits(c);
    DecodeAppended(Utf8Scalar(c), rest);
  }

  lemma DecodeStep(c: int, bytes: seq<Byte>, rest: Text)
    requires 0 <= c < 0x110000 && DecodeUtf8(bytes) == Some(rest)
    ensures DecodeUtf8(Utf8Scalar(c) + bytes) == Some(Units(c) + rest)
  {
    ScalarRoundTrip(c, bytes);
  }

  lemma PairUnits(t: Text)
    requires |t| > 1 && IsHighSurrogate(t[0]) && IsLowSurrogate(t[1])
    ensures var high: int, low: int := t[0] - 0xD800, t[1] - 0xDC00;
            0 <= 0x10000 + high * 1024 + low < 0x110000 && Units(0x10000 + high * 1024 + low) == t[..2]
  {
  }

  /** UTF-8 loses nothing: the bytes of any text, unpaired surrogates included, give it back. */
  lemma {:induction false} Utf8RoundTrip(t: Text)
    ensures DecodeUtf8(Utf8(t)) == Some(t)
    decreases |t|
  {
    if t != [] {
      if |t| > 1 && IsHighSurrogate(t[0]) && IsLowSurrogate(t[1]) {
        var high: int, low: int := t[0] - 0xD800, t[1] - 0xDC00;
        PairUnits(t);
        Utf8RoundTrip(t[2..]);
        DecodeStep(0x10000 + high * 1024 + low, Utf8(t[2..]), t[2..]);
        assert t == t[..2] + t[2..];
      } else {
        Utf8RoundTrip(t[1..]);
        DecodeStep(t[0], Utf8(t[1..]), t[1..]);
        assert t == [t[0]] + t[1..];
      }
    }
  }

  // ---------------------------------------------------------------- framing

  /** Domain, a zero byte, then the value: `domain_separated_sha256` hashes these bytes. */
  function Frame(domain: seq<Byte>, value: seq<Byte>): seq<Byte> {
    domain + [0] + value
  }

  /** Frames decode uniquely: domains that contain no zero byte never share a preimage. */
  lemma FrameInjective(d: seq<Byte>, v: seq<Byte>, e: seq<Byte>, w: seq<Byte>)
    requires 0 !in d && 0 !in e
    ensures Frame(d, v) == Frame(e, w) <==> d == e && v == w
  {
    if Frame(d, v) == Frame(e, w) {
      var f := Frame(d, v);
      assert f[|d|] == 0 && f[|e|] == 0;
      assert forall i :: 0 <= i < |d| ==> f[i] == d[i];
      assert forall i :: 0 <= i < |e| ==> f[i] == e[i];
      assert d == f[..|d|] == e;
      assert v == f[|d| + 1..] == w;
    }
  }

  /** `u32::to_be_bytes` of a length, saturated at the largest 32-bit value. */
  function LengthBytes(n: nat): (r: seq<Byte>)
    ensures |r| == 4
  {
    var m := if n < 0x1_0000_0000 then n else 0xFFFF_FFFF;
    [m / 0x100_0000, m / 0x1_0000 % 256, m / 256 % 256, m % 256]
  }

  /** The four bytes spell the length, most significant first. */
  lemma LengthSpelled(n: nat)
    requires n < 0x1_0000_0000
    ensures var b := LengthBytes(n);
            var w: int, x: int, y: int, z: int := b[0], b[1], b[2], b[3]; ((w * 256 + x) * 256 + y) * 256 + z == n
  {
    assert n / 256 / 256 == n / 0x1_0000 && n / 256 / 256 / 256 == n / 0x100_0000;
  }

  /** The execution contract's frame also carries the length of the canonical text. */
  function LengthFrame(domain: seq<Byte>, value: seq<Byte>): seq<Byte> {
    Frame(domain, LengthBytes(|value|) + value)
  }

  lemma LengthFrameInjective(d: seq<Byte>, v: seq<Byte>, e: seq<Byte>, w: seq<Byte>)
    requires 0 !in d && 0 !in e
    ensures LengthFrame(d, v) == LengthFrame(e, w) <==> d == e && v == w
  {
    FrameInjective(d, LengthBytes(|v|) + v, e, LengthBytes(|w|) + w);
    if LengthFrame(d, v) == LengthFrame(e, w) {
      assert v == (LengthBytes(|v|) + v)[4..];
      assert w == (LengthBytes(|w|) + w)[4..];
    }
  }
}
