/** `encodeURIComponent` and `decodeURIComponent` (ECMA-262, the URI handling
    functions): every character outside the unreserved set
    `A-Z a-z 0-9 - _ . ! ~ * ' ( )` becomes the `%XX` triplets of its UTF-8
    octets (RFC 3629, section 3), with upper-case hexadecimal digits as in
    section 2.1 of RFC 3986. Strings here are sequences of Unicode scalar
    values, so the lone surrogates for which JavaScript throws a URIError
    cannot occur. */
module UriComponent {
  import opened Common

  type Byte = b: int | 0 <= b < 256

  predicate IsUnreserved(c: char) {
    ('A' <= c <= 'Z') || ('a' <= c <= 'z') || ('0' <= c <= '9')
    || c == '-' || c == '_' || c == '.' || c == '!' || c == '~'
    || c == '*' || c == '\'' || c == '(' || c == ')'
  }

  lemma PercentIsReserved()
    ensures !IsUnreserved('%')
  {
  }

  predicate IsUpperHex(c: char) {
    ('0' <= c <= '9') || ('A' <= c <= 'F')
  }

  // ---------------------------------------------------------------------------
  // Encoding
  // ---------------------------------------------------------------------------

  /** The UTF-8 octets of one scalar value. */
  function Utf8(c: char): (bs: seq<Byte>)
    ensures 1 <= |bs| <= 4
  {
    var n := c as int;
    if n < 0x80 then [n]
    else if n < 0x800 then [0xC0 + n / 64, 0x80 + n % 64]
    else if n < 0x10000 then [0xE0 + n / 4096, 0x80 + (n / 64) % 64, 0x80 + n % 64]
    else [0xF0 + n / 0x40000, 0x80 + (n / 4096) % 64, 0x80 + (n / 64) % 64, 0x80 + n % 64]
  }

  function HexDigit(d: int): (c: char)
    requires 0 <= d < 16
    ensures IsUpperHex(c)
  {
    if d < 10 then ('0' as int + d) as char else ('A' as int + d - 10) as char
  }

  /** `%XX` for one octet. */
  function Triplet(b: Byte): string {
    ['%', HexDigit(b / 16), HexDigit(b % 16)]
  }

  function Percents(bs: seq<Byte>): (r: string)
    ensures |r| == 3 * |bs|
    decreases |bs|
  {
    if bs == [] then "" else Triplet(bs[0]) + Percents(bs[1..])
  }

  function EncodeChar(c: char): string {
    if IsUnreserved(c) then [c] else Percents(Utf8(c))
  }

  /** A string of unreserved characters and `%XX` triplets, and nothing else. */
  ghost predicate WellEncoded(r: string)
    decreases |r|
  {
    if r == [] then true
    else if IsUnreserved(r[0]) then WellEncoded(r[1..])
    else r[0] == '%' && |r| >= 3 && IsUpperHex(r[1]) && IsUpperHex(r[2]) && WellEncoded(r[3..])
  }

  lemma {:induction false} PercentsWellEncoded(bs: seq<Byte>, rest: string)
    requires WellEncoded(rest)
    ensures WellEncoded(Percents(bs) + rest)
    decreases |bs|
  {
    if bs != [] {
      PercentsWellEncoded(bs[1..], rest);
      var r := Percents(bs) + rest;
      assert r == Triplet(bs[0]) + (Percents(bs[1..]) + rest);
      assert r[0] == '%';
      PercentIsReserved();
      assert IsUpperHex(r[1]) && IsUpperHex(r[2]);
      assert r[3..] == Percents(bs[1..]) + rest;
    } else {
      assert Percents(bs) + rest == rest;
    }
  }

  /** `encodeURIComponent(s)`. */
  function Encode(s: string): (r: string)
    ensures WellEncoded(r)
    ensures |r| >= |s|
    decreases |s|
  {
    if s == [] then ""
    else
      var rest := Encode(s[1..]);
      var head := EncodeChar(s[0]);
      if IsUnreserved(s[0]) then
        assert ([s[0]] + rest)[1..] == rest;
        head + rest
      else
        PercentsWellEncoded(Utf8(s[0]), rest);
        head + rest
  }

  /** A well-encoded string uses only unreserved characters, `%` and hex digits;
      in particular no `&`, `=`, `?`, `#` or `/`. */
  lemma {:induction false} WellEncodedAlphabet(r: string)
    requires WellEncoded(r)
    ensures forall i :: 0 <= i < |r| ==> IsUnreserved(r[i]) || r[i] == '%'
    ensures forall i :: 0 <= i < |r| ==> r[i] !in {'&', '=', '?', '#', '/', ' ', '+'}
    decreases |r|
  {
    if r != [] {
      if IsUnreserved(r[0]) {
        WellEncodedAlphabet(r[1..]);
        assert forall i :: 1 <= i < |r| ==> r[i] == r[1..][i - 1];
      } else {
        WellEncodedAlphabet(r[3..]);
        assert forall i :: 3 <= i < |r| ==> r[i] == r[3..][i - 3];
      }
    }
  }

  // ---------------------------------------------------------------------------
  // Decoding
  // ---------------------------------------------------------------------------

  function HexValue(c: char): Option<int> {
    if '0' <= c <= '9' then Some(c as int - '0' as int)
    else if 'A' <= c <= 'F' then Some(c as int - 'A' as int + 10)
    else if 'a' <= c <= 'f' then Some(c as int - 'a' as int + 10)
    else None
  }

  /** The octet written by a `%XX` triplet at the start of `s`. */
  function LeadOctet(s: string): (r: Option<Byte>)
  {
    if |s| >= 3 && s[0] == '%' && HexValue(s[1]).Some? && HexValue(s[2]).Some?
       && 0 <= HexValue(s[1]).value < 16 && 0 <= HexValue(s[2]).value < 16
    then Some(16 * HexValue(s[1]).value + HexValue(s[2]).value)
    else None
  }

  /** Length of the UTF-8 sequence announced by a leading octet; 0 if invalid. */
  function SequenceLength(b: Byte): nat {
    if b < 0x80 then 1
    else if 0xC0 <= b < 0xE0 then 2
    else if 0xE0 <= b < 0xF0 then 3
    else if 0xF0 <= b < 0xF8 then 4
    else 0
  }

  predicate IsContinuation(b: Byte) { 0x80 <= b < 0xC0 }

  /** `k` triplets at the start of `s`, each a continuation octet. */
  function Continuations(s: string, k: nat): (r: Option<seq<Byte>>)
    ensures r.Some? ==> |r.value| == k
    decreases k
  {
    if k == 0 then Some([])
    else match LeadOctet(s)
      case None => None
      case Some(b) =>
        if !IsContinuation(b) then None
        else match Continuations(s[3..], k - 1)
          case None => None
          case Some(rest) => Some([b] + rest)
  }

  function CodePoint(bs: seq<Byte>): int
    requires 1 <= |bs| <= 4
  {
    var b: seq<int> := bs;
    if |b| == 1 then b[0]
    else if |b| == 2 then (b[0] - 0xC0) * 64 + (b[1] - 0x80)
    else if |b| == 3 then (b[0] - 0xE0) * 4096 + (b[1] - 0x80) * 64 + (b[2] - 0x80)
    else (b[0] - 0xF0) * 0x40000 + (b[1] - 0x80) * 4096 + (b[2] - 0x80) * 64 + (b[3] - 0x80)
  }

  /** A code point that a sequence of `len` octets may encode: not overlong,
      not a surrogate, not beyond U+10FFFF. */
  predicate ValidFor(cp: int, len: nat) {
    if len == 1 then 0 <= cp < 0x80
    else if len == 2 then 0x80 <= cp < 0x800
    else if len == 3 then 0x800 <= cp < 0x10000 && !(0xD800 <= cp < 0xE000)
    else len == 4 && 0x10000 <= cp < 0x110000
  }

  /** `decodeURIComponent(s)`; None where JavaScript throws a URIError. */
  function Decode(s: string): Option<string>
    decreases |s|
  {
    if s == [] then Some("")
    else if s[0] != '%' then
      match Decode(s[1..])
      case None => None
      case Some(t) => Some([s[0]] + t)
    else match LeadOctet(s)
      case None => None
      case Some(b0) =>
        var n := SequenceLength(b0);
        if n == 0 || |s| < 3 * n then None
        else match Continuations(s[3..], n - 1)
          case None => None
          case Some(cs) =>
            var cp := CodePoint([b0] + cs);
            if !ValidFor(cp, n) then None
            else match Decode(s[3 * n..])
              case None => None
              case Some(t) => Some([cp as char] + t)
  }

  // ---------------------------------------------------------------------------
  // Round trip
  // ---------------------------------------------------------------------------

  lemma TripletOctet(b: Byte, rest: string)
    ensures LeadOctet(Triplet(b) + rest) == Some(b)
  {
    var s := Triplet(b) + rest;
    assert s[1] == HexDigit(b / 16) && s[2] == HexDigit(b % 16);
    assert HexValue(HexDigit(b / 16)) == Some(b / 16);
    assert HexValue(HexDigit(b % 16)) == Some(b % 16);
  }

  lemma {:induction false} PercentsContinuations(cs: seq<Byte>, rest: string)
    requires forall j :: 0 <= j < |cs| ==> IsContinuation(cs[j])
    ensures Continuations(Percents(cs) + rest, |cs|) == Some(cs)
    ensures (Percents(cs) + rest)[3 * |cs|..] == rest
    decreases |cs|
  {
    var s := Percents(cs) + rest;
    assert s[3 * |cs|..] == rest;
    if cs != [] {
      var t := Percents(cs[1..]) + rest;
      assert s == Triplet(cs[0]) + t;
      TripletOctet(cs[0], t);
      assert s[3..] == t;
      PercentsContinuations(cs[1..], rest);
      assert IsContinuation(cs[0]);
      assert Continuations(s, |cs|) == Some([cs[0]] + cs[1..]);
      assert [cs[0]] + cs[1..] == cs;
    }
  }

  /** The octets of one scalar value form a valid UTF-8 sequence for it. */
  lemma Utf8Valid(c: char)
    ensures SequenceLength(Utf8(c)[0]) == |Utf8(c)|
    ensures forall j :: 1 <= j < |Utf8(c)| ==> IsContinuation(Utf8(c)[j])
    ensures CodePoint(Utf8(c)) == c as int
    ensures ValidFor(c as int, |Utf8(c)|)
  {
    var n := c as int;
    if n < 0x80 {
    } else if n < 0x800 {
      assert n == (n / 64) * 64 + n % 64;
    } else if n < 0x10000 {
      Utf8ValidThree(c);
    } else {
      Utf8ValidFour(c);
    }
  }

  lemma Utf8ValidThree(c: char)
    requires 0x800 <= c as int < 0x10000
    ensures SequenceLength(Utf8(c)[0]) == |Utf8(c)| == 3
    ensures IsContinuation(Utf8(c)[1]) && IsContinuation(Utf8(c)[2])
    ensures CodePoint(Utf8(c)) == c as int
  {
    SixBitGroups(c as int);
  }

  lemma Utf8ValidFour(c: char)
    requires 0x10000 <= c as int
    ensures SequenceLength(Utf8(c)[0]) == |Utf8(c)| == 4
    ensures IsContinuation(Utf8(c)[1]) && IsContinuation(Utf8(c)[2]) && IsContinuation(Utf8(c)[3])
    ensures CodePoint(Utf8(c)) == c as int
  {
    var n := c as int;
    SixBitGroups(n);
    assert n / 4096 == (n / 0x40000) * 64 + (n / 4096) % 64;
  }

  /** A number is its six-bit groups put back together. */
  lemma SixBitGroups(n: nat)
    ensures n == (n / 4096) * 4096 + ((n / 64) % 64) * 64 + n % 64
  {
    assert n / 64 == (n / 4096) * 64 + (n / 64) % 64;
    assert n == (n / 64) * 64 + n % 64;
  }

  lemma DecodePercents(bs: seq<Byte>, c: char, rest: string)
    requires bs == Utf8(c)
    requires SequenceLength(bs[0]) == |bs|
    requires forall j :: 1 <= j < |bs| ==> IsContinuation(bs[j])
    requires CodePoint(bs) == c as int && ValidFor(c as int, |bs|)
    ensures Decode(Percents(bs) + rest) ==
      (match Decode(rest) case None => None case Some(t) => Some([c] + t))
  {
    var s := Percents(bs) + rest;
    var n := |bs|;
    var cs := bs[1..];
    var tail := Percents(cs) + rest;
    assert s == Triplet(bs[0]) + tail && s[3..] == tail by {
      assert Percents(bs) == Triplet(bs[0]) + Percents(cs);
    }
    assert LeadOctet(s) == Some(bs[0]) && s[0] == '%' by {
      TripletOctet(bs[0], tail);
    }
    assert Continuations(s[3..], |cs|) == Some(cs) && s[3 * n..] == rest by {
      PercentsContinuations(cs, rest);
      assert s[3 * n..] == tail[3 * |cs|..];
    }
    assert [bs[0]] + cs == bs;
    DecodeSequence(s, bs[0], cs);
    assert (c as int) as char == c;
  }

  /** One percent-encoded UTF-8 sequence at the start of `s` decodes to its
      code point, followed by the decoding of what comes after it. */
  lemma DecodeSequence(s: string, b0: Byte, cs: seq<Byte>)
    requires |s| > 0 && s[0] == '%' && LeadOctet(s) == Some(b0)
    requires 1 <= SequenceLength(b0) == |cs| + 1 && |s| >= 3 * (|cs| + 1)
    requires Continuations(s[3..], |cs|) == Some(cs)
    requires ValidFor(CodePoint([b0] + cs), |cs| + 1)
    ensures Decode(s) ==
      (match Decode(s[3 * (|cs| + 1)..]) case None => None
       case Some(t) => Some([CodePoint([b0] + cs) as char] + t))
  {
  }

  lemma DecodeEncodedChar(c: char, rest: string)
    ensures Decode(EncodeChar(c) + rest) ==
      (match Decode(rest) case None => None case Some(t) => Some([c] + t))
  {
    var s := EncodeChar(c) + rest;
    if IsUnreserved(c) {
      assert s[0] == c && s[1..] == rest;
    } else {
      Utf8Valid(c);
      DecodePercents(Utf8(c), c, rest);
    }
  }

  /** `decodeURIComponent(encodeURIComponent(s)) == s`. */
  lemma {:induction false} DecodeEncode(s: string)
    ensures Decode(Encode(s)) == Some(s)
    decreases |s|
  {
    if s != [] {
      DecodeEncode(s[1..]);
      DecodeEncodedChar(s[0], Encode(s[1..]));
      assert [s[0]] + s[1..] == s;
    }
  }
}
