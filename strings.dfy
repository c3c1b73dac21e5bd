/** The JavaScript string operations the storefront relies on, over Dafny
    strings (sequences of Unicode scalar values): `toLowerCase` (ASCII letters
    only), `includes`, `startsWith`, `Array.prototype.join` and
    `String.prototype.split` with a one-character separator, `trim`, and the
    decimal rendering of an integer by template strings. */
module Strings {

  // ---------------------------------------------------------------------------
  // Case
  // ---------------------------------------------------------------------------

  function LowerChar(c: char): char {
    if 'A' <= c <= 'Z' then (c as int - 'A' as int + 'a' as int) as char else c
  }

  /** `s.toLowerCase()` for ASCII letters; every other character is kept. */
  function ToLower(s: string): (r: string)
    ensures |r| == |s|
    ensures forall i :: 0 <= i < |s| ==> r[i] == LowerChar(s[i])
    ensures forall i :: 0 <= i < |r| ==> !('A' <= r[i] <= 'Z')
  {
    seq(|s|, i requires 0 <= i < |s| => LowerChar(s[i]))
  }

  // ---------------------------------------------------------------------------
  // Substrings and prefixes
  // ---------------------------------------------------------------------------

  predicate OccursAt(s: string, sub: string, i: nat) {
    i + |sub| <= |s| && s[i..i + |sub|] == sub
  }

  predicate StartsWith(s: string, prefix: string) {
    OccursAt(s, prefix, 0)
  }

  /** `s.includes(sub)`: some position of `s` starts an occurrence of `sub`. */
  function Includes(s: string, sub: string): (r: bool)
    ensures r <==> exists i: nat :: OccursAt(s, sub, i)
    decreases |s|
  {
    if OccursAt(s, sub, 0) then true
    else if s == [] then false
    else
      var r := Includes(s[1..], sub);
      assert forall i: nat :: OccursAt(s[1..], sub, i) <==> OccursAt(s, sub, i + 1) by {
        forall i: nat ensures OccursAt(s[1..], sub, i) <==> OccursAt(s, sub, i + 1) {
          if i + 1 + |sub| <= |s| {
            assert s[1..][i..i + |sub|] == s[i + 1..i + 1 + |sub|];
          }
        }
      }
      assert r ==> OccursAt(s, sub, 0) || exists i: nat :: OccursAt(s, sub, i) by {
        if r {
          var i: nat :| OccursAt(s[1..], sub, i);
          assert OccursAt(s, sub, i + 1);
        }
      }
      assert (exists i: nat :: OccursAt(s, sub, i)) ==> r by {
        if exists i: nat :: OccursAt(s, sub, i) {
          var i: nat :| OccursAt(s, sub, i);
          assert i != 0;
          assert OccursAt(s[1..], sub, i - 1);
        }
      }
      r
  }

  /** Every string includes the empty string. */
  lemma IncludesEmpty(s: string)
    ensures Includes(s, "")
  {
    assert OccursAt(s, "", 0);
  }

  // ---------------------------------------------------------------------------
  // join and split on a one-character separator
  // ---------------------------------------------------------------------------

  /** `parts.join(sep)`. */
  function Join(parts: seq<string>, sep: char): string
    decreases |parts|
  {
    if |parts| == 0 then ""
    else if |parts| == 1 then parts[0]
    else parts[0] + [sep] + Join(parts[1..], sep)
  }

  /** `s.split(sep)`: the maximal separator-free pieces, always at least one. */
  function Split(s: string, sep: char): (r: seq<string>)
    ensures |r| >= 1
    ensures forall k :: 0 <= k < |r| ==> sep !in r[k]
    decreases |s|
  {
    if s == [] then [""]
    else if s[0] == sep then [""] + Split(s[1..], sep)
    else
      var t := Split(s[1..], sep);
      [[s[0]] + t[0]] + t[1..]
  }

  lemma {:induction false} SplitNoSeparator(p: string, sep: char)
    requires sep !in p
    ensures Split(p, sep) == [p]
    decreases |p|
  {
    if p != [] {
      SplitNoSeparator(p[1..], sep);
      assert [p[0]] + p[1..] == p;
    }
  }

  lemma {:induction false} SplitAfterPiece(p: string, sep: char, t: string)
    requires sep !in p
    ensures Split(p + [sep] + t, sep) == [p] + Split(t, sep)
    decreases |p|
  {
    var s := p + [sep] + t;
    if p == [] {
      assert s[0] == sep && s[1..] == t;
    } else {
      assert s[0] == p[0] && s[1..] == p[1..] + [sep] + t;
      SplitAfterPiece(p[1..], sep, t);
      assert [p[0]] + p[1..] == p;
    }
  }

  /** Splitting a joined list of separator-free pieces gives the pieces back. */
  lemma {:induction false} SplitJoin(parts: seq<string>, sep: char)
    requires |parts| >= 1
    requires forall k :: 0 <= k < |parts| ==> sep !in parts[k]
    ensures Split(Join(parts, sep), sep) == parts
    decreases |parts|
  {
    if |parts| == 1 {
      SplitNoSeparator(parts[0], sep);
    } else {
      SplitJoin(parts[1..], sep);
      SplitAfterPiece(parts[0], sep, Join(parts[1..], sep));
      assert [parts[0]] + parts[1..] == parts;
    }
  }

  /** Joining the pieces of a split gives the original string back. */
  lemma {:induction false} JoinSplit(s: string, sep: char)
    ensures Join(Split(s, sep), sep) == s
    decreases |s|
  {
    if s != [] {
      JoinSplit(s[1..], sep);
      var t := Split(s[1..], sep);
      if s[0] == sep {
        assert Split(s, sep) == [""] + t;
        assert ([""] + t)[1..] == t;
        assert s == [sep] + s[1..];
      } else {
        var r := [[s[0]] + t[0]] + t[1..];
        assert Split(s, sep) == r;
        if |t| == 1 {
          assert Join(t, sep) == t[0];
        } else {
          assert r[1..] == t[1..];
          assert Join(t, sep) == t[0] + [sep] + Join(t[1..], sep);
        }
        assert s == [s[0]] + s[1..];
      }
    }
  }

  /** The position of the first occurrence of `c` in `s` (`s.indexOf(c)`). */
  function IndexOf(s: string, c: char): (k: nat)
    requires c in s
    ensures k < |s| && s[k] == c && c !in s[..k]
    decreases |s|
  {
    if s[0] == c then 0
    else
      assert c in s[1..] by { assert s == [s[0]] + s[1..]; }
      var k := IndexOf(s[1..], c);
      assert s[..k + 1] == [s[0]] + s[1..][..k];
      k + 1
  }

  /** The first piece of a split is the text up to the first separator. */
  lemma {:induction false} SplitHead(s: string, sep: char)
    ensures var h := Split(s, sep)[0];
            |h| <= |s| && s[..|h|] == h && (|h| == |s| || s[|h|] == sep)
    decreases |s|
  {
    if s != [] && s[0] != sep {
      SplitHead(s[1..], sep);
      var h := Split(s[1..], sep)[0];
      assert Split(s, sep)[0] == [s[0]] + h;
      assert s[..|h| + 1] == [s[0]] + s[1..][..|h|];
    }
  }

  /** Splitting at the first separator: the text before it is the first piece. */
  lemma SplitAtFirst(s: string, sep: char)
    requires sep in s
    ensures var k := IndexOf(s, sep);
            Split(s, sep) == [s[..k]] + Split(s[k + 1..], sep)
  {
    var k := IndexOf(s, sep);
    assert s == s[..k] + [sep] + s[k + 1..];
    SplitAfterPiece(s[..k], sep, s[k + 1..]);
  }

  /** Splitting at one separator splits the two sides independently. */
  lemma {:induction false} SplitConcat(a: string, sep: char, b: string)
    ensures Split(a + [sep] + b, sep) == Split(a, sep) + Split(b, sep)
    decreases |a|
  {
    var s := a + [sep] + b;
    if a == [] {
      assert s[0] == sep && s[1..] == b;
    } else {
      assert s[0] == a[0] && s[1..] == a[1..] + [sep] + b;
      SplitConcat(a[1..], sep, b);
    }
  }

  /** How many pieces the parts split into, all together. */
  function PieceCount(parts: seq<string>, sep: char): (n: nat)
    ensures n >= |parts|
    decreases |parts|
  {
    if parts == [] then 0 else |Split(parts[0], sep)| + PieceCount(parts[1..], sep)
  }

  /** Splitting a join yields the pieces of every part. */
  lemma {:induction false} SplitJoinCount(parts: seq<string>, sep: char)
    requires |parts| >= 1
    ensures |Split(Join(parts, sep), sep)| == PieceCount(parts, sep)
    decreases |parts|
  {
    if |parts| > 1 {
      SplitJoinCount(parts[1..], sep);
      SplitConcat(parts[0], sep, Join(parts[1..], sep));
    }
  }

  /** One part that splits into `n` pieces adds `n - 1` to the count. */
  lemma {:induction false} PieceCountAtLeast(parts: seq<string>, sep: char, k: nat)
    requires k < |parts|
    ensures PieceCount(parts, sep) >= |parts| - 1 + |Split(parts[k], sep)|
    decreases |parts|
  {
    if k > 0 {
      PieceCountAtLeast(parts[1..], sep, k - 1);
    }
  }

  // ---------------------------------------------------------------------------
  // trim
  // ---------------------------------------------------------------------------

  /** The WhiteSpace and LineTerminator code points that `String.prototype.trim`
      removes (ECMA-262, sections 12.2 and 12.3). */
  predicate IsJsWhitespace(c: char) {
    c == '\U{0009}' || c == '\U{000A}' || c == '\U{000B}' || c == '\U{000C}'
    || c == '\U{000D}' || c == '\U{0020}' || c == '\U{00A0}' || c == '\U{1680}'
    || ('\U{2000}' <= c <= '\U{200A}')
    || c == '\U{2028}' || c == '\U{2029}' || c == '\U{202F}' || c == '\U{205F}'
    || c == '\U{3000}' || c == '\U{FEFF}'
  }

  predicate AllWhitespace(s: string) {
    forall i :: 0 <= i < |s| ==> IsJsWhitespace(s[i])
  }

  function TrimStart(s: string): (r: string)
    ensures |r| <= |s| && r == s[|s| - |r|..]
    ensures AllWhitespace(s[..|s| - |r|])
    ensures r == [] || !IsJsWhitespace(r[0])
    decreases |s|
  {
    if s != [] && IsJsWhitespace(s[0]) then
      var r := TrimStart(s[1..]);
      var k := |s| - |r|;
      assert s[1..][k - 1..] == s[k..];
      forall i | 0 <= i < k ensures IsJsWhitespace(s[..k][i]) {
        if i > 0 { assert s[..k][i] == s[1..][..k - 1][i - 1]; }
      }
      r
    else s
  }

  function TrimEnd(s: string): (r: string)
    ensures |r| <= |s| && r == s[..|r|]
    ensures AllWhitespace(s[|r|..])
    ensures r == [] || !IsJsWhitespace(r[|r| - 1])
    decreases |s|
  {
    if s != [] && IsJsWhitespace(s[|s| - 1]) then
      var r := TrimEnd(s[..|s| - 1]);
      assert s[..|s| - 1][..|r|] == s[..|r|];
      forall j | 0 <= j < |s| - |r| ensures IsJsWhitespace(s[|r|..][j]) {
        if j < |s| - 1 - |r| { assert s[|r|..][j] == s[..|s| - 1][|r|..][j]; }
      }
      r
    else s
  }

  /** How many characters `s.trim()` drops from the front of `s`. */
  ghost function TrimOffset(s: string): (k: nat)
    ensures k <= |s|
  {
    |s| - |TrimStart(s)|
  }

  /** `s.trim()`: the result is the slice of `s` starting at `TrimOffset(s)`,
      only whitespace lies around it, and it neither starts nor ends with
      whitespace. */
  function Trim(s: string): (r: string)
    ensures TrimOffset(s) + |r| <= |s|
    ensures s[TrimOffset(s)..TrimOffset(s) + |r|] == r
    ensures AllWhitespace(s[..TrimOffset(s)]) && AllWhitespace(s[TrimOffset(s) + |r|..])
    ensures r == [] || (!IsJsWhitespace(r[0]) && !IsJsWhitespace(r[|r| - 1]))
  {
    var a := TrimStart(s);
    var r := TrimEnd(a);
    SliceOfSuffix(s, |s| - |a|, a, |r|);
    r
  }

  /** Slicing a suffix `a` of `s` is slicing `s` further along. */
  lemma SliceOfSuffix<T>(s: seq<T>, k: nat, a: seq<T>, n: nat)
    requires k <= |s| && a == s[k..] && n <= |a|
    ensures s[k..k + n] == a[..n] && s[k + n..] == a[n..]
    ensures n > 0 ==> a[..n][0] == a[0]
  {
  }

  /** Trimming twice is trimming once. */
  lemma TrimIdempotent(s: string)
    ensures Trim(Trim(s)) == Trim(s)
  {
    var r := Trim(s);
    assert TrimStart(r) == r;
    assert TrimEnd(r) == r;
  }

  // ---------------------------------------------------------------------------
  // Decimal rendering of integers
  // ---------------------------------------------------------------------------

  predicate IsDigit(c: char) { '0' <= c <= '9' }

  function DigitChar(d: int): (c: char)
    requires 0 <= d < 10
    ensures IsDigit(c) && c as int - '0' as int == d
  {
    ('0' as int + d) as char
  }

  /** The value of a string of decimal digits, most significant first. */
  function DigitsValue(s: string): nat
    requires forall i :: 0 <= i < |s| ==> IsDigit(s[i])
    decreases |s|
  {
    if s == [] then 0
    else
      assert IsDigit(s[|s| - 1]);
      10 * DigitsValue(s[..|s| - 1]) + (s[|s| - 1] as int - '0' as int)
  }

  /** The digits of a natural number, without leading zeros. */
  function NatDecimal(n: nat): (r: string)
    ensures |r| >= 1
    ensures forall i :: 0 <= i < |r| ==> IsDigit(r[i])
    ensures r[0] != '0' || r == "0"
    decreases n
  {
    if n < 10 then [DigitChar(n)] else NatDecimal(n / 10) + [DigitChar(n % 10)]
  }

  /** Reading the rendered digits back gives the number. */
  lemma {:induction false} NatDecimalValue(n: nat)
    ensures DigitsValue(NatDecimal(n)) == n
    decreases n
  {
    if n >= 10 {
      NatDecimalValue(n / 10);
      var r := NatDecimal(n);
      assert r[..|r| - 1] == NatDecimal(n / 10);
    }
  }

  /** `${n}` for an integer `n`. */
  function Decimal(n: int): (r: string)
    ensures |r| >= 1
    ensures forall i :: 0 <= i < |r| ==> IsDigit(r[i]) || (i == 0 && r[i] == '-')
    ensures (r[0] == '-') <==> n < 0
  {
    if n < 0 then "-" + NatDecimal(-n) else NatDecimal(n)
  }
}
