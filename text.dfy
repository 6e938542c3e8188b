/** The string operations of Python's `str` that the adapters use, on `seq<char>`. */
module Text {
  import opened Wrappers

  /** `sep.join(parts)`. */
  function Join(sep: string, parts: seq<string>): string
    decreases |parts|
  {
    if |parts| == 0 then ""
    else if |parts| == 1 then parts[0]
    else parts[0] + sep + Join(sep, parts[1..])
  }

  /** Three parts joined: the separator between each neighbouring pair. */
  lemma JoinThree(sep: string, a: string, b: string, c: string)
    ensures Join(sep, [a, b, c]) == a + sep + b + sep + c
  {
    assert [a, b, c][1..] == [b, c];
    assert [b, c][1..] == [c];
    assert Join(sep, [b, c]) == b + sep + c;
    assert a + sep + (b + sep + c) == a + sep + b + sep + c;
  }

  /** The position of the first occurrence of `c` in `s`. */
  function IndexOf(s: string, c: char): (i: nat)
    requires c in s
    ensures i < |s| && s[i] == c && c !in s[..i]
  {
    if s[0] == c then 0
    else
      assert c in s[1..] by { var k :| 0 <= k < |s| && s[k] == c; assert s[1..][k - 1] == c; }
      var j := IndexOf(s[1..], c);
      assert s[..j + 1] == [s[0]] + s[1..][..j];
      j + 1
  }

  /** The first `c` is at `j` when `s[j]` is `c` and nothing before it is. */
  lemma IndexOfAt(s: string, c: char, j: nat)
    requires j < |s| && s[j] == c && c !in s[..j]
    ensures IndexOf(s, c) == j
  {
    assert forall k :: 0 <= k < j ==> s[..j][k] == s[k];
    var i := IndexOf(s, c);
    assert forall k :: 0 <= k < i ==> s[..i][k] == s[k];
  }

  /** `s.split(c)` for a one-character separator: never empty, and no part contains `c`. */
  function Split(s: string, c: char): (parts: seq<string>)
    ensures |parts| >= 1
    ensures forall i :: 0 <= i < |parts| ==> c !in parts[i]
    decreases |s|
  {
    if c !in s then [s]
    else
      var i := IndexOf(s, c);
      [s[..i]] + Split(s[i + 1..], c)
  }

  /** `s.split(c)[0]`: what comes before the first `c`. */
  function FirstSegment(s: string, c: char): string {
    Split(s, c)[0]
  }

  /** `s.split(c)[-1]`: what comes after the last `c`. */
  function LastSegment(s: string, c: char): string {
    var parts := Split(s, c);
    parts[|parts| - 1]
  }

  /** Joining the parts of a split with the separator gives back the string. */
  lemma {:induction false} JoinSplit(s: string, c: char)
    ensures Join([c], Split(s, c)) == s
    decreases |s|
  {
    if c in s {
      var i := IndexOf(s, c);
      var rest := s[i + 1..];
      JoinSplit(rest, c);
      var tail := Split(rest, c);
      assert Split(s, c) == [s[..i]] + tail;
      assert s == s[..i] + [c] + rest;
    }
  }

  /** Splitting at a leading separator-free part peels that part off. */
  lemma SplitCons(p: string, rest: string, c: char)
    requires c !in p
    ensures Split(p + [c] + rest, c) == [p] + Split(rest, c)
  {
    var s := p + [c] + rest;
    assert s[..|p|] == p;
    IndexOfAt(s, c, |p|);
    assert s[|p| + 1..] == rest;
  }

  /** Splitting a join of separator-free parts gives back the parts. */
  lemma {:induction false} SplitJoin(parts: seq<string>, c: char)
    requires |parts| >= 1
    requires forall i :: 0 <= i < |parts| ==> c !in parts[i]
    ensures Split(Join([c], parts), c) == parts
    decreases |parts|
  {
    if |parts| > 1 {
      SplitCons(parts[0], Join([c], parts[1..]), c);
      SplitJoin(parts[1..], c);
      assert parts == [parts[0]] + parts[1..];
    }
  }

  /** The text before the first `c` is a prefix of `s`, free of `c`, and is followed by `c` when it is not all of `s`. */
  lemma FirstSegmentIsPrefix(s: string, c: char)
    ensures var r := FirstSegment(s, c);
      && |r| <= |s| && r == s[..|r|] && c !in r
      && (c in s <==> |r| < |s|)
      && (|r| < |s| ==> s[|r|] == c)
  {
    if c in s {
      var i := IndexOf(s, c);
      assert FirstSegment(s, c) == s[..i];
    }
  }

  /** A suffix of a suffix of `s` is a suffix of `s`. */
  lemma SuffixOfSuffix(s: string, k: nat, r: string)
    requires k <= |s| && |r| <= |s| - k && r == s[k..][|s| - k - |r|..]
    ensures r == s[|s| - |r|..]
  {
  }

  /** The text after the last `c` is a suffix of `s`, free of `c`, and is preceded by `c` when it is not all of `s`. */
  lemma {:induction false} LastSegmentIsSuffix(s: string, c: char)
    ensures var r := LastSegment(s, c);
      && |r| <= |s| && r == s[|s| - |r|..] && c !in r
      && (c in s <==> |r| < |s|)
      && (|r| < |s| ==> s[|s| - |r| - 1] == c)
    decreases |s|
  {
    if c in s {
      var i := IndexOf(s, c);
      var rest := s[i + 1..];
      var tail := Split(rest, c);
      assert Split(s, c) == [s[..i]] + tail;
      assert LastSegment(s, c) == tail[|tail| - 1] == LastSegment(rest, c);
      LastSegmentIsSuffix(rest, c);
      var r := LastSegment(rest, c);
      assert |r| <= |rest| < |s|;
      SuffixOfSuffix(s, i + 1, r);
      if |r| == |rest| {
        assert s[|s| - |r| - 1] == s[i];
      } else {
        assert s[|s| - |r| - 1] == rest[|rest| - |r| - 1];
      }
    }
  }

  // ---- decimal rendering, as `str(n)` -------------------------------------------------

  predicate IsDigit(ch: char) {
    '0' <= ch <= '9'
  }

  function DigitChar(d: nat): (ch: char)
    requires d < 10
    ensures IsDigit(ch) && ch as int == '0' as int + d
  {
    ('0' as int + d) as char
  }

  function DigitValue(ch: char): (d: nat)
    requires IsDigit(ch)
    ensures d < 10 && DigitChar(d) == ch
  {
    ch as int - '0' as int
  }

  predicate AllDigits(s: string) {
    forall i :: 0 <= i < |s| ==> IsDigit(s[i])
  }

  /** `str(n)` for a non-negative integer: shortest decimal digits. */
  function NatToDecimal(n: nat): (s: string)
    ensures |s| >= 1 && AllDigits(s)
  {
    if n < 10 then [DigitChar(n)] else NatToDecimal(n / 10) + [DigitChar(n % 10)]
  }

  /** `str(i)` for any integer: a minus sign, then the digits of its magnitude. */
  function IntToDecimal(i: int): string {
    if i < 0 then "-" + NatToDecimal(-i) else NatToDecimal(i)
  }

  /** The value of a string of decimal digits. */
  function DecimalToNat(s: string): nat
    requires AllDigits(s)
  {
    if |s| == 0 then 0 else DecimalToNat(s[..|s| - 1]) * 10 + DigitValue(s[|s| - 1])
  }

  /** `int(s)` for the strings `str` produces: an optional minus sign and at least one digit. */
  function ParseInt(s: string): Option<int> {
    if |s| >= 2 && s[0] == '-' && AllDigits(s[1..]) then
      var magnitude: int := DecimalToNat(s[1..]);
      Some(-magnitude)
    else if |s| >= 1 && AllDigits(s) then Some(DecimalToNat(s))
    else None
  }

  lemma {:induction false} DecimalRoundTrip(n: nat)
    ensures DecimalToNat(NatToDecimal(n)) == n
  {
    if n >= 10 {
      var s := NatToDecimal(n);
      assert s[..|s| - 1] == NatToDecimal(n / 10);
      DecimalRoundTrip(n / 10);
    }
  }

  /** Parsing the rendering of an integer gives the integer back. */
  lemma IntRoundTrip(i: int)
    ensures ParseInt(IntToDecimal(i)) == Some(i)
  {
    if i < 0 {
      var d := NatToDecimal(-i);
      var s := "-" + d;
      assert s[1..] == d && s[0] == '-';
      DecimalRoundTrip(-i);
      var magnitude: int := DecimalToNat(d);
      assert ParseInt(s) == Some(-magnitude);
    } else {
      var s := NatToDecimal(i);
      assert IsDigit(s[0]);
      DecimalRoundTrip(i);
    }
  }

  /** A rendered integer contains only digits and perhaps a minus sign; in particular no space or comma. */
  lemma IntToDecimalChars(i: int)
    ensures forall k :: 0 <= k < |IntToDecimal(i)| ==> IsDigit(IntToDecimal(i)[k]) || IntToDecimal(i)[k] == '-'
  {
    if i < 0 {
      var d := NatToDecimal(-i);
      assert forall k :: 1 <= k < |"-" + d| ==> ("-" + d)[k] == d[k - 1];
    }
  }

  /** Two-digit zero-padded rendering, as `%02d`. */
  function Pad2(n: nat): (s: string)
    requires n < 100
    ensures |s| == 2 && AllDigits(s)
  {
    [DigitChar(n / 10), DigitChar(n % 10)]
  }

  /** Four-digit zero-padded rendering, as `%04d`. */
  function Pad4(n: nat): (s: string)
    requires n < 10000
    ensures |s| == 4 && AllDigits(s)
  {
    [DigitChar(n / 1000), DigitChar(n / 100 % 10), DigitChar(n / 10 % 10), DigitChar(n % 10)]
  }

  lemma Pad2Value(n: nat)
    requires n < 100
    ensures DecimalToNat(Pad2(n)) == n
  {
    var s := Pad2(n);
    assert s[..1][..0] == [];
    assert DecimalToNat(s[..1]) == n / 10;
  }

  lemma Pad4Value(n: nat)
    requires n < 10000
    ensures DecimalToNat(Pad4(n)) == n
  {
    var s := Pad4(n);
    assert s[..1][..0] == [];
    assert DecimalToNat(s[..1]) == n / 1000;
    assert s[..2][..1] == s[..1];
    assert DecimalToNat(s[..2]) == n / 100;
    assert s[..3][..2] == s[..2];
    assert DecimalToNat(s[..3]) == n / 10;
  }

  // ---- case and whitespace --------------------------------------------------------------

  /** `ch.lower()` on ASCII letters; other characters are left as they are. */
  function LowerChar(ch: char): char {
    if 'A' <= ch <= 'Z' then (ch as int + 32) as char else ch
  }

  /** `s.lower()`, character by character. */
  function Lower(s: string): (r: string)
    ensures |r| == |s| && forall i :: 0 <= i < |s| ==> r[i] == LowerChar(s[i])
  {
    seq(|s|, i requires 0 <= i < |s| => LowerChar(s[i]))
  }

  /**
   * `ch.isspace()`: the characters Python's `str.strip()` removes, the ASCII white space
   * U+0009 to U+000D and U+0020, the separators U+001C to U+001F, and the Unicode spaces.
   */
  predicate IsSpace(ch: char) {
    || '\t' <= ch <= '\r' || '\U{001c}' <= ch <= ' '
    || ch == '\U{0085}' || ch == '\U{00a0}' || ch == '\U{1680}'
    || '\U{2000}' <= ch <= '\U{200a}' || ch == '\U{2028}' || ch == '\U{2029}'
    || ch == '\U{202f}' || ch == '\U{205f}' || ch == '\U{3000}'
  }

  /** `s.lstrip()`: drops the leading white space and nothing else. */
  function StripLeft(s: string): (r: string)
    ensures |r| <= |s| && r == s[|s| - |r|..]
    ensures |r| > 0 ==> !IsSpace(r[0])
    ensures forall i :: 0 <= i < |s| - |r| ==> IsSpace(s[i])
  {
    if |s| > 0 && IsSpace(s[0]) then StripLeft(s[1..]) else s
  }

  /** `s.rstrip()`: drops the trailing white space and nothing else. */
  function StripRight(s: string): (r: string)
    ensures |r| <= |s| && r == s[..|r|]
    ensures |r| > 0 ==> !IsSpace(r[|r| - 1])
    ensures forall i :: |r| <= i < |s| ==> IsSpace(s[i])
  {
    if |s| > 0 && IsSpace(s[|s| - 1]) then StripRight(s[..|s| - 1]) else s
  }

  /**
   * `s.strip()`: the result has no white space at either end, and a string without white
   * space at either end is its own strip.
   */
  function Strip(s: string): (r: string)
    ensures |r| <= |s| && forall c :: c !in s ==> c !in r
    ensures |r| > 0 ==> !IsSpace(r[0]) && !IsSpace(r[|r| - 1])
    ensures (|s| == 0 || (!IsSpace(s[0]) && !IsSpace(s[|s| - 1]))) ==> r == s
  {
    var l := StripLeft(s);
    var r := StripRight(l);
    assert |r| > 0 ==> r[0] == l[0];
    assert forall j :: 0 <= j < |r| ==> r[j] == s[|s| - |l| + j];
    r
  }

  /** Joining two non-empty lists puts one separator between the two joins. */
  lemma {:induction false} JoinAppend(sep: string, xs: seq<string>, ys: seq<string>)
    requires |xs| > 0 && |ys| > 0
    ensures Join(sep, xs + ys) == Join(sep, xs) + sep + Join(sep, ys)
    decreases |xs|
  {
    if |xs| > 1 {
      JoinAppend(sep, xs[1..], ys);
      assert (xs + ys)[1..] == xs[1..] + ys;
    }
  }

  /** A word with no white space at either end survives `strip` with one space added on either side. */
  lemma StripPadded(w: string)
    requires |w| > 0 && !IsSpace(w[0]) && !IsSpace(w[|w| - 1])
    ensures Strip(w + " ") == w && Strip(" " + w) == w
  {
    assert StripLeft(w + " ") == w + " ";
    assert (w + " ")[..|w|] == w;
    assert StripRight(w) == w;
    assert (" " + w)[1..] == w;
    assert StripLeft(w) == w;
  }
}

