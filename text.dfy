/**
 * The string primitives the ledger code leans on: `String.prototype.trim`,
 * `String.prototype.toLowerCase`, the decimal rendering of a number and
 * `Number(string)`, restricted to integers.
 */
module Text {
  import opened Wrappers

  /** The WhiteSpace and LineTerminator code points of ECMAScript, which `trim` strips. */
  predicate IsSpace(c: char) {
    var n := c as int;
    n == 0x09 || n == 0x0A || n == 0x0B || n == 0x0C || n == 0x0D || n == 0x20
    || n == 0xA0 || n == 0x1680 || (0x2000 <= n <= 0x200A)
    || n == 0x2028 || n == 0x2029 || n == 0x202F || n == 0x205F || n == 0x3000 || n == 0xFEFF
  }

  predicate IsBlank(s: string) {
    forall k :: 0 <= k < |s| ==> IsSpace(s[k])
  }

  /** Drops the leading white space: the result is a suffix of `s` and everything cut was white space. */
  function TrimStart(s: string): (r: string)
    ensures |r| <= |s| && r == s[|s| - |r|..]
    ensures r == [] || !IsSpace(r[0])
    ensures forall k :: 0 <= k < |s| - |r| ==> IsSpace(s[k])
  {
    if s != [] && IsSpace(s[0]) then
      var r := TrimStart(s[1..]);
      assert forall k :: 1 <= k < |s| - |r| ==> s[k] == s[1..][k - 1];
      r
    else s
  }

  /** Drops the trailing white space: the result is a prefix of `s` and everything cut was white space. */
  function TrimEnd(s: string): (r: string)
    ensures |r| <= |s| && r == s[..|r|]
    ensures r == [] || !IsSpace(r[|r| - 1])
    ensures forall k :: |r| <= k < |s| ==> IsSpace(s[k])
  {
    if s != [] && IsSpace(s[|s| - 1]) then
      var r := TrimEnd(s[..|s| - 1]);
      assert forall k :: |r| <= k < |s| - 1 ==> s[k] == s[..|s| - 1][k];
      r
    else s
  }

  /**
   * `r` is the slice of `s` that starts at `i`, and everything of `s` before
   * and after that slice is white space.
   */
  predicate CutFrom(s: string, r: string, i: int) {
    && 0 <= i <= |s| - |r| && r == s[i..i + |r|]
    && (forall k :: 0 <= k < i ==> IsSpace(s[k]))
    && (forall k :: i + |r| <= k < |s| ==> IsSpace(s[k]))
  }

  /** `s.trim()`: neither end of the result is white space (`TrimCuts` says what was cut). */
  function Trim(s: string): (r: string)
    ensures |r| <= |s|
    ensures r == [] || (!IsSpace(r[0]) && !IsSpace(r[|r| - 1]))
  {
    TrimEnd(TrimStart(s))
  }

  /** Trimming keeps a slice of `s` and cuts only white space before and after it. */
  lemma TrimCuts(s: string)
    ensures exists i :: CutFrom(s, Trim(s), i)
  {
    var t := TrimStart(s);
    SuffixPrefixCut(s, t, TrimEnd(t));
    assert CutFrom(s, Trim(s), |s| - |t|);
  }

  /** Cutting white space off the front of `s` and then off the back leaves a slice cut out of white space. */
  lemma SuffixPrefixCut(s: string, t: string, r: string)
    requires |t| <= |s| && t == s[|s| - |t|..] && forall k :: 0 <= k < |s| - |t| ==> IsSpace(s[k])
    requires |r| <= |t| && r == t[..|r|] && forall k :: |r| <= k < |t| ==> IsSpace(t[k])
    ensures CutFrom(s, r, |s| - |t|)
  {
    var i := |s| - |t|;
    assert r == s[i..i + |r|];
    forall k | i + |r| <= k < |s| ensures IsSpace(s[k]) {
      assert s[k] == t[k - i];
    }
  }

  /** A string without white space at either end is left alone by `trim`. */
  lemma TrimKeepsTrimmed(s: string)
    requires s == [] || (!IsSpace(s[0]) && !IsSpace(s[|s| - 1]))
    ensures Trim(s) == s
  {
  }

  lemma TrimIdempotent(s: string)
    ensures Trim(Trim(s)) == Trim(s)
  {
    TrimKeepsTrimmed(Trim(s));
  }

  /** `trim` yields the empty string exactly for the strings made of white space only. */
  lemma TrimEmptyIffBlank(s: string)
    ensures Trim(s) == [] <==> IsBlank(s)
  {
  }

  predicate IsUpper(c: char) {
    'A' <= c <= 'Z'
  }

  /** ASCII upper case to lower case; every other character is unchanged. */
  function LowerChar(c: char): char {
    if IsUpper(c) then (c as int + 32) as char else c
  }

  /** `s.toLowerCase()`, restricted to the ASCII letters. */
  function Lower(s: string): (r: string)
    ensures |r| == |s|
    ensures forall k :: 0 <= k < |r| ==> !IsUpper(r[k])
    ensures forall k :: 0 <= k < |s| && !IsUpper(s[k]) ==> r[k] == s[k]
    ensures forall k :: 0 <= k < |s| && IsUpper(s[k]) ==> r[k] as int == s[k] as int + 32
  {
    seq(|s|, k requires 0 <= k < |s| => LowerChar(s[k]))
  }

  /** Two characters that lower-case alike: equal, or an upper-case letter and its lower-case form. */
  predicate SameLetter(c: char, d: char) {
    c == d || (IsUpper(c) && d as int == c as int + 32) || (IsUpper(d) && c as int == d as int + 32)
  }

  /** Two strings lower-case alike exactly when they agree position by position up to letter case. */
  lemma LowerMatchIgnoresCase(a: string, b: string)
    ensures Lower(a) == Lower(b) <==> |a| == |b| && forall k :: 0 <= k < |a| ==> SameLetter(a[k], b[k])
  {
    if Lower(a) == Lower(b) {
      forall k | 0 <= k < |a| ensures SameLetter(a[k], b[k]) {
        assert Lower(a)[k] == Lower(b)[k];
      }
    }
    if |a| == |b| && forall k :: 0 <= k < |a| ==> SameLetter(a[k], b[k]) {
      forall k | 0 <= k < |a| ensures Lower(a)[k] == Lower(b)[k] {
        assert SameLetter(a[k], b[k]);
      }
    }
  }

  lemma LowerIdempotent(s: string)
    ensures Lower(Lower(s)) == Lower(s)
  {
  }

  predicate IsDigit(c: char) {
    '0' <= c <= '9'
  }

  predicate AllDigits(s: string) {
    forall k :: 0 <= k < |s| ==> IsDigit(s[k])
  }

  function DigitChar(d: nat): (c: char)
    requires d < 10
    ensures IsDigit(c)
  {
    ('0' as int + d) as char
  }

  function DigitValue(c: char): (d: nat)
    requires IsDigit(c)
    ensures d < 10 && DigitChar(d) == c
  {
    c as int - '0' as int
  }

  /** `String(n)` for a natural number: its decimal digits, most significant first. */
  function Decimal(n: nat): (r: string)
    ensures |r| >= 1 && AllDigits(r)
  {
    if n < 10 then [DigitChar(n)] else Decimal(n / 10) + [DigitChar(n % 10)]
  }

  /** The number a string of decimal digits denotes. */
  function DecimalValue(s: string): nat
    requires AllDigits(s)
  {
    if s == [] then 0 else DecimalValue(s[..|s| - 1]) * 10 + DigitValue(s[|s| - 1])
  }

  lemma {:induction false} DecimalRoundTrip(n: nat)
    ensures DecimalValue(Decimal(n)) == n
  {
    if n >= 10 {
      var s := Decimal(n);
      assert s[..|s| - 1] == Decimal(n / 10);
      DecimalRoundTrip(n / 10);
    }
  }

  /** A leading zero does not change the value of a digit string. */
  lemma {:induction false} LeadingZero(s: string)
    requires AllDigits(s)
    ensures DecimalValue("0" + s) == DecimalValue(s)
  {
    if s != [] {
      assert ("0" + s)[..|s|] == "0" + s[..|s| - 1];
      LeadingZero(s[..|s| - 1]);
    }
  }

  /** `String(n)` for an integer. */
  function IntToString(n: int): (r: string)
    ensures r != [] && (IsDigit(r[0]) || r[0] == '-') && IsDigit(r[|r| - 1])
  {
    if n < 0 then "-" + Decimal(-n) else Decimal(n)
  }

  /**
   * `Number(s)` for a string, restricted to integers: white space around is
   * ignored, a blank string is 0, an optional sign is followed by decimal
   * digits. `None` stands for `NaN`.
   */
  function ParseNumber(s: string): Option<int>
  {
    ReadTrimmed(Trim(s))
  }

  /** `Number` of a string without surrounding white space. */
  function ReadTrimmed(t: string): Option<int>
  {
    if t == [] then Some(0)
    else if (t[0] == '-' || t[0] == '+') && |t| > 1 && AllDigits(t[1..]) then
      var magnitude: int := DecimalValue(t[1..]);
      Some(if t[0] == '-' then -magnitude else magnitude)
    else if AllDigits(t) then Some(DecimalValue(t))
    else None
  }

  /** A blank string reads as the number 0. */
  lemma ParseBlank(s: string)
    requires IsBlank(s)
    ensures ParseNumber(s) == Some(0)
  {
    TrimEmptyIffBlank(s);
  }

  /** A string whose last non-blank character is not a digit, such as "12abc", reads as `NaN`. */
  lemma ParseNonDigitEnd(s: string)
    requires Trim(s) != [] && !IsDigit(Trim(s)[|Trim(s)| - 1])
    ensures ParseNumber(s) == None
  {
    var t := Trim(s);
    assert !AllDigits(t);
    assert |t| > 1 ==> !AllDigits(t[1..]) by {
      if |t| > 1 {
        assert t[1..][|t| - 2] == t[|t| - 1];
      }
    }
  }

  /** A string of digits, optionally signed, denotes the integer it spells. */
  lemma ReadSignedDigits(s: string, negative: bool, digits: string)
    requires digits != [] && AllDigits(digits)
    requires s == (if negative then "-" else "") + digits
    ensures ReadTrimmed(s) == Some(if negative then -(DecimalValue(digits) as int) else DecimalValue(digits))
  {
    if negative {
      assert s[1..] == digits;
    } else {
      assert s == digits;
    }
  }

  /** A string of digits, optionally signed, reads as the integer it spells. */
  lemma ParseSignedDigits(s: string, negative: bool, digits: string)
    requires digits != [] && AllDigits(digits)
    requires s == (if negative then "-" else "") + digits
    ensures ParseNumber(s) == Some(if negative then -(DecimalValue(digits) as int) else DecimalValue(digits))
  {
    assert !IsSpace(s[0]) && !IsSpace(s[|s| - 1]);
    TrimKeepsTrimmed(s);
    ReadSignedDigits(s, negative, digits);
  }

  lemma NegativeRoundTrip(n: int)
    requires n < 0
    ensures ParseNumber(IntToString(n)) == Some(n)
  {
    var m: nat := -n;
    DecimalRoundTrip(m);
    ParseSignedDigits(IntToString(n), true, Decimal(m));
  }

  lemma NonNegativeRoundTrip(n: int)
    requires n >= 0
    ensures ParseNumber(IntToString(n)) == Some(n)
  {
    DecimalRoundTrip(n);
    ParseSignedDigits(IntToString(n), false, Decimal(n));
  }

  /** `Number(String(n)) === n` for every integer `n`. */
  lemma NumberRoundTrip(n: int)
    ensures ParseNumber(IntToString(n)) == Some(n)
  {
    if n < 0 {
      NegativeRoundTrip(n);
    } else {
      NonNegativeRoundTrip(n);
    }
  }
}
