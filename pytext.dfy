/**
 * The two pieces of Python's string behaviour the application relies on:
 * `str.strip()` with no argument (main.py strips the text widget's contents
 * before counting, checking and splitting them) and `str(n)` for a
 * non-negative int (used in the export file names).
 */
module PyText {

  /** Python's `c.isspace()` for a single character: the characters whose
      Unicode bidirectional class is WS, B or S, or whose category is Zs.
      By code point: 9-13 (tab, line feed, vertical tab, form feed, carriage
      return), 28-32 (the four separators and space), 0x85, 0xA0, 0x1680,
      0x2000-0x200A, 0x2028, 0x2029, 0x202F, 0x205F and 0x3000. */
  predicate IsSpace(c: char) {
    var n := c as int;
    || 9 <= n <= 13 || 28 <= n <= 32 || n == 0x85 || n == 0xA0 || n == 0x1680
    || 0x2000 <= n <= 0x200A || n == 0x2028 || n == 0x2029 || n == 0x202F || n == 0x205F
    || n == 0x3000
  }

  /** Among ASCII characters, `isspace()` holds for space, tab, line feed,
      vertical tab, form feed, carriage return and the four separators
      0x1C-0x1F, and for nothing else. */
  lemma IsSpaceAscii(c: char)
    requires (c as int) < 0x80
    ensures IsSpace(c) <==> c in {' ', '\t', '\n', '\U{0B}', '\U{0C}', '\r', '\U{1C}', '\U{1D}', '\U{1E}', '\U{1F}'}
  {
  }

  predicate AllSpace(s: string) {
    forall k :: 0 <= k < |s| ==> IsSpace(s[k])
  }

  /** The forward scan of `strip`: from `i`, skip whitespace before `j`. The
      result is the first non-whitespace position in `s[i..j]`, or `j`. */
  function SkipLeading(s: string, i: nat, j: nat): (r: nat)
    requires i <= j <= |s|
    ensures i <= r <= j
    ensures forall k :: i <= k < r ==> IsSpace(s[k])
    ensures r < j ==> !IsSpace(s[r])
    decreases j - i
  {
    if i < j && IsSpace(s[i]) then SkipLeading(s, i + 1, j) else i
  }

  /** The backward scan of `strip`: from `j`, step back over whitespace but
      not past `i`. The result is one past the last non-whitespace position
      in `s[i..j]`, or `i`. */
  function SkipTrailing(s: string, i: nat, j: nat): (r: nat)
    requires i <= j <= |s|
    ensures i <= r <= j
    ensures forall k :: r <= k < j ==> IsSpace(s[k])
    ensures r > i ==> !IsSpace(s[r - 1])
    decreases j
  {
    if j > i && IsSpace(s[j - 1]) then SkipTrailing(s, i, j - 1) else j
  }

  /** The bounds `(i, j)` of what `strip` keeps: `s[..i]` and `s[j..]` are
      whitespace, and when something is kept it starts and ends with a
      character that is not whitespace. */
  function StripBounds(s: string): (b: (nat, nat))
    ensures b.0 <= b.1 <= |s|
    ensures forall k :: 0 <= k < b.0 ==> IsSpace(s[k])
    ensures forall k :: b.1 <= k < |s| ==> IsSpace(s[k])
    ensures b.0 < b.1 ==> !IsSpace(s[b.0]) && !IsSpace(s[b.1 - 1])
  {
    var i := SkipLeading(s, 0, |s|);
    (i, SkipTrailing(s, i, |s|))
  }

  /** Python's `s.strip()`: the slice between the leading and the trailing
      whitespace; it neither starts nor ends with whitespace. */
  function Strip(s: string): (r: string)
    ensures |r| <= |s|
    ensures r != [] ==> !IsSpace(r[0]) && !IsSpace(r[|r| - 1])
  {
    s[StripBounds(s).0..StripBounds(s).1]
  }

  /** Any slice that has only whitespace around it and none at its own ends
      is what `strip` keeps. */
  lemma StripCharacterized(s: string, i: nat, j: nat)
    requires i < j <= |s|
    requires forall k :: 0 <= k < i ==> IsSpace(s[k])
    requires forall k :: j <= k < |s| ==> IsSpace(s[k])
    requires !IsSpace(s[i]) && !IsSpace(s[j - 1])
    ensures Strip(s) == s[i..j]
  {
  }

  /** The stripped text is empty exactly when the input is all whitespace. */
  lemma StripEmptyIffAllSpace(s: string)
    ensures Strip(s) == [] <==> AllSpace(s)
  {
    var b := StripBounds(s);
    assert b.0 < b.1 ==> s[b.0] == Strip(s)[0];
  }

  /** A widget holding only its trailing line break reads as empty. */
  lemma StripLineBreak()
    ensures Strip("\n") == []
  {
    StripEmptyIffAllSpace("\n");
  }

  /** Stripping twice is stripping once. */
  lemma StripIdempotent(s: string)
    ensures Strip(Strip(s)) == Strip(s)
  {
    var r := Strip(s);
    if r != [] {
      StripCharacterized(r, 0, |r|);
    }
  }

  /** A Tk text widget always reports its contents with one trailing line
      break; stripping makes that line break irrelevant. */
  lemma StripIgnoresTrailingNewline(s: string)
    ensures Strip(s + "\n") == Strip(s)
  {
    var t := s + "\n";
    var b := StripBounds(s);
    StripEmptyIffAllSpace(s);
    StripEmptyIffAllSpace(t);
    if b.0 < b.1 {
      StripCharacterized(t, b.0, b.1);
      assert t[b.0..b.1] == s[b.0..b.1];
    } else {
      assert forall k :: 0 <= k < |t| ==> IsSpace(t[k]) by {
        assert forall k :: 0 <= k < |s| ==> t[k] == s[k];
      }
    }
  }

  // ---------------------------------------------------------------------
  // Decimal rendering of a non-negative int, as Python's `str(n)` does it.

  function DigitChar(d: nat): (c: char)
    requires d < 10
    ensures '0' <= c <= '9'
  {
    ['0', '1', '2', '3', '4', '5', '6', '7', '8', '9'][d]
  }

  predicate IsDigit(c: char) {
    '0' <= c <= '9'
  }

  predicate IsDigitString(s: string) {
    forall k :: 0 <= k < |s| ==> IsDigit(s[k])
  }

  function DigitValue(c: char): (d: nat)
    requires IsDigit(c)
    ensures d < 10
  {
    (c as int) - ('0' as int)
  }

  /** `str(n)`: non-empty, all digits, and without a leading zero unless n is 0. */
  function Decimal(n: nat): (s: string)
    ensures s != [] && IsDigitString(s)
    ensures s[0] == '0' ==> n == 0
  {
    if n < 10 then [DigitChar(n)] else Decimal(n / 10) + [DigitChar(n % 10)]
  }

  /** The value of a string of decimal digits, read most significant first. */
  function ParseDecimal(s: string): nat
    requires IsDigitString(s)
  {
    if s == [] then 0 else 10 * ParseDecimal(s[..|s| - 1]) + DigitValue(s[|s| - 1])
  }

  lemma {:induction false} DecimalRoundTrip(n: nat)
    ensures ParseDecimal(Decimal(n)) == n
  {
    var s := Decimal(n);
    if n < 10 {
      assert s[..0] == [];
    } else {
      assert s[..|s| - 1] == Decimal(n / 10);
      DecimalRoundTrip(n / 10);
    }
  }

  /** Different numbers get different renderings. */
  lemma DecimalInjective(m: nat, n: nat)
    requires Decimal(m) == Decimal(n)
    ensures m == n
  {
    DecimalRoundTrip(m);
    DecimalRoundTrip(n);
  }
}
