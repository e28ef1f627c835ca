/** The C string helpers the compiler relies on: ASCII case folding
    (tolower, strcasecmp), '@' prefixes, decimal parsing and joining. */
module Text {
  import opened Errors

  /** C `tolower` in the "C" locale. */
  function Lower(c: char): char {
    if 'A' <= c <= 'Z' then (c as int + 32) as char else c
  }

  /** Every character folded with Lower (the effect of `sdstolower`). */
  function LowerStr(s: string): (r: string)
    ensures |r| == |s|
    ensures forall i :: 0 <= i < |s| ==> r[i] == Lower(s[i])
  {
    seq(|s|, i requires 0 <= i < |s| => Lower(s[i]))
  }

  /** `!strcasecmp(a, b)`: equal lengths and equal characters once folded. */
  predicate EqualsIgnoreCase(a: string, b: string) {
    |a| == |b| && (|a| == 0 || (Lower(a[0]) == Lower(b[0]) && EqualsIgnoreCase(a[1..], b[1..])))
  }

  /** Comparing ignoring case is comparing the folded strings. */
  lemma {:induction false} EqualsIgnoreCaseFolds(a: string, b: string)
    ensures EqualsIgnoreCase(a, b) <==> LowerStr(a) == LowerStr(b)
  {
    if |a| > 0 && |b| > 0 {
      EqualsIgnoreCaseFolds(a[1..], b[1..]);
      assert LowerStr(a) == [Lower(a[0])] + LowerStr(a[1..]);
      assert LowerStr(b) == [Lower(b[0])] + LowerStr(b[1..]);
    }
  }

  lemma LowerStrAppend(a: string, b: string)
    ensures LowerStr(a + b) == LowerStr(a) + LowerStr(b)
  {
  }

  lemma LowerStrIdempotent(s: string)
    ensures LowerStr(LowerStr(s)) == LowerStr(s)
  {
  }

  predicate StartsWithAt(s: string) {
    |s| > 0 && s[0] == '@'
  }

  /** One leading '@' removed, as `if (*s == '@') s++;` does. */
  function DropAt(s: string): (r: string)
    ensures StartsWithAt(s) ==> r == s[1..]
    ensures !StartsWithAt(s) ==> r == s
  {
    if StartsWithAt(s) then s[1..] else s
  }

  /** Every leading '@' removed, as `while (*s == '@') ++s;` does. */
  function StripAts(s: string): string {
    if StartsWithAt(s) then StripAts(s[1..]) else s
  }

  /** What is left is a suffix that does not start with '@', and
      everything before it is '@'. */
  lemma {:induction false} StripAtsMeaning(s: string)
    ensures var r := StripAts(s);
      |r| <= |s| && r == s[|s| - |r|..] && !StartsWithAt(r)
      && forall i :: 0 <= i < |s| - |r| ==> s[i] == '@'
  {
    if StartsWithAt(s) {
      StripAtsMeaning(s[1..]);
      var r := StripAts(s);
      forall i | 0 <= i < |s| - |r| ensures s[i] == '@' {
        if i > 0 { assert s[i] == s[1..][i - 1]; }
      }
    }
  }

  /** The strings joined with "," between consecutive elements. */
  function Joined(xs: seq<string>): string
  {
    if |xs| == 0 then ""
    else if |xs| == 1 then xs[0]
    else Joined(xs[..|xs| - 1]) + "," + xs[|xs| - 1]
  }

  predicate IsDigit(c: char) {
    '0' <= c <= '9'
  }

  predicate AllDigits(s: string) {
    forall i :: 0 <= i < |s| ==> IsDigit(s[i])
  }

  /** The value of a string of decimal digits. */
  function DigitsValue(s: string): nat
    requires AllDigits(s)
  {
    if |s| == 0 then 0
    else
      assert IsDigit(s[|s| - 1]);
      DigitsValue(s[..|s| - 1]) * 10 + (s[|s| - 1] as int - '0' as int)
  }

  /** An unsigned decimal: one or more digits and nothing else. */
  function ParseUInt(s: string): (r: Option<nat>)
    ensures r.Some? <==> |s| > 0 && AllDigits(s)
  {
    if |s| > 0 && AllDigits(s) then Some(DigitsValue(s)) else None
  }

  /** A signed decimal: an optional '-' followed by an unsigned decimal. */
  function ParseInt(s: string): (r: Option<int>)
    ensures r.Some? && r.value < 0 ==> |s| > 0 && s[0] == '-'
  {
    if |s| > 0 && s[0] == '-' then
      match ParseUInt(s[1..])
      case Some(v) => Some(-(v as int))
      case None => None
    else
      match ParseUInt(s)
      case Some(v) => Some(v)
      case None => None
  }

  /** The length of the longest prefix of decimal digits. */
  function DigitPrefixLength(s: string): (n: nat)
    ensures n <= |s| && AllDigits(s[..n])
    ensures n < |s| ==> !IsDigit(s[n])
  {
    if |s| > 0 && IsDigit(s[0]) then
      var k := DigitPrefixLength(s[1..]);
      assert s[..k + 1] == [s[0]] + s[1..][..k];
      k + 1
    else 0
  }

  /** C `strtol(s, NULL, 10)` without leading white space or overflow:
      an optional sign, then as many digits as follow; 0 when none do. */
  function Strtol(s: string): int
  {
    if |s| > 0 && (s[0] == '-' || s[0] == '+') then
      var rest := s[1..];
      var v: int := DigitsValue(rest[..DigitPrefixLength(rest)]);
      if s[0] == '-' then -v else v
    else
      DigitsValue(s[..DigitPrefixLength(s)])
  }

  /** `strtol` reads a well-formed decimal the way the argument readers do:
      where ParseInt accepts a token, Strtol gives the same number. */
  lemma StrtolAgreesWithParseInt(s: string)
    requires ParseInt(s).Some?
    ensures Strtol(s) == ParseInt(s).value
  {
    if s[0] == '-' {
      var rest := s[1..];
      assert DigitPrefixLength(rest) == |rest|;
      assert rest[..|rest|] == rest;
    } else {
      assert DigitPrefixLength(s) == |s|;
      assert s[..|s|] == s;
    }
  }

  /** The decimal spelling of a number, as `%llu` prints it. */
  function DecimalString(n: nat): (r: string)
    ensures |r| > 0 && AllDigits(r)
  {
    var d := ['0' + (n % 10) as char];
    if n < 10 then d else DecimalString(n / 10) + d
  }

  /** Printing a number and reading it back gives the number. */
  lemma {:induction false} DecimalStringRoundTrip(n: nat)
    ensures ParseUInt(DecimalString(n)) == Some(n)
    ensures DigitsValue(DecimalString(n)) == n
  {
    var d := ['0' + (n % 10) as char];
    assert d[0] as int - '0' as int == n % 10;
    if n < 10 {
      assert d[..0] == [];
      assert DigitsValue(d) == DigitsValue(d[..0]) * 10 + n % 10;
    } else {
      DecimalStringRoundTrip(n / 10);
      var s := DecimalString(n / 10) + d;
      assert s[..|s| - 1] == DecimalString(n / 10);
      assert DigitsValue(s) == DigitsValue(s[..|s| - 1]) * 10 + n % 10;
    }
  }

  /** A number written in decimal reads back as itself. */
  lemma ParseIntOfDecimal(n: nat)
    ensures ParseInt(DecimalString(n)) == Some(n)
  {
    DecimalStringRoundTrip(n);
    assert IsDigit(DecimalString(n)[0]);
  }
}
