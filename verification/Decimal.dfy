/** Base-ten text of integers, as strconv.FormatInt and the %d verb write it. */
module Decimal {
  import opened Basics

  function DigitChar(d: nat): (c: char)
    requires d < 10
    ensures '0' <= c <= '9'
  {
    '0' + d as char
  }

  function FormatNat(n: nat): (s: string)
    ensures s != "" && forall i :: 0 <= i < |s| ==> '0' <= s[i] <= '9'
  {
    if n < 10 then [DigitChar(n)] else FormatNat(n / 10) + [DigitChar(n % 10)]
  }

  function FormatInt(n: int): (s: string) {
    if n < 0 then "-" + FormatNat(-n) else FormatNat(n)
  }

  /** Reads a non-empty run of decimal digits. */
  function ParseNat(s: string): Option<nat> {
    if s == "" then None
    else
      var c := s[|s| - 1];
      if !('0' <= c <= '9') then None
      else
        var d := (c - '0') as nat;
        if |s| == 1 then Some(d)
        else
          match ParseNat(s[..|s| - 1])
          case None => None
          case Some(high) => Some(10 * high + d)
  }

  function Negate(n: nat): int { 0 - n }

  function ParseInt(s: string): Option<int> {
    if s != "" && s[0] == '-' then
      match ParseNat(s[1..])
      case None => None
      case Some(n) => Some(Negate(n))
    else
      match ParseNat(s)
      case None => None
      case Some(n) => Some(n)
  }

  lemma {:induction false} ParseFormatNat(n: nat)
    ensures ParseNat(FormatNat(n)) == Some(n)
  {
    if n < 10 {
      assert DigitChar(n) - '0' == n as char;
    } else {
      ParseFormatNat(n / 10);
      var s := FormatNat(n);
      assert s[..|s| - 1] == FormatNat(n / 10);
      assert DigitChar(n % 10) - '0' == (n % 10) as char;
    }
  }

  /** Digits without a leading zero are the only such text of their value. */
  lemma {:induction false} FormatParseNat(s: string)
    requires ParseNat(s).Some? && (|s| == 1 || s[0] != '0')
    ensures FormatNat(ParseNat(s).value) == s
  {
    var n, d := |s| - 1, (s[|s| - 1] - '0') as nat;
    assert DigitChar(d) == s[n];
    if n > 0 {
      var front := s[..n];
      FormatParseNat(front);
      var high := ParseNat(front).value;
      assert s == front + [s[n]];
      assert high > 0 by { LeadingDigit(front); }
      assert (10 * high + d) / 10 == high && (10 * high + d) % 10 == d;
    }
  }

  lemma {:induction false} LeadingDigit(s: string)
    requires ParseNat(s).Some? && s[0] != '0'
    ensures ParseNat(s).value > 0
  {
    if |s| > 1 { LeadingDigit(s[..|s| - 1]); }
  }

  /** A leading dash is read as a sign; digits alone never start with one. */
  lemma DashedDigits(s: string)
    requires s != "" && '0' <= s[0] <= '9' && ParseNat(s).Some?
    ensures ParseInt("-" + s) == Some(Negate(ParseNat(s).value))
    ensures ParseInt(s) == Some(ParseNat(s).value)
  {
    assert ("-" + s)[1..] == s;
  }

  /** Reading back what was written gives the number that was written. */
  lemma ParseFormatInt(n: int)
    ensures ParseInt(FormatInt(n)) == Some(n)
  {
    var m: nat := if n < 0 then -n else n;
    ParseFormatNat(m);
    DashedDigits(FormatNat(m));
  }
}
