/**
 Which address texts isLinkLocal (pkg/actuators/machine/machine_scope.go:434-447) recognises.
 net.ParseIP tells the families apart by the first of '.', ':' and '%'. Dotted text is parsed here in
 full; the parser of colon text is a parameter, so what is proved holds for any.
 */
module IpText {
  import opened Basics
  import opened Decimal

  /** The parser of texts whose first separator is a colon: the bytes of the address, if it is one. */
  type V6Parser = string -> Option<seq<int>>

  // ---------------------------------------------------------------- Dotted text

  /** Splits at every dot. */
  function Fields(s: string): (f: seq<string>)
    ensures f != []
  {
    if s == "" then [""]
    else if s[0] == '.' then [""] + Fields(s[1..])
    else
      var rest := Fields(s[1..]);
      [[s[0]] + rest[0]] + rest[1..]
  }

  function Join(f: seq<string>): string
    requires f != []
  {
    if |f| == 1 then f[0] else f[0] + "." + Join(f[1..])
  }

  /** One field: decimal digits, no leading zero, at most 255. */
  function Octet(s: string): Option<nat> {
    var n := ParseNat(s);
    if n.Some? && n.value <= 255 && (|s| == 1 || s[0] != '0') then n else None
  }

  function ParseV4(s: string): Option<seq<int>> {
    var f := Fields(s);
    if |f| == 4 && Octet(f[0]).Some? && Octet(f[1]).Some? && Octet(f[2]).Some? && Octet(f[3]).Some?
    then Some([Octet(f[0]).value, Octet(f[1]).value, Octet(f[2]).value, Octet(f[3]).value])
    else None
  }

  /** net.ParseIP. */
  function ParseIP(v6: V6Parser, s: string): Option<seq<int>> {
    match FirstSeparator(s)
    case Some('.') => ParseV4(s)
    case Some(':') => v6(s)
    case _ => None
  }

  function FirstSeparator(s: string): Option<char> {
    if s == "" then None
    else if s[0] == '.' || s[0] == ':' || s[0] == '%' then Some(s[0])
    else FirstSeparator(s[1..])
  }

  /** net.IP.To4: four bytes, or sixteen that map an IPv4 address. */
  function To4(b: seq<int>): Option<seq<int>> {
    if |b| == 4 then Some(b)
    else if |b| == 16 && b[..10] == [0, 0, 0, 0, 0, 0, 0, 0, 0, 0] && b[10] == 255 && b[11] == 255 then Some(b[12..])
    else None
  }

  /** isLinkLocal. Text that is no address is not link-local. */
  predicate IsLinkLocal(v6: V6Parser, s: string) {
    match ParseIP(v6, s)
    case None => false
    case Some(b) => To4(b).Some? && To4(b).value[0] == 169 && To4(b).value[1] == 254
  }

  // ---------------------------------------------------------------- What is recognised

  predicate IsByte(n: int) { 0 <= n < 256 }

  function Dotted(a: int, b: int, c: int, d: int): string
    requires IsByte(a) && IsByte(b) && IsByte(c) && IsByte(d)
  {
    FormatNat(a) + "." + (FormatNat(b) + "." + (FormatNat(c) + "." + FormatNat(d)))
  }

  lemma OctetRoundTrip(n: nat)
    requires IsByte(n)
    ensures Octet(FormatNat(n)) == Some(n)
  {
    ParseFormatNat(n);
    NoLeadingZero(n);
  }

  lemma {:induction false} NoLeadingZero(n: nat)
    ensures |FormatNat(n)| == 1 || FormatNat(n)[0] != '0'
  {
    if n >= 10 {
      NoLeadingZero(n / 10);
      if n / 10 < 10 { assert DigitChar(n / 10) != '0'; }
    }
  }

  /** A field that parses is the only text of its value. */
  lemma OctetCanonical(s: string)
    requires Octet(s).Some?
    ensures IsByte(Octet(s).value) && s == FormatNat(Octet(s).value)
  {
    FormatParseNat(s);
  }

  lemma {:induction false} JoinFields(s: string)
    ensures Join(Fields(s)) == s
  {
    if s != "" {
      JoinFields(s[1..]);
      var rest := Fields(s[1..]);
      if s[0] == '.' {
        assert ([""] + rest)[1..] == rest;
      } else {
        assert ([[s[0]] + rest[0]] + rest[1..])[1..] == rest[1..];
      }
    }
  }

  lemma {:induction false} FieldsOfOne(p: string)
    requires '.' !in p
    ensures Fields(p) == [p]
  {
    if p != "" {
      assert p[0] in p;
      FieldsOfOne(p[1..]);
      assert p == [p[0]] + p[1..];
    }
  }

  lemma {:induction false} FieldsCons(p: string, rest: string)
    requires '.' !in p
    ensures Fields(p + "." + rest) == [p] + Fields(rest)
  {
    var s := p + "." + rest;
    if p == "" {
      assert s[1..] == rest;
    } else {
      assert p[0] in p;
      FieldsCons(p[1..], rest);
      assert s[1..] == p[1..] + "." + rest;
      assert p == [p[0]] + p[1..];
      assert ([p[1..]] + Fields(rest))[1..] == Fields(rest);
    }
  }

  lemma FieldsOfDotted(a: int, b: int, c: int, d: int)
    requires IsByte(a) && IsByte(b) && IsByte(c) && IsByte(d)
    ensures Fields(Dotted(a, b, c, d)) == [FormatNat(a), FormatNat(b), FormatNat(c), FormatNat(d)]
  {
    hide Fields;
    var ta, tb, tc, td := FormatNat(a), FormatNat(b), FormatNat(c), FormatNat(d);
    FieldsCons(ta, tb + "." + (tc + "." + td));
    FieldsCons(tb, tc + "." + td);
    FieldsCons(tc, td);
    FieldsOfOne(td);
  }

  /** The parser accepts the canonical dotted text of four bytes and nothing else. */
  lemma ParseV4Exact(s: string, a: int, b: int, c: int, d: int)
    ensures ParseV4(s) == Some([a, b, c, d]) <==>
      IsByte(a) && IsByte(b) && IsByte(c) && IsByte(d) && s == Dotted(a, b, c, d)
  {
    hide Octet, FormatNat, Fields;
    if ParseV4(s) == Some([a, b, c, d]) {
      var f := Fields(s);
      JoinFields(s);
      OctetCanonical(f[0]);
      OctetCanonical(f[1]);
      OctetCanonical(f[2]);
      OctetCanonical(f[3]);
      assert [a, b, c, d][0] == a && [a, b, c, d][1] == b && [a, b, c, d][2] == c && [a, b, c, d][3] == d;
      JoinFour(f);
    }
    if IsByte(a) && IsByte(b) && IsByte(c) && IsByte(d) && s == Dotted(a, b, c, d) {
      FieldsOfDotted(a, b, c, d);
      OctetRoundTrip(a);
      OctetRoundTrip(b);
      OctetRoundTrip(c);
      OctetRoundTrip(d);
    }
  }

  lemma JoinFour(f: seq<string>)
    requires |f| == 4
    ensures Join(f) == f[0] + "." + (f[1] + "." + (f[2] + "." + f[3]))
  {
    assert f[1..][1..] == f[2..] && f[2..][1..] == f[3..];
    assert Join(f[3..]) == f[3];
    assert Join(f[2..]) == f[2] + "." + f[3];
    assert Join(f[1..]) == f[1] + "." + (f[2] + "." + f[3]);
  }

  lemma {:induction false} SeparatorAfterDigits(p: string, rest: string)
    requires forall i :: 0 <= i < |p| ==> '0' <= p[i] <= '9'
    ensures FirstSeparator(p + "." + rest) == Some('.')
  {
    if p != "" {
      SeparatorAfterDigits(p[1..], rest);
      assert (p + "." + rest)[1..] == p[1..] + "." + rest;
    }
  }

  /** Among dotted texts exactly 169.254.0.0/16 (section 2.1 of RFC 3927) is link-local. */
  lemma DottedLinkLocal(v6: V6Parser, a: int, b: int, c: int, d: int)
    requires IsByte(a) && IsByte(b) && IsByte(c) && IsByte(d)
    ensures IsLinkLocal(v6, Dotted(a, b, c, d)) <==> a == 169 && b == 254
  {
    hide ParseV4;
    ParseV4Exact(Dotted(a, b, c, d), a, b, c, d);
    SeparatorAfterDigits(FormatNat(a), FormatNat(b) + "." + (FormatNat(c) + "." + FormatNat(d)));
  }

  /** And no other text that starts with a dot-separated field is. */
  lemma LinkLocalIsDotted(v6: V6Parser, s: string)
    requires IsLinkLocal(v6, s) && FirstSeparator(s) == Some('.')
    ensures exists c, d :: IsByte(c) && IsByte(d) && s == Dotted(169, 254, c, d)
  {
    hide ParseV4;
    var b := ParseV4Shape(s);
    ParseV4Exact(s, b[0], b[1], b[2], b[3]);
  }

  /** Text whose first separator is a colon is link-local exactly when it parses to such an address mapped into 16 bytes, or to its 4. */
  lemma ColonLinkLocal(v6: V6Parser, p: string, rest: string)
    requires forall i :: 0 <= i < |p| ==> p[i] != '.' && p[i] != ':' && p[i] != '%'
    ensures var s := p + ":" + rest;
      IsLinkLocal(v6, s) <==> exists b :: v6(s) == Some(b) && MapsLinkLocal(b)
  {
    FirstIs(p, ':', rest);
  }

  predicate MapsLinkLocal(b: seq<int>) {
    || (|b| == 4 && b[0] == 169 && b[1] == 254)
    || (|b| == 16 && (forall i :: 0 <= i < 10 ==> b[i] == 0) && b[10] == b[11] == 255 && b[12] == 169 && b[13] == 254)
  }

  /** Text with a zone before any other separator, or with no separator at all, is no address. */
  lemma OtherTextIsNotLinkLocal(v6: V6Parser, p: string, rest: string)
    requires forall i :: 0 <= i < |p| ==> p[i] != '.' && p[i] != ':' && p[i] != '%'
    ensures !IsLinkLocal(v6, p) && !IsLinkLocal(v6, p + "%" + rest)
  {
    FirstIs(p, '%', rest);
    NoSeparator(p);
  }

  lemma {:induction false} FirstIs(p: string, c: char, rest: string)
    requires forall i :: 0 <= i < |p| ==> p[i] != '.' && p[i] != ':' && p[i] != '%'
    requires c == '.' || c == ':' || c == '%'
    ensures FirstSeparator(p + [c] + rest) == Some(c)
  {
    if p != "" {
      FirstIs(p[1..], c, rest);
      assert (p + [c] + rest)[1..] == p[1..] + [c] + rest;
    }
  }

  lemma {:induction false} NoSeparator(p: string)
    requires forall i :: 0 <= i < |p| ==> p[i] != '.' && p[i] != ':' && p[i] != '%'
    ensures FirstSeparator(p).None?
  {
    if p != "" { NoSeparator(p[1..]); }
  }

  lemma ParseV4Shape(s: string) returns (b: seq<int>)
    requires ParseV4(s).Some?
    ensures |b| == 4 && ParseV4(s) == Some([b[0], b[1], b[2], b[3]]) && b == ParseV4(s).value
  {
    b := ParseV4(s).value;
  }
}
