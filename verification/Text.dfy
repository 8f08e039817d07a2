/**
 The only thing the controller ever reads in an error is whether its text says "not found".
 This module models that classification (pkg/actuators/machine/utils.go:143-150) and the four
 errors findVMByName words itself (pkg/actuators/machine/vm.go:811-823).
 */
module Text {
  import opened Decimal

  function LowerChar(c: char): char {
    if 'A' <= c <= 'Z' then c - 'A' + 'a' else c
  }

  function ToLower(s: string): (r: string) {
    seq(|s|, i requires 0 <= i < |s| => LowerChar(s[i]))
  }

  /** p occurs in s at position i. */
  predicate OccursAt(s: string, p: string, i: nat) {
    i + |p| <= |s| && s[i..i + |p|] == p
  }

  predicate Contains(s: string, p: string) {
    exists i :: 0 <= i <= |s| && OccursAt(s, p, i)
  }

  const UNDERSCORED := "not_found"
  const SPACED := "not found"

  /** The error text says that the entity does not exist. */
  predicate IsNotFound(msg: string) {
    Contains(ToLower(msg), UNDERSCORED) || Contains(ToLower(msg), SPACED)
  }

  // ---------------------------------------------------------------- The errors of findVMByName

  /** Go's %q of a string that needs no escape, as a legal host name never does. */
  function Quoted(s: string): string { "\"" + s + "\"" }

  function ZeroMatchesError(name: string): string {
    "VM with name " + Quoted(name) + " not found"
  }

  function AmbiguousError(count: nat, name: string): string {
    "found more than one (" + FormatNat(count) + ") VMs with name " + name
  }

  function NilIdError(name: string): string {
    "VM with name " + Quoted(name) + " found but has nil ExtId"
  }

  function ListError(name: string, cause: string): string {
    "finding VM by name " + name + ": " + cause
  }

  /** Section 2.1 of RFC 1123: letters, digits and hyphens in dot-separated labels. */
  predicate HostChar(c: char) {
    'a' <= c <= 'z' || 'A' <= c <= 'Z' || '0' <= c <= '9' || c == '-' || c == '.'
  }

  predicate LegalHostName(s: string) {
    && s != ""
    && (forall i :: 0 <= i < |s| ==> HostChar(s[i]))
    && s[0] != '-' && s[0] != '.' && s[|s| - 1] != '-' && s[|s| - 1] != '.'
  }

  // ---------------------------------------------------------------- Occurrence lemmas

  lemma LowerConcat(a: string, b: string)
    ensures ToLower(a + b) == ToLower(a) + ToLower(b)
  {
  }

  lemma ContainsLeft(a: string, b: string, p: string)
    requires Contains(a, p)
    ensures Contains(a + b, p)
  {
    var i :| 0 <= i <= |a| && OccursAt(a, p, i);
    assert (a + b)[i..i + |p|] == a[i..i + |p|];
    assert OccursAt(a + b, p, i);
  }

  lemma ContainsRight(a: string, b: string, p: string)
    requires Contains(b, p)
    ensures Contains(a + b, p)
  {
    var i :| 0 <= i <= |b| && OccursAt(b, p, i);
    assert (a + b)[|a| + i..|a| + i + |p|] == b[i..i + |p|];
    assert OccursAt(a + b, p, |a| + i);
  }

  lemma OccurrenceUses(s: string, p: string, i: nat)
    requires OccursAt(s, p, i)
    ensures forall k :: i <= k < i + |p| ==> s[k] in p
  {
    forall k | i <= k < i + |p|
      ensures s[k] in p
    {
      assert s[k] == s[i..i + |p|][k - i];
    }
  }

  /** A character the pattern does not use cuts the text in two: no occurrence spans it. */
  lemma SplitAt(a: string, c: char, b: string, p: string)
    requires p != "" && c !in p
    ensures Contains(a + [c] + b, p) <==> Contains(a, p) || Contains(b, p)
  {
    var s := a + [c] + b;
    if Contains(s, p) {
      var i :| 0 <= i <= |s| && OccursAt(s, p, i);
      OccurrenceUses(s, p, i);
      assert s[|a|] == c;
      if i + |p| <= |a| {
        assert a[i..i + |p|] == s[i..i + |p|];
        assert OccursAt(a, p, i);
      } else {
        var j := i - |a| - 1;
        assert b[j..j + |p|] == s[i..i + |p|];
        assert OccursAt(b, p, j);
      }
    }
    if Contains(a, p) {
      ContainsLeft(a, [c] + b, p);
      assert a + ([c] + b) == s;
    }
    if Contains(b, p) {
      ContainsRight(a + [c], b, p);
    }
  }

  lemma TooShort(s: string, p: string)
    requires |s| < |p|
    ensures !Contains(s, p)
  {
  }

  lemma NoFirstChar(s: string, p: string)
    requires p != "" && p[0] !in s
    ensures !Contains(s, p)
  {
    forall i | 0 <= i <= |s| && i + |p| <= |s|
      ensures !OccursAt(s, p, i)
    {
      assert s[i..i + |p|][0] == s[i];
    }
  }

  /** IsNotFound for a text cut at a character that neither pattern uses. */
  lemma NotFoundSplit(a: string, c: char, b: string)
    requires LowerChar(c) !in "not_found "
    ensures IsNotFound(a + [c] + b) <==> IsNotFound(a) || IsNotFound(b)
  {
    LowerConcat(a, [c]);
    LowerConcat(a + [c], b);
    assert ToLower([c]) == [LowerChar(c)];
    var k := LowerChar(c);
    forall p | p == UNDERSCORED || p == SPACED
      ensures Contains(ToLower(a + [c] + b), p) <==> Contains(ToLower(a), p) || Contains(ToLower(b), p)
    {
      assert forall x :: x in p ==> x in "not_found ";
      SplitAt(ToLower(a), k, ToLower(b), p);
    }
  }

  lemma NotFoundShort(a: string)
    requires |a| < 9
    ensures !IsNotFound(a)
  {
    TooShort(ToLower(a), UNDERSCORED);
    TooShort(ToLower(a), SPACED);
  }

  lemma NotFoundNeedsN(a: string)
    requires forall i :: 0 <= i < |a| ==> LowerChar(a[i]) != 'n'
    ensures !IsNotFound(a)
  {
    assert 'n' !in ToLower(a);
    NoFirstChar(ToLower(a), UNDERSCORED);
    NoFirstChar(ToLower(a), SPACED);
  }

  /** A leading character that the pattern does not start with cannot start an occurrence. */
  lemma SkipFirst(c: char, t: string, p: string)
    requires p != "" && p[0] != c
    ensures Contains([c] + t, p) <==> Contains(t, p)
  {
    var s := [c] + t;
    if Contains(t, p) { ContainsRight([c], t, p); }
    if Contains(s, p) {
      var i :| 0 <= i <= |s| && OccursAt(s, p, i);
      assert s[i] == s[i..i + |p|][0] == p[0];
      assert t[i - 1..i - 1 + |p|] == s[i..i + |p|];
      assert OccursAt(t, p, i - 1);
    }
  }

  lemma NotFoundAfterSpace(a: string)
    ensures IsNotFound(" " + a) <==> IsNotFound(a)
  {
    LowerConcat(" ", a);
    assert ToLower(" ") == [' '];
    SkipFirst(' ', ToLower(a), UNDERSCORED);
    SkipFirst(' ', ToLower(a), SPACED);
  }

  // ---------------------------------------------------------------- What the classification sees

  /** The zero-match error is classified as not found, whatever the name. */
  lemma ZeroMatchesIsNotFound(name: string)
    ensures IsNotFound(ZeroMatchesError(name))
  {
    var front := "VM with name " + Quoted(name) + " ";
    assert ZeroMatchesError(name) == front + SPACED;
    LowerConcat(front, SPACED);
    assert ToLower(SPACED) == SPACED;
    assert OccursAt(SPACED, SPACED, 0);
    ContainsRight(ToLower(front), SPACED, SPACED);
  }

  lemma AmbiguousPrefix()
    ensures !IsNotFound("found more than one ")
  {
    NotFoundShort("an one ");
    NotFoundShort("found ");
    NotFoundShort("or");
    NotFoundSplit("or", 'e', " t" + ['h'] + "an one ");
    NotFoundShort(" t");
    NotFoundSplit(" t", 'h', "an one ");
    NotFoundSplit("found ", 'm', "or" + ['e'] + (" t" + ['h'] + "an one "));
    assert "found more than one " == "found " + ['m'] + ("or" + ['e'] + (" t" + ['h'] + "an one "));
  }

  lemma AmbiguousInfix()
    ensures !IsNotFound(" VMs with nam")
  {
    NotFoundShort(" VMs wit");
    NotFoundShort(" nam");
    NotFoundSplit(" VMs wit", 'h', " nam");
    assert " VMs with nam" == " VMs wit" + ['h'] + " nam";
  }

  /** The ambiguous-name error is misread as not found exactly when the name itself says so. */
  lemma AmbiguousIsNotFound(count: nat, name: string)
    ensures IsNotFound(AmbiguousError(count, name)) <==> IsNotFound(name)
  {
    var digits, prefix, infix := FormatNat(count), "found more than one ", " VMs with nam";
    NotFoundNeedsN(digits);
    AmbiguousPrefix();
    AmbiguousInfix();
    NotFoundSplit(prefix, '(', digits);
    NotFoundSplit(prefix + ['('] + digits, ')', infix);
    var front := prefix + ['('] + digits + [')'] + infix;
    NotFoundSplit(front, 'e', " " + name);
    NotFoundAfterSpace(name);
    AmbiguousShape(count, name);
  }

  lemma AmbiguousShape(count: nat, name: string)
    ensures AmbiguousError(count, name)
         == "found more than one " + ['('] + FormatNat(count) + [')'] + " VMs with nam" + ['e'] + (" " + name)
  {
    var digits := FormatNat(count);
    assert "found more than one (" == "found more than one " + ['('];
    assert ") VMs with name " == [')'] + " VMs with nam" + ['e'] + " ";
  }

  lemma NilIdPrefix()
    ensures !IsNotFound("VM with name ")
  {
    NotFoundShort("VM wit");
    NotFoundShort(" name ");
    NotFoundSplit("VM wit", 'h', " name ");
    assert "VM with name " == "VM wit" + ['h'] + " name ";
  }

  lemma NilIdSuffix()
    ensures !IsNotFound(" found but has nil ExtId")
  {
    NotFoundShort(" found ");
    NotFoundShort("ut ");
    NotFoundShort("as nil ");
    NotFoundShort("xtId");
    NotFoundSplit("as nil ", 'E', "xtId");
    NotFoundSplit("ut ", 'h', "as nil " + ['E'] + "xtId");
    NotFoundSplit(" found ", 'b', "ut " + ['h'] + ("as nil " + ['E'] + "xtId"));
    assert " found but has nil ExtId" == " found " + ['b'] + ("ut " + ['h'] + ("as nil " + ['E'] + "xtId"));
  }

  /** So is the error for a listed VM without an identifier. */
  lemma NilIdIsNotFound(name: string)
    ensures IsNotFound(NilIdError(name)) <==> IsNotFound(name)
  {
    NilIdPrefix();
    NilIdSuffix();
    var front := "VM with name " + ['"'] + name;
    NotFoundSplit("VM with name ", '"', name);
    NotFoundSplit(front, '"', " found but has nil ExtId");
    assert NilIdError(name) == front + ['"'] + " found but has nil ExtId";
  }

  /** A failed List is misread exactly when the name or the cause says "not found". */
  lemma ListErrorIsNotFound(name: string, cause: string)
    ensures IsNotFound(ListError(name, cause)) <==> IsNotFound(name) || IsNotFound(cause)
  {
    NotFoundShort("findin");
    NotFoundShort(" by nam");
    NotFoundShort(" V");
    NotFoundSplit(" V", 'M', " by nam");
    NotFoundSplit("findin", 'g', " V" + ['M'] + " by nam");
    var front := "findin" + ['g'] + (" V" + ['M'] + " by nam");
    assert front == "finding VM by nam";
    NotFoundSplit(front, 'e', " " + name);
    NotFoundAfterSpace(name);
    var head := front + ['e'] + (" " + name);
    NotFoundSplit(head, ':', " " + cause);
    NotFoundAfterSpace(cause);
    assert ListError(name, cause) == head + [':'] + (" " + cause);
  }

  /** A legal host name never says "not found": it has neither a space nor an underscore. */
  lemma HostNameIsNotNotFound(name: string)
    requires LegalHostName(name)
    ensures !IsNotFound(name)
  {
    var s := ToLower(name);
    forall i | 0 <= i < |s| ensures s[i] != ' ' && s[i] != '_' {
      assert HostChar(name[i]);
    }
    forall p, i | (p == UNDERSCORED || p == SPACED) && 0 <= i <= |s| && i + |p| <= |s|
      ensures !OccursAt(s, p, i)
    {
      assert s[i..i + |p|][3] == s[i + 3];
    }
  }

  /**
   For every machine name that is a legal host name: of the errors findVMByName words itself only
   the zero-match one is classified as not found, and a failed List keeps its cause's class.
   */
  lemma ClassificationIsRight(name: string, count: nat, cause: string)
    requires LegalHostName(name)
    ensures IsNotFound(ZeroMatchesError(name))
    ensures !IsNotFound(AmbiguousError(count, name))
    ensures !IsNotFound(NilIdError(name))
    ensures IsNotFound(ListError(name, cause)) <==> IsNotFound(cause)
  {
    HostNameIsNotNotFound(name);
    ZeroMatchesIsNotFound(name);
    AmbiguousIsNotFound(count, name);
    NilIdIsNotFound(name);
    ListErrorIsNotFound(name, cause);
  }

  /** Outside host names the classification does go wrong: two VMs named "not found". */
  lemma AmbiguityCanBeMisread()
    ensures IsNotFound(AmbiguousError(2, "not found"))
  {
    AmbiguousIsNotFound(2, "not found");
    assert OccursAt(ToLower("not found"), SPACED, 0);
  }
}
