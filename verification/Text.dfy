/** The few string operations of Go's `strings` package that the system relies on. */
module Text {

  /** Unicode white space, as `strings.TrimSpace` sees it. */
  predicate IsSpace(c: char) {
    || '\t' <= c <= '\r' || c == ' ' || c == '\U{85}' || c == '\U{A0}' || c == '\U{1680}'
    || '\U{2000}' <= c <= '\U{200A}' || c == '\U{2028}' || c == '\U{2029}' || c == '\U{202F}'
    || c == '\U{205F}' || c == '\U{3000}'
  }

  predicate Blank(s: string) {
    forall i | 0 <= i < |s| :: IsSpace(s[i])
  }

  function TrimLeft(s: string): (r: string)
    ensures |r| <= |s| && r == s[|s| - |r|..]
    ensures r == "" || !IsSpace(r[0])
  {
    if s != "" && IsSpace(s[0]) then TrimLeft(s[1..]) else s
  }

  function TrimRight(s: string): (r: string)
    ensures r <= s
    ensures r == "" || !IsSpace(r[|r| - 1])
  {
    if s != "" && IsSpace(s[|s| - 1]) then TrimRight(s[..|s| - 1]) else s
  }

  function TrimSpace(s: string): string {
    TrimRight(TrimLeft(s))
  }

  /**
   * Lower case, exact for every character whose lower case is ASCII: besides A-Z those are the
   * dotted capital I and the Kelvin sign. Other characters stay outside ASCII and are left alone,
   * which no caller can tell apart: all of them look for ASCII results only.
   */
  function LowerChar(c: char): char {
    if 'A' <= c <= 'Z' then c - 'A' + 'a'
    else if c == '\U{130}' then 'i'
    else if c == '\U{212A}' then 'k'
    else c
  }

  function Lower(s: string): string {
    seq(|s|, i requires 0 <= i < |s| => LowerChar(s[i]))
  }

  /** What `strings.ToLower(strings.TrimSpace(s))` does to a tier or a language name. */
  function Normalize(s: string): string {
    Lower(TrimSpace(s))
  }

  // ----- what a normalised name says about the name it was made from

  /** `c` is the letter `d`, in either case; two characters outside ASCII also have an ASCII lower case. */
  predicate Folds(c: char, d: char) {
    || c == d
    || ('A' <= c <= 'Z' && c as int + 32 == d as int)
    || (c == '\U{130}' && d == 'i')
    || (c == '\U{212A}' && d == 'k')
  }

  predicate Spells(s: string, name: string) {
    |s| == |name| && forall i | 0 <= i < |s| :: Folds(s[i], name[i])
  }

  /** `s` is the name in any case, with white space around it. */
  ghost predicate Named(s: string, name: string) {
    exists i, j | 0 <= i <= j <= |s| :: Blank(s[..i]) && Spells(s[i..j], name) && Blank(s[j..])
  }

  /** A plain name: lower-case letters only. */
  predicate Plain(name: string) {
    name != "" && forall i | 0 <= i < |name| :: 'a' <= name[i] <= 'z'
  }

  lemma LowerFolds(c: char, d: char)
    requires 'a' <= d <= 'z'
    ensures LowerChar(c) == d <==> Folds(c, d)
  {
  }

  lemma FoldsNoSpace(c: char, d: char)
    requires Folds(c, d) && 'a' <= d <= 'z'
    ensures !IsSpace(c)
  {
  }

  lemma LowerSpells(s: string, name: string)
    requires Plain(name)
    ensures Lower(s) == name <==> Spells(s, name)
  {
    forall i | 0 <= i < |s| && i < |name|
      ensures LowerChar(s[i]) == name[i] <==> Folds(s[i], name[i])
    {
      LowerFolds(s[i], name[i]);
    }
    if Lower(s) == name {
      assert forall i | 0 <= i < |s| :: Lower(s)[i] == LowerChar(s[i]);
    }
  }

  lemma {:induction false} TrimLeftOf(a: string, t: string)
    requires Blank(a) && t != "" && !IsSpace(t[0])
    ensures TrimLeft(a + t) == t
  {
    if a == "" {
      assert a + t == t;
    } else {
      assert (a + t)[1..] == a[1..] + t && (a + t)[0] == a[0];
      TrimLeftOf(a[1..], t);
    }
  }

  lemma {:induction false} TrimRightOf(t: string, b: string)
    requires Blank(b) && t != "" && !IsSpace(t[|t| - 1])
    ensures TrimRight(t + b) == t
  {
    if b == "" {
      assert t + b == t;
    } else {
      var n := |b| - 1;
      assert (t + b)[..|t + b| - 1] == t + b[..n] && (t + b)[|t + b| - 1] == b[n];
      TrimRightOf(t, b[..n]);
    }
  }

  /** White space around a text that neither begins nor ends with any is all that is trimmed. */
  lemma TrimSpaceOf(a: string, t: string, b: string)
    requires Blank(a) && Blank(b) && t != "" && !IsSpace(t[0]) && !IsSpace(t[|t| - 1])
    ensures TrimSpace(a + t + b) == t
  {
    assert a + t + b == a + (t + b);
    TrimLeftOf(a, t + b);
    TrimRightOf(t, b);
  }

  lemma {:induction false} TrimLeftBlank(s: string)
    ensures Blank(s[..|s| - |TrimLeft(s)|])
  {
    if s != "" && IsSpace(s[0]) {
      TrimLeftBlank(s[1..]);
      var n := |s| - |TrimLeft(s)|;
      assert s[..n] == [s[0]] + s[1..][..n - 1];
    }
  }

  lemma {:induction false} TrimRightBlank(s: string)
    ensures Blank(s[|TrimRight(s)|..])
  {
    if s != "" && IsSpace(s[|s| - 1]) {
      var m := |s| - 1;
      TrimRightBlank(s[..m]);
      var n := |TrimRight(s)|;
      assert s[n..] == s[..m][n..] + [s[m]];
    }
  }

  lemma TrimSpaceParts(s: string) returns (i: nat, j: nat)
    ensures i <= j <= |s| && TrimSpace(s) == s[i..j] && Blank(s[..i]) && Blank(s[j..])
    ensures i < j ==> !IsSpace(s[j - 1])
  {
    var l := TrimLeft(s);
    var r := TrimRight(l);
    TrimLeftBlank(s);
    TrimRightBlank(l);
    i, j := |s| - |l|, |s| - |l| + |r|;
    assert s[j..] == l[|r|..];
  }

  lemma NormalizedWasNamed(s: string, name: string)
    requires Plain(name) && Normalize(s) == name
    ensures Named(s, name)
  {
    var i, j := TrimSpaceParts(s);
    LowerSpells(s[i..j], name);
    assert Spells(s[i..j], name);
  }

  lemma SpellingHasNoSpaces(t: string, name: string)
    requires Plain(name) && Spells(t, name)
    ensures t != "" && !IsSpace(t[0]) && !IsSpace(t[|t| - 1])
  {
    FoldsNoSpace(t[0], name[0]);
    FoldsNoSpace(t[|t| - 1], name[|t| - 1]);
  }

  lemma PaddedNormalizes(a: string, t: string, b: string, name: string)
    requires Plain(name) && Blank(a) && Blank(b) && Spells(t, name)
    ensures Normalize(a + t + b) == name
  {
    SpellingHasNoSpaces(t, name);
    TrimSpaceOf(a, t, b);
    LowerSpells(t, name);
  }

  lemma Reassemble(s: string, i: nat, j: nat)
    requires i <= j <= |s|
    ensures s[..i] + s[i..j] + s[j..] == s
  {
  }

  lemma NamedNormalizes(s: string, name: string)
    requires Plain(name) && Named(s, name)
    ensures Normalize(s) == name
  {
    var i, j :| 0 <= i <= j <= |s| && Blank(s[..i]) && Spells(s[i..j], name) && Blank(s[j..]);
    Reassemble(s, i, j);
    PaddedNormalizes(s[..i], s[i..j], s[j..], name);
  }

  /** Normalising to a plain name means having been that name, in any case and with any padding. */
  lemma NormalizeIs(s: string, name: string)
    requires Plain(name)
    ensures Normalize(s) == name <==> Named(s, name)
  {
    if Normalize(s) == name {
      NormalizedWasNamed(s, name);
    } else if Named(s, name) {
      NamedNormalizes(s, name);
    }
  }

  lemma NormalizeKeeps(name: string)
    requires Plain(name)
    ensures Normalize(name) == name
  {
    assert Spells(name[0..|name|], name) && Blank(name[..0]) && Blank(name[|name|..]);
    NormalizeIs(name, name);
  }

  /** The white space there is, by code point. */
  lemma Spaces(c: char)
    ensures IsSpace(c) <==>
              || 0x9 <= c as int <= 0xD || 0x2000 <= c as int <= 0x200A
              || c as int in {0x20, 0x85, 0xA0, 0x1680, 0x2028, 0x2029, 0x202F, 0x205F, 0x3000}
  {
  }

  /** A text is blank exactly when nothing is left of it. */
  lemma BlankTrims(s: string)
    ensures TrimSpace(s) == "" <==> Blank(s)
  {
    var i, j := TrimSpaceParts(s);
    if TrimSpace(s) == "" {
      assert s == s[..i] + s[j..];
    }
  }
}
