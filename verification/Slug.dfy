/** Tenant slugs: the rewriting loop of the sign-up handler and the one-pass reading of it. */
module Slug {
  import opened Text

  const MAX_SLUG := 40
  const FALLBACK := "tenant"

  predicate Alnum(c: char) {
    'a' <= c <= 'z' || '0' <= c <= '9'
  }

  // ----- the reference: runs of letters and digits, joined by single dashes

  /** The maximal runs of [a-z0-9] in `s`, in order. */
  function Runs(s: string): (r: seq<string>)
    ensures s != "" && Alnum(s[0]) ==> r != []
  {
    if s == "" then []
    else if !Alnum(s[0]) then Runs(s[1..])
    else if |s| > 1 && Alnum(s[1]) then
      var rest := Runs(s[1..]);
      [[s[0]] + rest[0]] + rest[1..]
    else [[s[0]]] + Runs(s[1..])
  }

  function Join(runs: seq<string>): string {
    if runs == [] then ""
    else if |runs| == 1 then runs[0]
    else runs[0] + "-" + Join(runs[1..])
  }

  /** The runs of `s` joined by dashes: of a lowered name, the slug before it is cut or replaced. */
  function Joined(s: string): string {
    Join(Runs(s))
  }

  function Cut(s: string): string {
    if |s| > MAX_SLUG then s[..MAX_SLUG] else s
  }

  function SlugOf(s: string): string {
    var j := Joined(Lower(s));
    if j == "" then FALLBACK else Cut(j)
  }

  // ----- the library calls of the handler

  function TrimDashLeft(s: string): string {
    if s != "" && s[0] == '-' then TrimDashLeft(s[1..]) else s
  }

  function TrimDashRight(s: string): string {
    if s != "" && s[|s| - 1] == '-' then TrimDashRight(s[..|s| - 1]) else s
  }

  /** `strings.Contains(s, "--")`. */
  predicate HasDouble(s: string) {
    |s| >= 2 && (s[..2] == "--" || HasDouble(s[1..]))
  }

  /** `strings.ReplaceAll(s, "--", "-")`: left to right, without overlaps. */
  function Halve(s: string): string {
    if |s| < 2 then s
    else if s[..2] == "--" then "-" + Halve(s[2..])
    else [s[0]] + Halve(s[1..])
  }

  /** Nothing but letters, digits and dashes. */
  predicate Clean(s: string) {
    forall i | 0 <= i < |s| :: Alnum(s[i]) || s[i] == '-'
  }

  // ----- Joined, one character at a time

  function Glue(c: char, t: string): string {
    if t != "" && Alnum(t[0]) then [c] + Joined(t)
    else if Joined(t) == "" then [c]
    else [c] + "-" + Joined(t)
  }

  lemma {:induction false} RunsNonEmpty(s: string)
    ensures forall i | 0 <= i < |Runs(s)| :: Runs(s)[i] != "" && Alnum(Runs(s)[i][0])
    ensures s != "" && Alnum(s[0]) ==> Runs(s)[0][0] == s[0]
  {
    if s != "" {
      RunsNonEmpty(s[1..]);
    }
  }

  lemma JoinedHead(s: string)
    requires s != ""
    ensures Joined(s) == if Alnum(s[0]) then Glue(s[0], s[1..]) else Joined(s[1..])
    ensures Joined(s) != "" ==> Alnum(Joined(s)[0])
  {
    RunsNonEmpty(s);
    var t := s[1..];
    RunsNonEmpty(t);
    if Alnum(s[0]) && t != "" && Alnum(t[0]) {
      var rest := Runs(t);
      var runs := Runs(s);
      assert runs == [[s[0]] + rest[0]] + rest[1..];
      if |rest| > 1 {
        assert runs[1..] == rest[1..];
        assert ([s[0]] + rest[0]) + "-" + Join(rest[1..]) == [s[0]] + (rest[0] + "-" + Join(rest[1..]));
      }
    } else if Alnum(s[0]) {
      assert Runs(s) == [[s[0]]] + Runs(t);
      assert Runs(s)[1..] == Runs(t);
      assert Runs(t) != [] ==> Join(Runs(t)) != "";
    }
  }

  /** Two strings whose characters agree in place, but for which non-letter stands where. */
  predicate SameRuns(s: string, t: string) {
    |s| == |t| && forall i | 0 <= i < |s| :: Alnum(s[i]) == Alnum(t[i]) && (Alnum(s[i]) ==> s[i] == t[i])
  }

  lemma {:induction false} SameRunsJoined(s: string, t: string)
    requires SameRuns(s, t)
    ensures Joined(s) == Joined(t)
    decreases |s|
  {
    if s != "" {
      assert SameRuns(s[1..], t[1..]);
      SameRunsJoined(s[1..], t[1..]);
      JoinedHead(s);
      JoinedHead(t);
    }
  }

  lemma {:induction false} DropLast(s: string)
    requires s != "" && !Alnum(s[|s| - 1])
    ensures Joined(s[..|s| - 1]) == Joined(s)
  {
    JoinedHead(s);
    var front := s[..|s| - 1];
    if front != "" {
      DropLast(s[1..]);
      JoinedHead(front);
      assert front[1..] == s[1..][..|s[1..]| - 1];
    }
  }

  lemma SpaceIsNoLetter(c: char)
    requires IsSpace(c)
    ensures !Alnum(LowerChar(c))
  {
  }

  lemma DropFirst(s: string)
    requires s != "" && !Alnum(s[0])
    ensures Joined(s[1..]) == Joined(s)
  {
    JoinedHead(s);
  }

  lemma LowerTail(s: string)
    requires s != ""
    ensures Lower(s)[0] == LowerChar(s[0]) && Lower(s)[1..] == Lower(s[1..])
  {
  }

  lemma {:induction false} DropSpacesLeft(s: string)
    ensures Joined(Lower(TrimLeft(s))) == Joined(Lower(s))
  {
    if s != "" && IsSpace(s[0]) {
      DropSpacesLeft(s[1..]);
      SpaceIsNoLetter(s[0]);
      LowerTail(s);
      DropFirst(Lower(s));
    }
  }

  lemma LowerFront(s: string)
    requires s != ""
    ensures Lower(s)[|s| - 1] == LowerChar(s[|s| - 1]) && Lower(s)[..|s| - 1] == Lower(s[..|s| - 1])
  {
  }

  lemma {:induction false} DropSpacesRight(s: string)
    ensures Joined(Lower(TrimRight(s))) == Joined(Lower(s))
  {
    if s != "" && IsSpace(s[|s| - 1]) {
      DropSpacesRight(s[..|s| - 1]);
      SpaceIsNoLetter(s[|s| - 1]);
      LowerFront(s);
      DropLast(Lower(s));
    }
  }

  lemma {:induction false} DropDashesLeft(s: string)
    requires Clean(s)
    ensures var t := TrimDashLeft(s);
            Joined(t) == Joined(s) && Clean(t) && (t == "" || t[0] != '-')
  {
    if s != "" && s[0] == '-' {
      DropDashesLeft(s[1..]);
      JoinedHead(s);
    }
  }

  lemma {:induction false} DropDashesRight(s: string)
    requires Clean(s)
    ensures var t := TrimDashRight(s);
            Joined(t) == Joined(s) && Clean(t) && t <= s && (t == "" || t[|t| - 1] != '-')
  {
    if s != "" && s[|s| - 1] == '-' {
      DropDashesRight(s[..|s| - 1]);
      DropLast(s);
    }
  }

  // ----- one pass of the loop

  /** No character but single dashes inside, so that only doubled dashes are left to remove. */
  predicate Trimmed(s: string) {
    Clean(s) && (s == "" || (s[0] != '-' && s[|s| - 1] != '-'))
  }

  lemma {:induction false} HalveEnds(s: string)
    ensures var t := Halve(s);
            && |t| <= |s| && (t == "" <==> s == "") && (HasDouble(s) ==> |t| < |s|)
            && (s != "" ==> t[0] == s[0] && t[|t| - 1] == s[|s| - 1])
  {
    if |s| >= 2 {
      HalveEnds(if s[..2] == "--" then s[2..] else s[1..]);
    }
  }

  lemma {:induction false} HalveClean(s: string)
    requires Clean(s)
    ensures Clean(Halve(s))
  {
    if |s| >= 2 {
      HalveClean(if s[..2] == "--" then s[2..] else s[1..]);
    }
  }

  lemma {:induction false} HalveKeepsRuns(s: string)
    ensures Joined(Halve(s)) == Joined(s)
  {
    if |s| >= 2 {
      var t := if s[..2] == "--" then s[2..] else s[1..];
      HalveKeepsRuns(t);
      HalveEnds(t);
      JoinedHead(s);
      JoinedHead(Halve(s));
      assert Halve(s)[1..] == Halve(t);
      if s[..2] == "--" {
        JoinedHead(s[1..]);
        assert s[1..][1..] == t;
      }
    }
  }

  /** A string without doubled or outer dashes is already what its runs join to. */
  lemma {:induction false} NormalForm(s: string)
    requires Clean(s) && !HasDouble(s) && (s == "" || s[|s| - 1] != '-')
    ensures Joined(s) == if s != "" && s[0] == '-' then s[1..] else s
  {
    if s != "" {
      var t := s[1..];
      NormalForm(t);
      JoinedHead(s);
      if |s| >= 2 {
        assert s[..2] == [s[0], s[1]];
        assert t[0] == '-' ==> t == "-" + t[1..];
      }
      assert s == [s[0]] + t;
    }
  }

  lemma {:induction false} NoDouble(s: string, i: nat)
    requires !HasDouble(s) && i + 1 < |s|
    ensures !(s[i] == '-' && s[i + 1] == '-')
  {
    if i > 0 {
      NoDouble(s[1..], i - 1);
    } else {
      assert s[..2] == [s[0], s[1]];
    }
  }

  // ----- the handler's function

  /** The loop of sign-up: it always ends, with the joined runs of what it started from. */
  method Collapse(s: string) returns (slug: string)
    requires Trimmed(s)
    ensures slug == Joined(s)
  {
    slug := s;
    while HasDouble(slug)
      invariant Trimmed(slug) && Joined(slug) == Joined(s)
      decreases |slug|
    {
      HalveEnds(slug);
      HalveClean(slug);
      HalveKeepsRuns(slug);
      slug := Halve(slug);
    }
    NormalForm(slug);
  }

  /** The builder loop: every character of the trimmed, lowered name that is no letter or digit becomes a dash. */
  method Dash(low: string) returns (b: string)
    ensures Clean(b) && Joined(b) == Joined(low)
  {
    b := "";
    for i := 0 to |low|
      invariant Clean(b) && SameRuns(low[..i], b)
    {
      b := b + [if Alnum(low[i]) then low[i] else '-'];
    }
    assert low[..|low|] == low;
    SameRunsJoined(low, b);
  }

  /** `strings.Trim(s, "-")`. */
  function TrimDashes(s: string): string {
    TrimDashRight(TrimDashLeft(s))
  }

  lemma TrimDashesKeeps(s: string)
    requires Clean(s)
    ensures Trimmed(TrimDashes(s)) && Joined(TrimDashes(s)) == Joined(s)
  {
    DropDashesLeft(s);
    DropDashesRight(TrimDashLeft(s));
  }

  lemma TrimSpaceKeeps(s: string)
    ensures Joined(Lower(TrimSpace(s))) == Joined(Lower(s))
  {
    DropSpacesRight(TrimLeft(s));
    DropSpacesLeft(s);
  }

  /** Whatever the input, the loop ends and the result is the one-pass slug. */
  method Slugify(s: string) returns (slug: string)
    ensures slug == SlugOf(s)
  {
    TrimSpaceKeeps(s);
    var b := Dash(Lower(TrimSpace(s)));
    TrimDashesKeeps(b);
    slug := Collapse(TrimDashes(b));
    if |slug| > MAX_SLUG {
      slug := slug[..MAX_SLUG];
    }
    if slug == "" {
      slug := FALLBACK;
    }
  }

  // ----- what a slug looks like, and how often it has to be taken

  /** One letter in front of a well-shaped text, or of a dash and such a text. */
  lemma GlueShape(c: char, t: string, dashed: bool)
    requires Alnum(c) && Trimmed(t) && !HasDouble(t) && (dashed ==> t != "")
    ensures var j := if dashed then [c] + "-" + t else [c] + t;
            Trimmed(j) && !HasDouble(j)
  {
    var j := if dashed then [c] + "-" + t else [c] + t;
    if dashed {
      assert j[1..] == "-" + t && j[1..][1..] == t;
      assert j[1..][..2] == ['-', t[0]];
    } else {
      assert j[1..] == t;
    }
  }

  lemma {:induction false} JoinedShape(s: string)
    ensures Trimmed(Joined(s)) && !HasDouble(Joined(s))
  {
    if s != "" {
      var t := s[1..];
      JoinedShape(t);
      JoinedHead(s);
      if Alnum(s[0]) {
        if t == "" || !Alnum(t[0]) {
          GlueShape(s[0], Joined(t), Joined(t) != "");
          assert [s[0]] + "" == [s[0]];
        } else {
          GlueShape(s[0], Joined(t), false);
        }
      }
    }
  }

  lemma {:induction false} PrefixNoDouble(s: string, n: nat)
    requires !HasDouble(s) && n <= |s|
    ensures !HasDouble(s[..n])
  {
    if n >= 2 {
      PrefixNoDouble(s[1..], n - 1);
      assert s[..n][1..] == s[1..][..n - 1];
      assert s[..n][..2] == s[..2];
    }
  }

  /** Whether the cut leaves a dash at the end. */
  predicate CutAtDash(s: string) {
    var j := Joined(Lower(s));
    |j| > 40 && j[39] == '-'
  }

  lemma LowerFixed(s: string)
    requires Clean(s)
    ensures Lower(s) == s
  {
  }

  lemma SlugLooks(s: string)
    ensures var r := SlugOf(s);
            && 1 <= |r| <= MAX_SLUG && Clean(r) && !HasDouble(r) && r[0] != '-'
            && (r[|r| - 1] == '-' <==> CutAtDash(s))
  {
    var j := Joined(Lower(s));
    JoinedShape(Lower(s));
    if |j| > MAX_SLUG {
      PrefixNoDouble(j, MAX_SLUG);
    }
    if j == "" {
      FallbackShape();
    }
  }

  lemma FallbackShape()
    ensures Clean(FALLBACK) && !HasDouble(FALLBACK) && |FALLBACK| == 6 && FALLBACK[0] != '-' && FALLBACK[5] != '-'
  {
    if HasDouble(FALLBACK) {
      DoubleAt(FALLBACK);
    }
  }

  /** The whole contract of a slug in one place: 1 to 40 of [a-z0-9-], no leading and no double dash. */
  lemma SlugShape(s: string)
    ensures var r := SlugOf(s);
            && 1 <= |r| <= 40 && r[0] != '-'
            && (forall i | 0 <= i < |r| :: 'a' <= r[i] <= 'z' || '0' <= r[i] <= '9' || r[i] == '-')
            && (forall i | 0 < i < |r| :: !(r[i - 1] == '-' && r[i] == '-'))
  {
    SlugLooks(s);
    var r := SlugOf(s);
    forall i | 0 < i < |r|
      ensures !(r[i - 1] == '-' && r[i] == '-')
    {
      NoDouble(r, i - 1);
    }
  }

  /** A name of letters, in any case, and digits is its own slug in lower case. */
  lemma NamesKept(s: string, t: string)
    requires 1 <= |t| <= 40 && |s| == |t|
    requires forall i | 0 <= i < |t| ::
               ('a' <= t[i] <= 'z' && Folds(s[i], t[i])) || ('0' <= t[i] <= '9' && s[i] == t[i])
    ensures SlugOf(s) == t
  {
    assert Lower(s) == t by {
      forall i | 0 <= i < |t|
        ensures LowerChar(s[i]) == t[i]
      {
        if 'a' <= t[i] <= 'z' {
          LowerFolds(s[i], t[i]);
        }
      }
    }
    if HasDouble(t) {
      DoubleAt(t);
    }
    NormalForm(t);
  }

  lemma {:induction false} NoRuns(s: string)
    requires forall i | 0 <= i < |s| :: !Alnum(s[i])
    ensures Joined(s) == ""
  {
    if s != "" {
      NoRuns(s[1..]);
      JoinedHead(s);
    }
  }

  /** A name without an ASCII letter or digit has nothing left of it. */
  lemma FallbackUsed(s: string)
    requires forall i | 0 <= i < |s| ::
               || s[i] < '0' || '9' < s[i] < 'A' || 'Z' < s[i] < 'a'
               || ('z' < s[i] && s[i] != '\U{130}' && s[i] != '\U{212A}')
    ensures SlugOf(s) == "tenant"
  {
    NoRuns(Lower(s));
  }

  /** Taking the slug of a slug drops a dash the cut left behind, and does nothing else. */
  lemma SlugOfSlug(s: string)
    ensures var r := SlugOf(s);
            SlugOf(r) == if CutAtDash(s) then r[..|r| - 1] else r
  {
    var r := SlugOf(s);
    SlugLooks(s);
    LowerFixed(r);
    if CutAtDash(s) {
      var front := r[..|r| - 1];
      DropLast(r);
      PrefixNoDouble(r, |r| - 1);
      NoDouble(r, |r| - 2);
      NormalForm(front);
      assert front != "";
    } else {
      NormalForm(r);
    }
  }

  /** Slugs are stable exactly when the cut does not fall on a dash. */
  lemma StableIff(s: string)
    ensures SlugOf(SlugOf(s)) == SlugOf(s) <==> !CutAtDash(s)
  {
    SlugOfSlug(s);
    SlugLooks(s);
  }

  /** One more application is always enough. */
  lemma StableAfterTwo(s: string)
    ensures SlugOf(SlugOf(SlugOf(s))) == SlugOf(SlugOf(s))
  {
    var r := SlugOf(s);
    SlugOfSlug(s);
    SlugLooks(s);
    SlugOfSlug(r);
    SlugLooks(r);
    if CutAtDash(s) {
      NoDouble(r, |r| - 2);
    }
  }

  /** Thirty-nine letters, a dash, one more letter: the cut falls on the dash. */
  const LONG_NAME := "aaaaaaaaaaaaaaaaaaaaaaaaaaaaaaaaaaaaaaa" + "-b"

  lemma UnstableSlug()
    ensures SlugOf(LONG_NAME) == LONG_NAME[..40] && SlugOf(SlugOf(LONG_NAME)) == LONG_NAME[..39]
  {
    var s := LONG_NAME;
    LowerFixed(s);
    if HasDouble(s) {
      DoubleAt(s);
    }
    NormalForm(s);
    SlugOfSlug(s);
  }

  lemma {:induction false} DoubleAt(s: string)
    requires HasDouble(s)
    ensures exists i :: 0 <= i < |s| - 1 && s[i] == '-' && s[i + 1] == '-'
  {
    if s[..2] == "--" {
      assert s[0] == s[..2][0] && s[1] == s[..2][1];
    } else {
      DoubleAt(s[1..]);
      var i :| 0 <= i < |s[1..]| - 1 && s[1..][i] == '-' && s[1..][i + 1] == '-';
      assert s[i + 1] == '-' && s[i + 1 + 1] == '-';
    }
  }
}
