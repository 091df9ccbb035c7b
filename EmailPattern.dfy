/**
 The e-mail rule of the login form (src/pages/Authentication/Login.js:18): a
 JavaScript regular expression, anchored at both ends, with no flags,

     ^\w+([\.-]?\w+)*@\w+([\.-]?\w+)*(\.\w{2,3})+$

 Without the `u` flag `\w` is the ASCII class [A-Za-z0-9_], and `[\.-]` is
 `.` or `-`. The module first reads the expression structurally, one ghost
 predicate per sub-expression, and then gives a hand-written recognizer
 (`IsEmail`) that is proved to accept exactly the strings the expression
 matches.
 */
module EmailPattern {

  /** `\w` without the `u` flag. */
  predicate IsWordChar(c: char) {
    ('A' <= c <= 'Z') || ('a' <= c <= 'z') || ('0' <= c <= '9') || c == '_'
  }

  /** `[\.-]` */
  predicate IsSeparator(c: char) {
    c == '.' || c == '-'
  }

  // ---------------------------------------------------------------------------
  // The regular expression, sub-expression by sub-expression
  // ---------------------------------------------------------------------------

  /** `\w+` */
  ghost predicate Words(s: string) {
    |s| >= 1 && forall i :: 0 <= i < |s| ==> IsWordChar(s[i])
  }

  /** `[\.-]?\w+` */
  ghost predicate Group(g: string) {
    Words(g) || (|g| >= 1 && IsSeparator(g[0]) && Words(g[1..]))
  }

  /** `([\.-]?\w+)*` */
  ghost predicate Groups(s: string)
    decreases |s|
  {
    s == [] || exists k :: 1 <= k <= |s| && Group(s[..k]) && Groups(s[k..])
  }

  /** `\w+([\.-]?\w+)*`, the shape of the local part and of the start of the domain. */
  ghost predicate Dotted(s: string) {
    exists k :: 1 <= k <= |s| && Words(s[..k]) && Groups(s[k..])
  }

  /** `\.\w{2,3}` */
  ghost predicate TopLevel(g: string) {
    (|g| == 3 || |g| == 4) && g[0] == '.' && Words(g[1..])
  }

  /** `(\.\w{2,3})+` */
  ghost predicate TopLevels(s: string)
    decreases |s|
  {
    exists k :: 3 <= k <= 4 && k <= |s| && TopLevel(s[..k]) && (k == |s| || TopLevels(s[k..]))
  }

  /** The whole anchored expression matches all of `s`. */
  ghost predicate MatchesEmailRegex(s: string)
    ensures MatchesEmailRegex(s) ==> |s| >= 6 && s[0] != '@'
  {
    MatchIsLongAndStartsWithWord(s);
    exists i, j :: 0 <= i < j <= |s| && Dotted(s[..i]) && s[i] == '@' && Dotted(s[i + 1..j]) && TopLevels(s[j..])
  }

  /** Any split the expression accepts leaves at least six characters, the first a word character. */
  lemma MatchIsLongAndStartsWithWord(s: string)
    ensures forall i, j :: 0 <= i < j <= |s| && Dotted(s[..i]) && s[i] == '@' && Dotted(s[i + 1..j]) && TopLevels(s[j..]) ==>
      |s| >= 6 && s[0] != '@'
  {
    forall i, j | 0 <= i < j <= |s| && Dotted(s[..i]) && s[i] == '@' && Dotted(s[i + 1..j]) && TopLevels(s[j..])
      ensures |s| >= 6 && s[0] != '@'
    {
      var k :| 1 <= k <= |s[..i]| && Words(s[..i][..k]) && Groups(s[..i][k..]);
      assert s[..i][..k][0] == s[0];
      assert IsWordChar(s[0]);
      var d :| 1 <= d <= |s[i + 1..j]| && Words(s[i + 1..j][..d]) && Groups(s[i + 1..j][d..]);
      var t :| 3 <= t <= 4 && t <= |s[j..]| && TopLevel(s[j..][..t]) && (t == |s[j..]| || TopLevels(s[j..][t..]));
    }
  }

  // ---------------------------------------------------------------------------
  // The recognizer
  // ---------------------------------------------------------------------------

  /**
   A non-empty run of word characters and separators that starts and ends with
   a word character and has no two separators in a row.
   */
  predicate IsSegmented(s: string) {
    && |s| >= 1
    && IsWordChar(s[0])
    && IsWordChar(s[|s| - 1])
    && (forall i :: 0 <= i < |s| ==> IsWordChar(s[i]) || IsSeparator(s[i]))
    && (forall i :: 0 <= i < |s| - 1 ==> IsWordChar(s[i]) || IsWordChar(s[i + 1]))
  }

  predicate AllWordChars(s: string) {
    forall i :: 0 <= i < |s| ==> IsWordChar(s[i])
  }

  /** `s` is a segmented run, then `.`, then exactly `n` word characters. */
  predicate EndsInTopLevel(s: string, n: nat) {
    && |s| >= n + 2
    && s[|s| - n - 1] == '.'
    && AllWordChars(s[|s| - n..])
    && IsSegmented(s[..|s| - n - 1])
  }

  /** A segmented run that ends in `.` followed by two or three word characters. */
  predicate IsDomain(s: string) {
    EndsInTopLevel(s, 2) || EndsInTopLevel(s, 3)
  }

  /**
   The recognizer the form's e-mail rule is modelled by. An accepted string
   holds exactly one `@`, so the split into local part and domain is unique.
   */
  predicate IsEmail(s: string)
    ensures IsEmail(s) ==> multiset(s)['@'] == 1
  {
    SplitHasOneAt(s);
    exists i :: 0 <= i < |s| && s[i] == '@' && IsSegmented(s[..i]) && IsDomain(s[i + 1..])
  }

  // ---------------------------------------------------------------------------
  // The recognizer accepts exactly what the expression matches
  // ---------------------------------------------------------------------------

  lemma WordsAreSegmented(w: string)
    requires Words(w)
    ensures IsSegmented(w)
  {
  }

  /** Appending one `[\.-]?\w+` to a segmented run keeps it segmented. */
  lemma AppendGroup(w: string, g: string)
    requires IsSegmented(w) && Group(g)
    ensures IsSegmented(w + g)
  {
  }

  /** Appending any number of `[\.-]?\w+` keeps a segmented run segmented. */
  lemma {:induction false} AppendGroups(w: string, r: string)
    requires IsSegmented(w) && Groups(r)
    ensures IsSegmented(w + r)
    decreases |r|
  {
    if r != [] {
      var k :| 1 <= k <= |r| && Group(r[..k]) && Groups(r[k..]);
      AppendGroup(w, r[..k]);
      AppendGroups(w + r[..k], r[k..]);
      assert (w + r[..k]) + r[k..] == w + r;
    }
  }

  /** Every tail of a segmented run that follows a word character splits into groups. */
  lemma {:induction false} TailIsGroups(s: string, from: nat)
    requires IsSegmented(s) && 1 <= from <= |s| && IsWordChar(s[from - 1])
    ensures Groups(s[from..])
    decreases |s| - from
  {
    var t := s[from..];
    if t != [] {
      var k := if IsSeparator(s[from]) then 2 else 1;
      if k == 2 {
        assert from + 1 < |s|;
        assert IsWordChar(s[from + 1]);
        assert t[1..][..1] == [s[from + 1]];
        assert Words(t[..k][1..]);
      } else {
        assert IsWordChar(s[from]);
        assert Words(t[..k]);
      }
      assert Group(t[..k]);
      TailIsGroups(s, from + k);
      assert t[k..] == s[from + k..];
    }
  }

  lemma DottedIffSegmented(s: string)
    ensures Dotted(s) <==> IsSegmented(s)
  {
    if Dotted(s) {
      var k :| 1 <= k <= |s| && Words(s[..k]) && Groups(s[k..]);
      WordsAreSegmented(s[..k]);
      AppendGroups(s[..k], s[k..]);
      assert s[..k] + s[k..] == s;
    }
    if IsSegmented(s) {
      assert Words(s[..1]);
      TailIsGroups(s, 1);
    }
  }

  lemma TopLevelIsGroup(g: string)
    requires TopLevel(g)
    ensures Group(g)
  {
  }

  /** A segmented run followed by one `\.\w{2,3}` is a domain. */
  lemma SegmentedThenTopLevel(d: string, g: string)
    requires IsSegmented(d) && TopLevel(g)
    ensures IsDomain(d + g)
  {
    var s := d + g;
    var n := |g| - 1;
    assert s[..|s| - n - 1] == d;
    assert s[|s| - n - 1] == g[0];
    assert s[|s| - n..] == g[1..];
    assert EndsInTopLevel(s, n);
  }

  /** A segmented run followed by `(\.\w{2,3})+` is a domain. */
  lemma {:induction false} SegmentedThenTopLevels(d: string, t: string)
    requires IsSegmented(d) && TopLevels(t)
    ensures IsDomain(d + t)
    decreases |t|
  {
    var k :| 3 <= k <= 4 && k <= |t| && TopLevel(t[..k]) && (k == |t| || TopLevels(t[k..]));
    if k == |t| {
      assert t[..k] == t;
      SegmentedThenTopLevel(d, t);
    } else {
      var longer := d + t[..k];
      assert longer + t[k..] == d + t;
      TopLevelIsGroup(t[..k]);
      AppendGroup(d, t[..k]);
      SegmentedThenTopLevels(longer, t[k..]);
    }
  }

  /** A domain splits into a `\w+([\.-]?\w+)*` part and a `(\.\w{2,3})+` part. */
  lemma DomainSplits(s: string) returns (j: nat)
    requires IsDomain(s)
    ensures 1 <= j <= |s| && Dotted(s[..j]) && TopLevels(s[j..])
  {
    var n := if EndsInTopLevel(s, 2) then 2 else 3;
    j := |s| - n - 1;
    DottedIffSegmented(s[..j]);
    var t := s[j..];
    assert t[..|t|] == t;
    assert t[1..] == s[|s| - n..];
    assert TopLevel(t[..|t|]);
  }

  /** A match of the expression with the `@` at `i` is the recognizer's split at `i`. */
  lemma MatchSplitIsEmail(s: string, i: nat, j: nat)
    requires i < j <= |s| && Dotted(s[..i]) && s[i] == '@' && Dotted(s[i + 1..j]) && TopLevels(s[j..])
    ensures IsEmail(s)
  {
    DottedIffSegmented(s[..i]);
    DottedIffSegmented(s[i + 1..j]);
    SegmentedThenTopLevels(s[i + 1..j], s[j..]);
    assert s[i + 1..j] + s[j..] == s[i + 1..];
    assert IsSegmented(s[..i]) && IsDomain(s[i + 1..]);
  }

  lemma RegexMatchIsEmail(s: string)
    requires MatchesEmailRegex(s)
    ensures IsEmail(s)
  {
    var i, j :| 0 <= i < j <= |s| && Dotted(s[..i]) && s[i] == '@' && Dotted(s[i + 1..j]) && TopLevels(s[j..]);
    MatchSplitIsEmail(s, i, j);
  }

  /** The recognizer's split at position `i` is a match of the expression. */
  lemma SplitMatchesRegex(s: string, i: nat)
    requires i < |s| && s[i] == '@' && IsSegmented(s[..i]) && IsDomain(s[i + 1..])
    ensures MatchesEmailRegex(s)
  {
    var local, domain := s[..i], s[i + 1..];
    DottedIffSegmented(local);
    var d := DomainSplits(domain);
    var j := i + 1 + d;
    assert domain[..d] == s[i + 1..j];
    assert domain[d..] == s[j..];
    assert Dotted(s[..i]) && Dotted(s[i + 1..j]) && TopLevels(s[j..]);
  }

  lemma EmailMatchesRegex(s: string)
    requires IsEmail(s)
    ensures MatchesEmailRegex(s)
  {
    var i :| 0 <= i < |s| && s[i] == '@' && IsSegmented(s[..i]) && IsDomain(s[i + 1..]);
    SplitMatchesRegex(s, i);
  }

  /** The hand-written recognizer agrees with the regular expression on every string. */
  lemma IsEmailIffMatchesRegex(s: string)
    ensures IsEmail(s) <==> MatchesEmailRegex(s)
  {
    if MatchesEmailRegex(s) {
      RegexMatchIsEmail(s);
    }
    if IsEmail(s) {
      EmailMatchesRegex(s);
    }
  }

  /** A word character or separator is never `@`, so the `@` of an address is unique. */
  lemma SegmentedHasNoAt(s: string)
    requires IsSegmented(s)
    ensures forall i :: 0 <= i < |s| ==> s[i] != '@'
  {
  }

  /** A domain holds no `@` either. */
  lemma DomainHasNoAt(d: string)
    requires IsDomain(d)
    ensures forall k :: 0 <= k < |d| ==> d[k] != '@'
  {
    var n := if EndsInTopLevel(d, 2) then 2 else 3;
    var m := |d| - n - 1;
    SegmentedHasNoAt(d[..m]);
    forall k | 0 <= k < |d|
      ensures d[k] != '@'
    {
      if k < m {
        assert d[k] == d[..m][k];
      } else if k > m {
        assert d[k] == d[|d| - n..][k - m - 1];
      }
    }
  }

  /** Where the recognizer splits a string, that `@` is the only one in it. */
  lemma SplitHasOneAt(s: string)
    ensures forall i :: 0 <= i < |s| && s[i] == '@' && IsSegmented(s[..i]) && IsDomain(s[i + 1..]) ==>
      multiset(s)['@'] == 1
  {
    forall i | 0 <= i < |s| && s[i] == '@' && IsSegmented(s[..i]) && IsDomain(s[i + 1..])
      ensures multiset(s)['@'] == 1
    {
      SegmentedHasNoAt(s[..i]);
      DomainHasNoAt(s[i + 1..]);
      assert s == s[..i] + [s[i]] + s[i + 1..];
      assert '@' !in s[..i] && '@' !in s[i + 1..];
    }
  }

  // ---------------------------------------------------------------------------
  // The two example inputs
  // ---------------------------------------------------------------------------

  lemma AcceptsShortAddress()
    ensures IsEmail("a@b.co") && MatchesEmailRegex("a@b.co")
  {
    var s := "a@b.co";
    assert s[..1] == "a";
    assert s[2..] == "b.co";
    assert IsDomain(s[2..]) by {
      assert "b.co"[..1] == "b";
      assert "b.co"[2..] == "co";
      assert EndsInTopLevel("b.co", 2);
    }
    IsEmailIffMatchesRegex(s);
  }

  lemma RejectsAddressWithoutAt()
    ensures !IsEmail("bad-email") && !MatchesEmailRegex("bad-email")
  {
    var s := "bad-email";
    assert forall i :: 0 <= i < |s| ==> s[i] != '@';
  }
}
