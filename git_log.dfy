/**
 * The release script's optional commit classifier: every non-blank subject
 * line of `git log` becomes a bullet under Added, Fixed or Changed according
 * to its Conventional Commits 1.0.0 type prefix (`feat`, `fix`, and `chore`,
 * `refactor`, `perf`, `style`); the prefix and the white space after it are
 * stripped, and a line with no known prefix is kept verbatim under Changed.
 */
module GitLog {
  import opened Basics
  import opened Strings
  import Seqs
  import Changelog

  /** Length of the longest prefix of `s` without a line terminator: how far `.+` can reach. */
  function LineRun(s: string): (n: nat)
    ensures n <= |s|
    ensures forall k :: 0 <= k < n ==> !IsLineTerminator(s[k])
    ensures n < |s| ==> IsLineTerminator(s[n])
  {
    if s == [] || IsLineTerminator(s[0]) then 0 else 1 + LineRun(s[1..])
  }

  /** `s[e..e + 2] == "):"`. */
  predicate ClosesAt(s: string, e: nat)
  {
    e + 1 < |s| && s[e] == ')' && s[e + 1] == ':'
  }

  /** The last `e` in `[lo, hi)` at which `"):"` starts: where a greedy `\(.+\)` followed by `:` ends. */
  function LastClose(s: string, lo: nat, hi: nat): (r: Option<nat>)
    ensures r.Some? ==> lo <= r.value < hi && ClosesAt(s, r.value)
    ensures r.Some? ==> forall e :: r.value < e < hi ==> !ClosesAt(s, e)
    ensures r.None? ==> forall e :: lo <= e < hi ==> !ClosesAt(s, e)
    decreases hi
  {
    if hi <= lo then None
    else if ClosesAt(s, hi - 1) then Some(hi - 1)
    else LastClose(s, lo, hi - 1)
  }

  /**
   * The length of the text `^<word>(\(.+\))?:` matches at the start of `line`, if it matches.
   * The scope's `.+` is greedy, so the match runs to the last `):` it can reach.
   */
  function TypeMatch(line: string, word: string): (r: Option<nat>)
    ensures r.Some? ==> word <= line && |word| < r.value <= |line| && line[r.value - 1] == ':'
    ensures !(word <= line) ==> r.None?
  {
    var p := |word|;
    if !(word <= line) || p >= |line| then None
    else if line[p] == '(' then
      var t := p + 1 + LineRun(line[p + 1..]);
      match LastClose(line, p + 2, t)
      case Some(e) => Some(e + 2)
      case None => None
    else if line[p] == ':' then Some(p + 1)
    else None
  }

  /** The match of `^(chore|refactor|perf|style)(\(.+\))?:`, trying the words in that order. */
  function ChangedMatch(line: string): Option<nat>
  {
    if TypeMatch(line, "chore").Some? then TypeMatch(line, "chore")
    else if TypeMatch(line, "refactor").Some? then TypeMatch(line, "refactor")
    else if TypeMatch(line, "perf").Some? then TypeMatch(line, "perf")
    else TypeMatch(line, "style")
  }

  /** `line` with its first `n` characters and the white space after them (`\s*`) removed. */
  function Strip(line: string, n: nat): (r: string)
    requires n <= |line|
    ensures |r| <= |line| - n && r == line[|line| - |r|..]
    ensures IsBlank(line[n..|line| - |r|])
    ensures r != [] ==> !IsSpace(r[0])
  {
    var m := SpaceRun(line[n..]);
    assert line[n..][..m] == line[n..n + m];
    line[n + m..]
  }

  /** Where a commit goes and the bullet it becomes. */
  datatype Entry = Entry(section: Changelog.Section, bullet: string)

  /** The classification chain of the `forEach` body. */
  function Classify(commit: string): Entry
  {
    if TypeMatch(commit, "feat").Some? then Entry(Changelog.Added, "- " + Strip(commit, TypeMatch(commit, "feat").value))
    else if TypeMatch(commit, "fix").Some? then Entry(Changelog.Fixed, "- " + Strip(commit, TypeMatch(commit, "fix").value))
    else if ChangedMatch(commit).Some? then Entry(Changelog.Changed, "- " + Strip(commit, ChangedMatch(commit).value))
    else Entry(Changelog.Changed, "- " + commit)
  }

  /** What `generateFromGitLog` returns. */
  datatype GitChanges = GitChanges(added: seq<string>, changed: seq<string>, fixed: seq<string>, hasChanges: bool)

  /** A line `filter(line => line.trim())` keeps. */
  predicate NonBlank(line: string)
  {
    !IsBlank(line)
  }

  /** The subject lines of the log that are not blank, in order. */
  function Commits(gitLog: string): (cs: seq<string>)
    ensures forall k :: 0 <= k < |cs| ==> NonBlank(cs[k]) && cs[k] in Split(gitLog, '\n')
    ensures forall k :: 0 <= k < |Split(gitLog, '\n')| && NonBlank(Split(gitLog, '\n')[k]) ==> Split(gitLog, '\n')[k] in cs
  {
    Seqs.Filter(Split(gitLog, '\n'), NonBlank)
  }

  /** The bullets of `commits` that go to `section`, in commit order. */
  function Bullets(commits: seq<string>, section: Changelog.Section): seq<string>
    decreases |commits|
  {
    if commits == [] then []
    else
      var e := Classify(commits[|commits| - 1]);
      Bullets(commits[..|commits| - 1], section) + (if e.section == section then [e.bullet] else [])
  }

  /** The changes classified from `commits`. */
  function FromCommits(commits: seq<string>): GitChanges
  {
    GitChanges(Bullets(commits, Changelog.Added), Bullets(commits, Changelog.Changed),
               Bullets(commits, Changelog.Fixed), |commits| > 0)
  }

  /** The body of the `forEach` callback: the first matching type prefix picks the section. */
  method ClassifyCommit(commit: string) returns (section: Changelog.Section, bullet: string)
    ensures Entry(section, bullet) == Classify(commit)
    ensures section in {Changelog.Added, Changelog.Changed, Changelog.Fixed}
  {
    var feat := TypeMatch(commit, "feat");
    var fix := TypeMatch(commit, "fix");
    var other := ChangedMatch(commit);
    if feat.Some? {
      section, bullet := Changelog.Added, "- " + Strip(commit, feat.value);
    } else if fix.Some? {
      section, bullet := Changelog.Fixed, "- " + Strip(commit, fix.value);
    } else if other.Some? {
      section, bullet := Changelog.Changed, "- " + Strip(commit, other.value);
    } else {
      section, bullet := Changelog.Changed, "- " + commit;
    }
  }

  /** `generateFromGitLog`: `None` when `git log` fails (the caught exception). */
  method GenerateFromGitLog(gitLog: Result<string>) returns (changes: Option<GitChanges>)
    ensures gitLog.Err? ==> changes.None?
    ensures gitLog.Ok? ==> changes == Some(FromCommits(Commits(gitLog.value)))
  {
    if gitLog.Err? {
      return None;
    }
    var commits := Commits(gitLog.value);
    var added, changed, fixed := [], [], [];
    var i := 0;
    while i < |commits|
      invariant 0 <= i <= |commits|
      invariant added == Bullets(commits[..i], Changelog.Added)
      invariant changed == Bullets(commits[..i], Changelog.Changed)
      invariant fixed == Bullets(commits[..i], Changelog.Fixed)
    {
      BulletsSnoc(commits, i, Changelog.Added);
      BulletsSnoc(commits, i, Changelog.Changed);
      BulletsSnoc(commits, i, Changelog.Fixed);
      var section, bullet := ClassifyCommit(commits[i]);
      if section == Changelog.Added {
        added := added + [bullet];
      } else if section == Changelog.Fixed {
        fixed := fixed + [bullet];
      } else {
        changed := changed + [bullet];
      }
      i := i + 1;
    }
    assert commits[..|commits|] == commits;
    changes := Some(GitChanges(added, changed, fixed, |commits| > 0));
  }

  /** One more commit adds its bullet to its own section only. */
  lemma BulletsSnoc(commits: seq<string>, i: nat, s: Changelog.Section)
    requires i < |commits|
    ensures Bullets(commits[..i + 1], s)
            == Bullets(commits[..i], s) + (if Classify(commits[i]).section == s then [Classify(commits[i]).bullet] else [])
  {
    assert commits[..i + 1][..i] == commits[..i];
  }

  // ----- Properties -----

  /** Every commit lands in exactly one of the three sections. */
  lemma {:induction false} EveryCommitOnce(commits: seq<string>)
    ensures var c := FromCommits(commits);
            |c.added| + |c.changed| + |c.fixed| == |commits|
    decreases |commits|
  {
    if commits != [] {
      EveryCommitOnce(commits[..|commits| - 1]);
    }
  }

  /** Every classified line is a changelog bullet. */
  lemma {:induction false} BulletsAreBullets(commits: seq<string>, section: Changelog.Section)
    ensures forall k :: 0 <= k < |Bullets(commits, section)| ==> Changelog.IsBullet(Bullets(commits, section)[k])
    decreases |commits|
  {
    if commits != [] {
      BulletsAreBullets(commits[..|commits| - 1], section);
    }
  }

  /** `hasChanges` holds exactly when some commit was classified. */
  lemma HasChangesIffAny(commits: seq<string>)
    ensures var c := FromCommits(commits);
            c.hasChanges <==> c.added + c.changed + c.fixed != []
  {
    EveryCommitOnce(commits);
    var c := FromCommits(commits);
    assert |c.added + c.changed + c.fixed| == |commits|;
  }

  /** `"): "` that ends the scope is found when the description after it has no `)`. */
  lemma ScopeEnd(word: string, scope: string, d: string)
    requires scope != [] && forall k :: 0 <= k < |scope| ==> !IsLineTerminator(scope[k])
    requires forall k :: 0 <= k < |d| ==> !IsLineTerminator(d[k]) && d[k] != ')'
    ensures var line := word + "(" + scope + "):" + d;
            TypeMatch(line, word) == Some(|word| + |scope| + 3)
  {
    var line := word + "(" + scope + "):" + d;
    var p := |word|;
    assert word <= line && line[p] == '(';
    var rest := line[p + 1..];
    assert rest == scope + "):" + d;
    assert LineRun(rest) == |rest| by {
      LineRunNone(rest);
    }
    var t := p + 1 + |rest|;
    assert t == |line|;
    var e := p + 1 + |scope|;
    assert ClosesAt(line, e);
    var r := LastClose(line, p + 2, t);
  }

  /** A string with no line terminator is all one run. */
  lemma {:induction false} LineRunNone(s: string)
    requires forall k :: 0 <= k < |s| ==> !IsLineTerminator(s[k])
    ensures LineRun(s) == |s|
    decreases |s|
  {
    if s != [] {
      LineRunNone(s[1..]);
    }
  }

  /** A single space after the colon is stripped, and the description is kept as it is. */
  lemma StripOneSpace(line: string, n: nat, d: string)
    requires n <= |line| && line[n..] == " " + d
    requires d == [] || !IsSpace(d[0])
    ensures Strip(line, n) == d
  {
    assert SpaceRun(line[n..]) == 1 by {
      assert line[n..][1..] == d;
    }
  }

  /** `feat(scope): description` becomes the bullet `- description` under Added. */
  lemma FeatureWithScope(scope: string, d: string)
    requires scope != [] && forall k :: 0 <= k < |scope| ==> !IsLineTerminator(scope[k])
    requires forall k :: 0 <= k < |d| ==> !IsLineTerminator(d[k]) && d[k] != ')'
    requires d == [] || !IsSpace(d[0])
    ensures Classify("feat(" + scope + "): " + d) == Entry(Changelog.Added, "- " + d)
  {
    var line := "feat(" + scope + "): " + d;
    assert line == "feat" + "(" + scope + "):" + (" " + d);
    ScopeEnd("feat", scope, " " + d);
    StripOneSpace(line, |scope| + 7, d);
  }

  /** `fix: description` becomes the bullet `- description` under Fixed. */
  lemma FixWithoutScope(d: string)
    requires d == [] || !IsSpace(d[0])
    ensures Classify("fix: " + d) == Entry(Changelog.Fixed, "- " + d)
  {
    var line := "fix: " + d;
    assert !("feat" <= line) by { assert line[1] == 'i'; }
    assert TypeMatch(line, "fix") == Some(4);
    StripOneSpace(line, 4, d);
  }

  /** `refactor(scope): description` becomes the bullet `- description` under Changed. */
  lemma RefactorWithScope(scope: string, d: string)
    requires scope != [] && forall k :: 0 <= k < |scope| ==> !IsLineTerminator(scope[k])
    requires forall k :: 0 <= k < |d| ==> !IsLineTerminator(d[k]) && d[k] != ')'
    requires d == [] || !IsSpace(d[0])
    ensures Classify("refactor(" + scope + "): " + d) == Entry(Changelog.Changed, "- " + d)
  {
    var line := "refactor(" + scope + "): " + d;
    assert line == "refactor" + "(" + scope + "):" + (" " + d);
    assert !("feat" <= line) && !("fix" <= line) && !("chore" <= line) by { assert line[0] == 'r'; }
    ScopeEnd("refactor", scope, " " + d);
    StripOneSpace(line, |scope| + 11, d);
  }

  /** A line that starts with none of the six type words is kept verbatim under Changed. */
  lemma OtherVerbatim(commit: string)
    requires !("feat" <= commit) && !("fix" <= commit) && !("chore" <= commit)
    requires !("refactor" <= commit) && !("perf" <= commit) && !("style" <= commit)
    ensures Classify(commit) == Entry(Changelog.Changed, "- " + commit)
  {
  }

  /** A type word not followed by `:` or a scope is no prefix: `feature...` (say `feature: x`) stays verbatim. */
  lemma NotAPrefix(d: string)
    ensures Classify("feature" + d) == Entry(Changelog.Changed, "- " + ("feature" + d))
  {
    var line := "feature" + d;
    assert TypeMatch(line, "feat").None? by { assert line[4] == 'u'; }
    assert TypeMatch(line, "fix").None? by { assert line[1] == 'e'; }
    assert ChangedMatch(line).None? by {
      assert !("chore" <= line) && !("refactor" <= line) && !("perf" <= line) && !("style" <= line) by {
        assert line[0] == 'f' && line[1] == 'e';
      }
    }
    Unmatched(line);
  }

  /** A line no type pattern matches is kept verbatim. */
  lemma Unmatched(commit: string)
    requires TypeMatch(commit, "feat").None? && TypeMatch(commit, "fix").None? && ChangedMatch(commit).None?
    ensures Classify(commit) == Entry(Changelog.Changed, "- " + commit)
  {
  }
}
