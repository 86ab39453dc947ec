/**
 * The release script's changelog transformer, on a CHANGELOG in the
 * Keep a Changelog 1.1.0 layout: it collects the bullets of the
 * `## [Unreleased]` section by `###` heading, turns them into a dated version
 * entry, rewrites the file (empty Unreleased skeleton, entry inserted before
 * the previous version, link lines updated) and writes a release body.
 */
module Changelog {
  import opened Basics
  import opened Strings
  import Seqs

  /** The six change kinds of Keep a Changelog. */
  datatype Section = Added | Changed | Deprecated | Removed | Fixed | Security

  /** The collected bullet lines per section, and whether any was collected. */
  datatype Changes = Changes(
    added: seq<string>, changed: seq<string>, deprecated: seq<string>, removed: seq<string>,
    fixed: seq<string>, security: seq<string>, hasChanges: bool)

  const NoChanges: Changes := Changes([], [], [], [], [], [], false)

  function Bucket(c: Changes, s: Section): seq<string>
  {
    match s
    case Added => c.added
    case Changed => c.changed
    case Deprecated => c.deprecated
    case Removed => c.removed
    case Fixed => c.fixed
    case Security => c.security
  }

  /** `changes[section].push(line); changes.hasChanges = true`. */
  function Push(c: Changes, s: Section, line: string): (r: Changes)
    ensures Bucket(r, s) == Bucket(c, s) + [line]
    ensures forall t :: t != s ==> Bucket(r, t) == Bucket(c, t)
    ensures r.hasChanges
  {
    match s
    case Added => c.(added := c.added + [line], hasChanges := true)
    case Changed => c.(changed := c.changed + [line], hasChanges := true)
    case Deprecated => c.(deprecated := c.deprecated + [line], hasChanges := true)
    case Removed => c.(removed := c.removed + [line], hasChanges := true)
    case Fixed => c.(fixed := c.fixed + [line], hasChanges := true)
    case Security => c.(security := c.security + [line], hasChanges := true)
  }

  /** Two change sets with the same buckets and flag are equal. */
  lemma ChangesEq(a: Changes, b: Changes)
    requires forall s :: Bucket(a, s) == Bucket(b, s)
    requires a.hasChanges == b.hasChanges
    ensures a == b
  {
    assert Bucket(a, Added) == Bucket(b, Added);
    assert Bucket(a, Changed) == Bucket(b, Changed);
    assert Bucket(a, Deprecated) == Bucket(b, Deprecated);
    assert Bucket(a, Removed) == Bucket(b, Removed);
    assert Bucket(a, Fixed) == Bucket(b, Fixed);
    assert Bucket(a, Security) == Bucket(b, Security);
  }

  function Heading(s: Section): string
  {
    match s
    case Added => "### Added"
    case Changed => "### Changed"
    case Deprecated => "### Deprecated"
    case Removed => "### Removed"
    case Fixed => "### Fixed"
    case Security => "### Security"
  }

  /** The section a line inside Unreleased switches to: the first heading it starts with. */
  function HeadingOf(line: string): Option<Section>
  {
    if Heading(Added) <= line then Some(Added)
    else if Heading(Changed) <= line then Some(Changed)
    else if Heading(Deprecated) <= line then Some(Deprecated)
    else if Heading(Removed) <= line then Some(Removed)
    else if Heading(Fixed) <= line then Some(Fixed)
    else if Heading(Security) <= line then Some(Security)
    else None
  }

  /** A bullet line: it starts with `- `. */
  predicate IsBullet(line: string)
  {
    "- " <= line
  }

  /** Every collected line is a bullet, and the flag says whether any was collected. */
  predicate WellFormed(c: Changes)
  {
    && (forall s, k :: 0 <= k < |Bucket(c, s)| ==> IsBullet(Bucket(c, s)[k]))
    && (c.hasChanges <==> exists s :: Bucket(c, s) != [])
  }

  const UnreleasedHeading: string := "## [Unreleased]"
  const VersionHeading: string := "## ["

  // ----- extractUnreleasedChanges -----

  /** The scan state of `extractUnreleasedChanges`; `done` once the loop has broken out. */
  datatype Reader = Reader(inUnreleased: bool, current: Option<Section>, changes: Changes, done: bool)

  const Fresh: Reader := Reader(false, None, NoChanges, false)

  function ExtractStep(r: Reader, line: string): Reader
  {
    if r.done then r
    else if UnreleasedHeading <= line then r.(inUnreleased := true)
    else if r.inUnreleased && VersionHeading <= line then r.(done := true)
    else if !r.inUnreleased then r
    else if HeadingOf(line).Some? then r.(current := HeadingOf(line))
    else if IsBullet(line) && r.current.Some? then r.(changes := Push(r.changes, r.current.value, line))
    else r
  }

  /** The state after reading `lines` from `r`. */
  function ExtractFrom(r: Reader, lines: seq<string>): Reader
    decreases |lines|
  {
    if lines == [] then r else ExtractStep(ExtractFrom(r, lines[..|lines| - 1]), lines[|lines| - 1])
  }

  /** What `extractUnreleasedChanges` returns. */
  function Extract(lines: seq<string>): Changes
  {
    ExtractFrom(Fresh, lines).changes
  }

  lemma ExtractFromSnoc(r: Reader, lines: seq<string>, i: nat)
    requires i < |lines|
    ensures ExtractFrom(r, lines[..i + 1]) == ExtractStep(ExtractFrom(r, lines[..i]), lines[i])
  {
    assert lines[..i + 1][..i] == lines[..i];
  }

  /** Reading two blocks of lines is reading the first, then the second. */
  lemma {:induction false} ExtractFromAppend(r: Reader, a: seq<string>, b: seq<string>)
    ensures ExtractFrom(r, a + b) == ExtractFrom(ExtractFrom(r, a), b)
    decreases |b|
  {
    if b == [] {
      assert a + b == a;
    } else {
      assert (a + b)[..|a + b| - 1] == a + b[..|b| - 1];
      ExtractFromAppend(r, a, b[..|b| - 1]);
    }
  }

  /** After the loop has broken out, no further line changes anything. */
  lemma {:induction false} DoneStays(r: Reader, lines: seq<string>)
    requires r.done
    ensures ExtractFrom(r, lines) == r
    decreases |lines|
  {
    if lines != [] {
      DoneStays(r, lines[..|lines| - 1]);
    }
  }

  /** `extractUnreleasedChanges`: the `for ... of` loop with its `break`. */
  method ExtractUnreleasedChanges(lines: seq<string>) returns (changes: Changes)
    ensures changes == Extract(lines)
  {
    changes := NoChanges;
    var currentSection: Option<Section> := None;
    var inUnreleased := false;
    var i := 0;
    while i < |lines|
      invariant 0 <= i <= |lines|
      invariant ExtractFrom(Fresh, lines[..i]) == Reader(inUnreleased, currentSection, changes, false)
    {
      var line := lines[i];
      ExtractFromSnoc(Fresh, lines, i);
      if UnreleasedHeading <= line {
        inUnreleased := true;
        i := i + 1;
        continue;
      }
      if inUnreleased && VersionHeading <= line {
        ExtractFromAppend(Fresh, lines[..i + 1], lines[i + 1..]);
        assert lines[..i + 1] + lines[i + 1..] == lines;
        DoneStays(ExtractFrom(Fresh, lines[..i + 1]), lines[i + 1..]);
        break;
      }
      if inUnreleased {
        if HeadingOf(line).Some? {
          currentSection := HeadingOf(line);
        } else if IsBullet(line) && currentSection.Some? {
          changes := Push(changes, currentSection.value, line);
        }
      }
      i := i + 1;
    }
    if i == |lines| {
      assert lines[..i] == lines;
    }
  }

  /** Reading keeps the collected changes well formed. */
  lemma {:induction false} ExtractWellFormed(r: Reader, lines: seq<string>)
    requires WellFormed(r.changes)
    ensures WellFormed(ExtractFrom(r, lines).changes)
    decreases |lines|
  {
    if lines != [] {
      var before := ExtractFrom(r, lines[..|lines| - 1]);
      ExtractWellFormed(r, lines[..|lines| - 1]);
      var line := lines[|lines| - 1];
      if !before.done && before.inUnreleased && !(UnreleasedHeading <= line) && !(VersionHeading <= line)
         && HeadingOf(line).None? && IsBullet(line) && before.current.Some? {
        var c := Push(before.changes, before.current.value, line);
        assert Bucket(c, before.current.value) != [];
        forall s, k | 0 <= k < |Bucket(c, s)| ensures IsBullet(Bucket(c, s)[k]) {
          if s == before.current.value && k == |Bucket(before.changes, s)| {
          } else {
            assert Bucket(c, s)[k] == Bucket(before.changes, s)[k];
          }
        }
      }
    }
  }

  /** What `extractUnreleasedChanges` returns is well formed: `hasChanges` holds iff some bullet was collected. */
  lemma ExtractIsWellFormed(lines: seq<string>)
    ensures WellFormed(Extract(lines))
  {
    assert forall s :: Bucket(NoChanges, s) == [];
    ExtractWellFormed(Fresh, lines);
  }

  /** Lines before the Unreleased heading are never collected. */
  lemma {:induction false} BeforeUnreleasedIgnored(pre: seq<string>)
    requires forall k :: 0 <= k < |pre| ==> !(UnreleasedHeading <= pre[k])
    ensures ExtractFrom(Fresh, pre) == Fresh
    decreases |pre|
  {
    if pre != [] {
      BeforeUnreleasedIgnored(pre[..|pre| - 1]);
    }
  }

  /** Reading stops at the first version heading after Unreleased: later lines are never collected. */
  lemma StopsAtNextVersion(a: seq<string>, h: string, b: seq<string>)
    requires ExtractFrom(Fresh, a).inUnreleased && !ExtractFrom(Fresh, a).done
    requires VersionHeading <= h && !(UnreleasedHeading <= h)
    ensures Extract(a + [h] + b) == Extract(a)
  {
    ExtractFromAppend(Fresh, a + [h], b);
    assert (a + [h])[..|a|] == a;
    DoneStays(ExtractFrom(Fresh, a + [h]), b);
  }

  /** Inside Unreleased, a `###` heading that is none of the six leaves the section as it was. */
  lemma UnknownHeadingKeepsSection(r: Reader, line: string)
    requires r.inUnreleased && !r.done
    requires "### " <= line && HeadingOf(line).None? && !(VersionHeading <= line)
    ensures ExtractStep(r, line) == r
  {
    assert line[0] == '#';
  }

  /** Inside Unreleased, a bullet read before any known `###` heading is not collected. */
  lemma BulletBeforeHeadingIgnored(r: Reader, line: string)
    requires r.inUnreleased && !r.done && r.current.None?
    requires IsBullet(line)
    ensures ExtractStep(r, line) == r
  {
    assert line[0] == '-';
  }

  /** A run of such bullets changes nothing either. */
  lemma {:induction false} BulletsBeforeHeadingIgnored(r: Reader, lines: seq<string>)
    requires r.inUnreleased && !r.done && r.current.None?
    requires forall k :: 0 <= k < |lines| ==> IsBullet(lines[k])
    ensures ExtractFrom(r, lines) == r
    decreases |lines|
  {
    if lines != [] {
      BulletsBeforeHeadingIgnored(r, lines[..|lines| - 1]);
      BulletBeforeHeadingIgnored(r, lines[|lines| - 1]);
    }
  }

  /** An Unreleased section holding only bullets, with no `###` heading above them, yields no changes. */
  lemma UnsectionedBulletsIgnored(bullets: seq<string>)
    requires forall k :: 0 <= k < |bullets| ==> IsBullet(bullets[k])
    ensures Extract([UnreleasedHeading] + bullets) == NoChanges
  {
    ExtractFromAppend(Fresh, [UnreleasedHeading], bullets);
    assert [UnreleasedHeading][..0] == [];
    var r := ExtractFrom(Fresh, [UnreleasedHeading]);
    assert r == Fresh.(inUnreleased := true);
    BulletsBeforeHeadingIgnored(r, bullets);
  }

  // ----- createVersionEntry -----

  /** A section of an entry: heading, bullets, blank line; nothing when there are no bullets. */
  function Block(heading: string, items: seq<string>): seq<string>
  {
    if items == [] then [] else [heading] + items + [""]
  }

  /** `releaseDate || today`. */
  function EntryDate(releaseDate: Option<string>, today: string): string
  {
    if releaseDate.Some? && releaseDate.value != "" then releaseDate.value else today
  }

  /** The version entry: its heading line, a blank line, then the non-empty sections in Keep a Changelog order. */
  function VersionEntry(version: string, date: string, c: Changes): seq<string>
  {
    ["## [" + version + "] - " + date, ""]
    + Block(Heading(Added), c.added) + Block(Heading(Changed), c.changed)
    + Block(Heading(Deprecated), c.deprecated) + Block(Heading(Removed), c.removed)
    + Block(Heading(Fixed), c.fixed) + Block(Heading(Security), c.security)
  }

  /** `entry.push(heading, ...items, '')` when `items` is not empty. */
  method PushSection(entry: seq<string>, heading: string, items: seq<string>) returns (r: seq<string>)
    ensures r == entry + Block(heading, items)
    ensures items == [] ==> r == entry
    ensures items != [] ==> |r| == |entry| + |items| + 2 && r[|entry|] == heading && r[|r| - 1] == ""
  {
    r := entry;
    if |items| > 0 {
      r := r + [heading] + items + [""];
    }
  }

  /** `createVersionEntry`: the entry built by successive pushes; `today` stands for the clock. */
  method CreateVersionEntry(version: string, releaseDate: Option<string>, today: string, changes: Changes)
    returns (entry: seq<string>)
    ensures entry == VersionEntry(version, EntryDate(releaseDate, today), changes)
  {
    var date := if releaseDate.Some? && releaseDate.value != "" then releaseDate.value else today;
    entry := ["## [" + version + "] - " + date, ""];
    entry := PushSection(entry, "### Added", changes.added);
    entry := PushSection(entry, "### Changed", changes.changed);
    entry := PushSection(entry, "### Deprecated", changes.deprecated);
    entry := PushSection(entry, "### Removed", changes.removed);
    entry := PushSection(entry, "### Fixed", changes.fixed);
    entry := PushSection(entry, "### Security", changes.security);
  }

  /** `changes[s].push(...items)` with the flag set when `items` is not empty. */
  function PushAll(c: Changes, s: Section, items: seq<string>): (r: Changes)
    ensures Bucket(r, s) == Bucket(c, s) + items
    ensures forall t :: t != s ==> Bucket(r, t) == Bucket(c, t)
    ensures r.hasChanges == (c.hasChanges || items != [])
    decreases |items|
  {
    if items == [] then c
    else
      var r := Push(PushAll(c, s, items[..|items| - 1]), s, items[|items| - 1]);
      assert items[..|items| - 1] + [items[|items| - 1]] == items;
      r
  }

  /** Inside a section, bullets are collected in order. */
  lemma {:induction false} ReadBullets(r: Reader, items: seq<string>)
    requires r.inUnreleased && !r.done && r.current.Some?
    requires forall k :: 0 <= k < |items| ==> IsBullet(items[k])
    ensures ExtractFrom(r, items) == r.(changes := PushAll(r.changes, r.current.value, items))
    decreases |items|
  {
    if items != [] {
      ReadBullets(r, items[..|items| - 1]);
      var before := ExtractFrom(r, items[..|items| - 1]);
      BulletStep(before, items[|items| - 1]);
    }
  }

  /** Inside a section, a bullet line is pushed onto that section. */
  lemma BulletStep(r: Reader, line: string)
    requires r.inUnreleased && !r.done && r.current.Some? && IsBullet(line)
    ensures ExtractStep(r, line) == r.(changes := Push(r.changes, r.current.value, line))
  {
    assert line[0] == '-';
  }

  /** Inside Unreleased, each of the six headings switches to its own section. */
  lemma ReadHeading(r: Reader, s: Section)
    requires r.inUnreleased && !r.done
    ensures ExtractStep(r, Heading(s)) == r.(current := Some(s))
  {
    var h := Heading(s);
    assert h[..4] == "### ";
    assert !(UnreleasedHeading <= h) && !(VersionHeading <= h) by { assert h[2] == '#'; }
    match s
    case Added =>
    case Changed => assert h[4] == 'C';
    case Deprecated => assert h[4] == 'D';
    case Removed => assert h[4] == 'R';
    case Fixed => assert h[4] == 'F';
    case Security => assert h[4] == 'S';
  }

  /** A blank line changes nothing. */
  lemma ReadBlank(r: Reader)
    ensures ExtractFrom(r, [""]) == r
  {
    var blank: seq<string> := [""];
    assert blank[..0] == [];
    assert ExtractFrom(r, blank) == ExtractStep(r, "");
  }

  /** Reading a section block switches to its section and collects its bullets. */
  lemma ReadBlock(r: Reader, s: Section, items: seq<string>)
    requires r.inUnreleased && !r.done
    requires forall k :: 0 <= k < |items| ==> IsBullet(items[k])
    ensures ExtractFrom(r, Block(Heading(s), items))
            == if items == [] then r else r.(current := Some(s), changes := PushAll(r.changes, s, items))
  {
    if items != [] {
      var head, blank: seq<string> := [Heading(s)], [""];
      var r1 := r.(current := Some(s));
      assert ExtractFrom(r, head) == r1 by {
        assert head[..0] == [];
        ReadHeading(r, s);
      }
      ReadBullets(r1, items);
      var r2 := r1.(changes := PushAll(r.changes, s, items));
      ReadBlank(r2);
      ExtractFromAppend(r, head, items);
      ExtractFromAppend(r, head + items, blank);
    }
  }


  /** Reading a section block after lines that leave the reader inside Unreleased. */
  lemma ReadBlockAfter(pre: seq<string>, s: Section, items: seq<string>)
    requires Inside(pre)
    requires forall k :: 0 <= k < |items| ==> IsBullet(items[k])
    ensures Inside(pre + Block(Heading(s), items))
    ensures ExtractFrom(Fresh, pre + Block(Heading(s), items)).changes == PushAll(ExtractFrom(Fresh, pre).changes, s, items)
  {
    ExtractFromAppend(Fresh, pre, Block(Heading(s), items));
    ReadBlock(ExtractFrom(Fresh, pre), s, items);
  }

  /** The lines of an entry after its heading, split into its blocks. */
  lemma EntryLines(version: string, date: string, c: Changes)
    ensures [UnreleasedHeading] + VersionEntry(version, date, c)[1..]
            == [UnreleasedHeading, ""] + Block(Heading(Added), c.added) + Block(Heading(Changed), c.changed)
               + Block(Heading(Deprecated), c.deprecated) + Block(Heading(Removed), c.removed)
               + Block(Heading(Fixed), c.fixed) + Block(Heading(Security), c.security)
  {
    var u := UnreleasedHeading;
    var x0 := ["## [" + version + "] - " + date, ""];
    var x1 := x0 + Block(Heading(Added), c.added);
    var x2 := x1 + Block(Heading(Changed), c.changed);
    var x3 := x2 + Block(Heading(Deprecated), c.deprecated);
    var x4 := x3 + Block(Heading(Removed), c.removed);
    var x5 := x4 + Block(Heading(Fixed), c.fixed);
    assert VersionEntry(version, date, c) == x5 + Block(Heading(Security), c.security);
    HeadSwap(u, x5, Block(Heading(Security), c.security));
    HeadSwap(u, x4, Block(Heading(Fixed), c.fixed));
    HeadSwap(u, x3, Block(Heading(Removed), c.removed));
    HeadSwap(u, x2, Block(Heading(Deprecated), c.deprecated));
    HeadSwap(u, x1, Block(Heading(Changed), c.changed));
    HeadSwap(u, x0, Block(Heading(Added), c.added));
    assert [u] + x0[1..] == [u, ""];
  }

  /** Replacing the first line of `x + y` replaces the first line of `x`. */
  lemma HeadSwap(u: string, x: seq<string>, y: seq<string>)
    requires |x| >= 1
    ensures [u] + (x + y)[1..] == [u] + x[1..] + y
  {
    assert (x + y)[1..] == x[1..] + y;
  }

  /** `PushAll` written out as one field update. */
  function Append(c: Changes, s: Section, items: seq<string>): Changes
  {
    match s
    case Added => c.(added := c.added + items, hasChanges := c.hasChanges || items != [])
    case Changed => c.(changed := c.changed + items, hasChanges := c.hasChanges || items != [])
    case Deprecated => c.(deprecated := c.deprecated + items, hasChanges := c.hasChanges || items != [])
    case Removed => c.(removed := c.removed + items, hasChanges := c.hasChanges || items != [])
    case Fixed => c.(fixed := c.fixed + items, hasChanges := c.hasChanges || items != [])
    case Security => c.(security := c.security + items, hasChanges := c.hasChanges || items != [])
  }

  lemma PushAllAppend(c: Changes, s: Section, items: seq<string>)
    ensures PushAll(c, s, items) == Append(c, s, items)
  {
    var r, e := PushAll(c, s, items), Append(c, s, items);
    forall t ensures Bucket(r, t) == Bucket(e, t) {
    }
    ChangesEq(r, e);
  }

  /** The six buckets of `c` appended, in entry order, to no changes. */
  function SixPushes(c: Changes): Changes
  {
    Append(Append(Append(Append(Append(Append(NoChanges, Added, c.added), Changed, c.changed),
      Deprecated, c.deprecated), Removed, c.removed), Fixed, c.fixed), Security, c.security)
  }

  /** Appending the six buckets of a well-formed change set to no changes rebuilds it. */
  lemma SixPushesRebuild(c: Changes)
    requires WellFormed(c)
    ensures SixPushes(c) == c
  {
    HasChangesIffBucket(c);
  }

  /** A version entry read back as the Unreleased section yields exactly the changes it was made from. */
  lemma EntryReadBack(version: string, date: string, c: Changes)
    requires WellFormed(c)
    ensures Extract([UnreleasedHeading] + VersionEntry(version, date, c)[1..]) == c
  {
    var top: seq<string> := [UnreleasedHeading, ""];
    assert ExtractFrom(Fresh, top) == Reader(true, None, NoChanges, false) by {
      assert top[..1] == [UnreleasedHeading];
      assert [UnreleasedHeading][..0] == [];
      assert ExtractFrom(Fresh, [UnreleasedHeading]) == Reader(true, None, NoChanges, false);
      assert ExtractStep(Reader(true, None, NoChanges, false), "") == Reader(true, None, NoChanges, false);
    }
    AllBullets(c);
    var p1 := top + Block(Heading(Added), c.added);
    ReadBlockAfter(top, Added, c.added);
    PushAllAppend(NoChanges, Added, c.added);
    var p2 := p1 + Block(Heading(Changed), c.changed);
    ReadBlockAfter(p1, Changed, c.changed);
    PushAllAppend(ExtractFrom(Fresh, p1).changes, Changed, c.changed);
    var p3 := p2 + Block(Heading(Deprecated), c.deprecated);
    ReadBlockAfter(p2, Deprecated, c.deprecated);
    PushAllAppend(ExtractFrom(Fresh, p2).changes, Deprecated, c.deprecated);
    var p4 := p3 + Block(Heading(Removed), c.removed);
    ReadBlockAfter(p3, Removed, c.removed);
    PushAllAppend(ExtractFrom(Fresh, p3).changes, Removed, c.removed);
    var p5 := p4 + Block(Heading(Fixed), c.fixed);
    ReadBlockAfter(p4, Fixed, c.fixed);
    PushAllAppend(ExtractFrom(Fresh, p4).changes, Fixed, c.fixed);
    var p6 := p5 + Block(Heading(Security), c.security);
    ReadBlockAfter(p5, Security, c.security);
    PushAllAppend(ExtractFrom(Fresh, p5).changes, Security, c.security);
    EntryLines(version, date, c);
    assert [UnreleasedHeading] + VersionEntry(version, date, c)[1..] == p6;
    SixPushesRebuild(c);
  }

  /** Lines that leave the reader inside Unreleased, before its end. */
  predicate Inside(pre: seq<string>)
  {
    ExtractFrom(Fresh, pre).inUnreleased && !ExtractFrom(Fresh, pre).done
  }

  /** Every collected line of a well-formed change set is a bullet, bucket by bucket. */
  lemma AllBullets(c: Changes)
    requires forall s, k :: 0 <= k < |Bucket(c, s)| ==> IsBullet(Bucket(c, s)[k])
    ensures forall k :: 0 <= k < |c.added| ==> IsBullet(c.added[k])
    ensures forall k :: 0 <= k < |c.changed| ==> IsBullet(c.changed[k])
    ensures forall k :: 0 <= k < |c.deprecated| ==> IsBullet(c.deprecated[k])
    ensures forall k :: 0 <= k < |c.removed| ==> IsBullet(c.removed[k])
    ensures forall k :: 0 <= k < |c.fixed| ==> IsBullet(c.fixed[k])
    ensures forall k :: 0 <= k < |c.security| ==> IsBullet(c.security[k])
  {
    assert Bucket(c, Added) == c.added && Bucket(c, Changed) == c.changed;
    assert Bucket(c, Deprecated) == c.deprecated && Bucket(c, Removed) == c.removed;
    assert Bucket(c, Fixed) == c.fixed && Bucket(c, Security) == c.security;
  }

  /** In a well-formed change set the flag says whether any of the six buckets is non-empty. */
  lemma HasChangesIffBucket(c: Changes)
    requires WellFormed(c)
    ensures c.hasChanges == (c.added != [] || c.changed != [] || c.deprecated != [] || c.removed != []
                             || c.fixed != [] || c.security != [])
  {
    if c.hasChanges {
      var s :| Bucket(c, s) != [];
    } else {
      assert Bucket(c, Added) == [] && Bucket(c, Changed) == [] && Bucket(c, Deprecated) == [];
      assert Bucket(c, Removed) == [] && Bucket(c, Fixed) == [] && Bucket(c, Security) == [];
    }
  }

  /** The bullets of an entry are the collected ones, section by section in Keep a Changelog order. */
  lemma EntryBullets(version: string, date: string, c: Changes)
    requires forall s, k :: 0 <= k < |Bucket(c, s)| ==> IsBullet(Bucket(c, s)[k])
    ensures Seqs.Filter(VersionEntry(version, date, c), IsBullet)
            == c.added + c.changed + c.deprecated + c.removed + c.fixed + c.security
  {
    var head: seq<string> := ["## [" + version + "] - " + date, ""];
    assert Seqs.Filter(head, IsBullet) == [] by {
      assert !IsBullet(head[0]) by { assert head[0][0] == '#'; }
      assert !IsBullet(head[1]);
      assert head[1..][1..] == [];
    }
    AllBullets(c);
    var p1 := head + Block(Heading(Added), c.added);
    assert Seqs.Filter(p1, IsBullet) == c.added by {
      BlockBullets(Added, c.added);
      Seqs.FilterAppend(head, Block(Heading(Added), c.added), IsBullet);
    }
    var p2 := p1 + Block(Heading(Changed), c.changed);
    assert Seqs.Filter(p2, IsBullet) == c.added + c.changed by {
      BlockBullets(Changed, c.changed);
      Seqs.FilterAppend(p1, Block(Heading(Changed), c.changed), IsBullet);
    }
    var p3 := p2 + Block(Heading(Deprecated), c.deprecated);
    assert Seqs.Filter(p3, IsBullet) == c.added + c.changed + c.deprecated by {
      BlockBullets(Deprecated, c.deprecated);
      Seqs.FilterAppend(p2, Block(Heading(Deprecated), c.deprecated), IsBullet);
    }
    var p4 := p3 + Block(Heading(Removed), c.removed);
    assert Seqs.Filter(p4, IsBullet) == c.added + c.changed + c.deprecated + c.removed by {
      BlockBullets(Removed, c.removed);
      Seqs.FilterAppend(p3, Block(Heading(Removed), c.removed), IsBullet);
    }
    var p5 := p4 + Block(Heading(Fixed), c.fixed);
    assert Seqs.Filter(p5, IsBullet) == c.added + c.changed + c.deprecated + c.removed + c.fixed by {
      BlockBullets(Fixed, c.fixed);
      Seqs.FilterAppend(p4, Block(Heading(Fixed), c.fixed), IsBullet);
    }
    BlockBullets(Security, c.security);
    Seqs.FilterAppend(p5, Block(Heading(Security), c.security), IsBullet);
  }

  /** The bullets of one section block are its items. */
  lemma BlockBullets(s: Section, items: seq<string>)
    requires forall k :: 0 <= k < |items| ==> IsBullet(items[k])
    ensures Seqs.Filter(Block(Heading(s), items), IsBullet) == items
  {
    if items != [] {
      var h := Heading(s);
      assert !IsBullet(h) by { assert h[0] == '#'; }
      var head, blank: seq<string> := [h], [""];
      assert Seqs.Filter(head, IsBullet) == [] by { assert |head[1..]| == 0; }
      assert Seqs.Filter(blank, IsBullet) == [] by { assert |blank[1..]| == 0; }
      Seqs.FilterAppend(head, items, IsBullet);
      Seqs.FilterAppend(head + items, blank, IsBullet);
      Seqs.FilterAll(items, IsBullet);
    }
  }

  // ----- updateChangelog -----

  /** The empty Unreleased section written after the Unreleased heading. */
  const Skeleton: seq<string> :=
    ["### Added", "", "### Changed", "", "### Deprecated", "", "### Removed", "", "### Fixed", "", "### Security", ""]

  const UnreleasedLink: string := "[Unreleased]:"
  const RepositoryUrl: string := "https://github.com/meronmks/vrc-social-manager"

  /** The new `[Unreleased]:` link: the comparison of the new tag with HEAD. */
  function CompareLink(version: string): string
  {
    "[Unreleased]: " + RepositoryUrl + "/compare/v" + version + "...HEAD"
  }

  /** The link of the new version: its release tag. */
  function TagLink(version: string): string
  {
    "[" + version + "]: " + RepositoryUrl + "/releases/tag/v" + version
  }

  /** A line outside Unreleased: the `[Unreleased]:` link line becomes the two new links, any other is copied. */
  function CopyLine(line: string, version: string): seq<string>
  {
    if UnreleasedLink <= line then [CompareLink(version), TagLink(version)] else [line]
  }

  /** `CopyLine` for each line, in order. */
  function CopyLines(lines: seq<string>, version: string): seq<string>
    decreases |lines|
  {
    if lines == [] then [] else CopyLines(lines[..|lines| - 1], version) + CopyLine(lines[|lines| - 1], version)
  }

  /** The output so far and whether the loop is inside the old Unreleased section. */
  datatype Writer = Writer(out: seq<string>, inUnreleased: bool)

  function RewriteStep(w: Writer, line: string, version: string, entry: seq<string>): Writer
  {
    if UnreleasedHeading <= line then Writer(w.out + [line, ""] + Skeleton, true)
    else if w.inUnreleased && VersionHeading <= line then Writer(w.out + entry + [line], false)
    else if w.inUnreleased then w
    else Writer(w.out + CopyLine(line, version), false)
  }

  function RewriteFrom(w: Writer, lines: seq<string>, version: string, entry: seq<string>): Writer
    decreases |lines|
  {
    if lines == [] then w
    else RewriteStep(RewriteFrom(w, lines[..|lines| - 1], version, entry), lines[|lines| - 1], version, entry)
  }

  /** The lines `updateChangelog` writes back. */
  function Rewrite(lines: seq<string>, version: string, entry: seq<string>): seq<string>
  {
    RewriteFrom(Writer([], false), lines, version, entry).out
  }

  lemma RewriteFromSnoc(w: Writer, lines: seq<string>, version: string, entry: seq<string>, i: nat)
    requires i < |lines|
    ensures RewriteFrom(w, lines[..i + 1], version, entry)
            == RewriteStep(RewriteFrom(w, lines[..i], version, entry), lines[i], version, entry)
  {
    assert lines[..i + 1][..i] == lines[..i];
  }

  /** `updateChangelog`: the line loop with its `inUnreleased` flag, minus the file write. */
  method UpdateChangelog(lines: seq<string>, version: string, newVersionEntry: seq<string>)
    returns (newLines: seq<string>)
    ensures newLines == Rewrite(lines, version, newVersionEntry)
  {
    newLines := [];
    var inUnreleased := false;
    var i := 0;
    while i < |lines|
      invariant 0 <= i <= |lines|
      invariant RewriteFrom(Writer([], false), lines[..i], version, newVersionEntry) == Writer(newLines, inUnreleased)
    {
      var line := lines[i];
      RewriteFromSnoc(Writer([], false), lines, version, newVersionEntry, i);
      ghost var next := RewriteStep(Writer(newLines, inUnreleased), line, version, newVersionEntry);
      ghost var out := newLines;
      if UnreleasedHeading <= line {
        newLines := newLines + [line, ""];
        newLines := newLines + ["### Added", "", "### Changed", "", "### Deprecated", ""];
        newLines := newLines + ["### Removed", "", "### Fixed", "", "### Security", ""];
        inUnreleased := true;
        assert newLines == out + [line, ""] + Skeleton;
      } else if inUnreleased && VersionHeading <= line {
        newLines := newLines + newVersionEntry;
        newLines := newLines + [line];
        inUnreleased := false;
      } else if inUnreleased {
        // the old Unreleased body is skipped
      } else if UnreleasedLink <= line {
        newLines := newLines + [CompareLink(version)];
        newLines := newLines + [TagLink(version)];
        assert newLines == out + CopyLine(line, version);
      } else {
        newLines := newLines + [line];
      }
      assert Writer(newLines, inUnreleased) == next;
      i := i + 1;
    }
    assert lines[..|lines|] == lines;
  }

  /** Rewriting two blocks of lines is rewriting the first, then the second. */
  lemma {:induction false} RewriteFromAppend(w: Writer, a: seq<string>, b: seq<string>, version: string,
                                             entry: seq<string>)
    ensures RewriteFrom(w, a + b, version, entry) == RewriteFrom(RewriteFrom(w, a, version, entry), b, version, entry)
    decreases |b|
  {
    if b == [] {
      assert a + b == a;
    } else {
      assert (a + b)[..|a + b| - 1] == a + b[..|b| - 1];
      RewriteFromAppend(w, a, b[..|b| - 1], version, entry);
    }
  }

  /** No line of `lines` starts an Unreleased section. */
  predicate NoUnreleased(lines: seq<string>)
  {
    forall k :: 0 <= k < |lines| ==> !(UnreleasedHeading <= lines[k])
  }

  /** Outside Unreleased, every line is copied, except the link line, which is replaced. */
  lemma {:induction false} OutsideCopied(w: Writer, lines: seq<string>, version: string, entry: seq<string>)
    requires !w.inUnreleased && NoUnreleased(lines)
    ensures RewriteFrom(w, lines, version, entry) == Writer(w.out + CopyLines(lines, version), false)
    decreases |lines|
  {
    if lines != [] {
      OutsideCopied(w, lines[..|lines| - 1], version, entry);
    }
  }

  /** Inside Unreleased, lines up to the next version heading are dropped. */
  lemma {:induction false} InsideDropped(w: Writer, body: seq<string>, version: string, entry: seq<string>)
    requires w.inUnreleased
    requires forall k :: 0 <= k < |body| ==> !(VersionHeading <= body[k])
    ensures RewriteFrom(w, body, version, entry) == w
    decreases |body|
  {
    if body != [] {
      InsideDropped(w, body[..|body| - 1], version, entry);
      var line := body[|body| - 1];
      assert !(UnreleasedHeading <= line);
    }
  }

  /**
   * The rewritten changelog: the lines before Unreleased copied (links replaced), the Unreleased
   * heading with an empty skeleton, the old Unreleased body dropped, the new entry right before
   * the next version heading, and the rest copied (links replaced).
   */
  lemma UpdateLayout(pre: seq<string>, u: string, body: seq<string>, h: string, post: seq<string>,
                     version: string, entry: seq<string>)
    requires NoUnreleased(pre) && NoUnreleased(post)
    requires UnreleasedHeading <= u
    requires forall k :: 0 <= k < |body| ==> !(VersionHeading <= body[k])
    requires VersionHeading <= h && !(UnreleasedHeading <= h)
    ensures Rewrite(pre + [u] + body + [h] + post, version, entry)
            == CopyLines(pre, version) + [u, ""] + Skeleton + entry + [h] + CopyLines(post, version)
  {
    var w0 := Writer([], false);
    OutsideCopied(w0, pre, version, entry);
    assert [] + CopyLines(pre, version) == CopyLines(pre, version);
    var w1 := Writer(CopyLines(pre, version), false);
    var w2 := Writer(CopyLines(pre, version) + [u, ""] + Skeleton, true);
    assert RewriteFrom(w1, [u], version, entry) == w2 by {
      assert [u][..0] == [];
    }
    InsideDropped(w2, body, version, entry);
    var w3 := Writer(w2.out + entry + [h], false);
    assert RewriteFrom(w2, [h], version, entry) == w3 by {
      assert [h][..0] == [];
    }
    OutsideCopied(w3, post, version, entry);
    RewriteFromAppend(w0, pre, [u], version, entry);
    RewriteFromAppend(w0, pre + [u], body, version, entry);
    RewriteFromAppend(w0, pre + [u] + body, [h], version, entry);
    RewriteFromAppend(w0, pre + [u] + body + [h], post, version, entry);
  }

  /**
   * When no version heading follows Unreleased (a first release), the loop never leaves the
   * Unreleased section: the new entry and every line after the heading, links included, are lost.
   */
  lemma FirstReleaseLosesEntry(pre: seq<string>, u: string, body: seq<string>, version: string, entry: seq<string>)
    requires NoUnreleased(pre)
    requires UnreleasedHeading <= u
    requires forall k :: 0 <= k < |body| ==> !(VersionHeading <= body[k])
    ensures Rewrite(pre + [u] + body, version, entry) == CopyLines(pre, version) + [u, ""] + Skeleton
  {
    var w0 := Writer([], false);
    OutsideCopied(w0, pre, version, entry);
    assert [] + CopyLines(pre, version) == CopyLines(pre, version);
    var w1 := Writer(CopyLines(pre, version), false);
    var w2 := Writer(CopyLines(pre, version) + [u, ""] + Skeleton, true);
    assert RewriteFrom(w1, [u], version, entry) == w2 by {
      assert [u][..0] == [];
    }
    InsideDropped(w2, body, version, entry);
    RewriteFromAppend(w0, pre, [u], version, entry);
    RewriteFromAppend(w0, pre + [u], body, version, entry);
  }

  /** Lines that are not the `[Unreleased]:` link are copied unchanged and in order. */
  lemma {:induction false} CopyPlainLines(lines: seq<string>, version: string)
    requires forall k :: 0 <= k < |lines| ==> !(UnreleasedLink <= lines[k])
    ensures CopyLines(lines, version) == lines
    decreases |lines|
  {
    if lines != [] {
      CopyPlainLines(lines[..|lines| - 1], version);
      assert lines[..|lines| - 1] + [lines[|lines| - 1]] == lines;
    }
  }

  /** The link line becomes exactly the compare link and the tag link, in place. */
  lemma {:induction false} LinkLineReplaced(a: seq<string>, link: string, b: seq<string>, version: string)
    requires UnreleasedLink <= link
    ensures CopyLines(a + [link] + b, version)
            == CopyLines(a, version) + [CompareLink(version), TagLink(version)] + CopyLines(b, version)
    decreases |b|
  {
    var xs := a + [link] + b;
    if b == [] {
      assert xs == a + [link] && xs[..|a|] == a;
      assert CopyLines(xs, version) == CopyLines(a, version) + CopyLine(link, version);
    } else {
      var init, last := b[..|b| - 1], b[|b| - 1];
      assert xs[..|xs| - 1] == a + [link] + init && xs[|xs| - 1] == last;
      LinkLineReplaced(a, link, init, version);
      assert CopyLines(b, version) == CopyLines(init, version) + CopyLine(last, version);
    }
  }

  // ----- generateReleaseBody -----

  /** `s.replace(pattern, replacement)` for a string pattern: only the first occurrence is replaced. */
  function ReplaceFirst(s: string, pattern: string, replacement: string): (r: string)
    requires pattern != ""
    decreases |s|
  {
    if pattern <= s then replacement + s[|pattern|..]
    else if s == [] then s
    else [s[0]] + ReplaceFirst(s[1..], pattern, replacement)
  }

  /** `line.replace('- ', '* ')`. */
  function Star(line: string): string
  {
    ReplaceFirst(line, "- ", "* ")
  }

  /** Every line starred, in order. */
  function Stars(items: seq<string>): (r: seq<string>)
    ensures |r| == |items|
    ensures forall k :: 0 <= k < |items| ==> r[k] == Star(items[k])
  {
    seq(|items|, k requires 0 <= k < |items| => Star(items[k]))
  }

  /** A bullet `- x` becomes `* x`, and `- x` is recovered from it. */
  lemma StarBullet(line: string)
    requires IsBullet(line)
    ensures Star(line) == "* " + line[2..]
    ensures "- " + Star(line)[2..] == line
  {
  }

  /** A section of the release body: heading, starred bullets, blank line; nothing when there are none. */
  function ReleaseBlock(heading: string, items: seq<string>): seq<string>
  {
    if items == [] then [] else [heading] + Stars(items) + [""]
  }

  const NewFeaturesTitle: string := "### \U{1F680} New Features"
  const ChangesTitle: string := "### \U{1F504} Changes"
  const BugFixesTitle: string := "### \U{1F41B} Bug Fixes"
  const DeprecatedTitle: string := "### \U{26A0}\U{FE0F} Deprecated"
  const RemovedTitle: string := "### \U{1F5D1}\U{FE0F} Removed"
  const SecurityTitle: string := "### \U{1F512} Security"

  /** The release body: Added, Changed, Fixed, Deprecated, Removed, Security, each non-empty one starred. */
  function ReleaseBody(c: Changes): seq<string>
  {
    ReleaseBlock(NewFeaturesTitle, c.added) + ReleaseBlock(ChangesTitle, c.changed)
    + ReleaseBlock(BugFixesTitle, c.fixed) + ReleaseBlock(DeprecatedTitle, c.deprecated)
    + ReleaseBlock(RemovedTitle, c.removed) + ReleaseBlock(SecurityTitle, c.security)
  }

  /** `body.push(heading, ...items.map(star), '')` when `items` is not empty. */
  method PushReleaseSection(body: seq<string>, heading: string, items: seq<string>) returns (r: seq<string>)
    ensures r == body + ReleaseBlock(heading, items)
    ensures items == [] ==> r == body
    ensures items != [] ==> |r| == |body| + |items| + 2 && r[|body|] == heading && r[|r| - 1] == ""
  {
    r := body;
    if |items| > 0 {
      ghost var block := [heading] + Stars(items) + [""];
      assert block == ReleaseBlock(heading, items);
      assert |block| == |items| + 2 && block[0] == heading && block[|block| - 1] == "";
      r := r + [heading] + Stars(items) + [""];
      assert r == body + block;
    }
  }

  /** `generateReleaseBody`: the body lines, before they are joined and written to `.release-body-<version>.md`. */
  method GenerateReleaseBody(changes: Changes) returns (body: seq<string>)
    ensures body == ReleaseBody(changes)
  {
    body := [];
    body := PushReleaseSection(body, NewFeaturesTitle, changes.added);
    assert body == ReleaseBlock(NewFeaturesTitle, changes.added);
    body := PushReleaseSection(body, ChangesTitle, changes.changed);
    body := PushReleaseSection(body, BugFixesTitle, changes.fixed);
    body := PushReleaseSection(body, DeprecatedTitle, changes.deprecated);
    body := PushReleaseSection(body, RemovedTitle, changes.removed);
    body := PushReleaseSection(body, SecurityTitle, changes.security);
  }

  /** A starred bullet line. */
  predicate IsStarred(line: string)
  {
    "* " <= line
  }

  /** The starred lines of one release block are its items, starred. */
  lemma ReleaseBlockItems(heading: string, items: seq<string>)
    requires "###" <= heading
    requires forall k :: 0 <= k < |items| ==> IsBullet(items[k])
    ensures Seqs.Filter(ReleaseBlock(heading, items), IsStarred) == Stars(items)
  {
    if items != [] {
      var head, blank: seq<string> := [heading], [""];
      assert !IsStarred(heading) by { assert heading[0] == '#'; }
      assert Seqs.Filter(head, IsStarred) == [] by { assert |head[1..]| == 0; }
      assert Seqs.Filter(blank, IsStarred) == [] by { assert |blank[1..]| == 0; }
      forall k | 0 <= k < |items| ensures IsStarred(Stars(items)[k]) {
        StarBullet(items[k]);
      }
      Seqs.FilterAppend(head, Stars(items), IsStarred);
      Seqs.FilterAppend(head + Stars(items), blank, IsStarred);
      Seqs.FilterAll(Stars(items), IsStarred);
    }
  }

  lemma StarsAppend(a: seq<string>, b: seq<string>)
    ensures Stars(a + b) == Stars(a) + Stars(b)
  {
  }

  /** Appending one release block to a body whose starred lines are `Stars(acc)` adds that block's items. */
  lemma ReleaseBlockAppend(body: seq<string>, acc: seq<string>, heading: string, items: seq<string>)
    requires Seqs.Filter(body, IsStarred) == Stars(acc)
    requires "###" <= heading
    requires forall k :: 0 <= k < |items| ==> IsBullet(items[k])
    ensures Seqs.Filter(body + ReleaseBlock(heading, items), IsStarred) == Stars(acc + items)
  {
    ReleaseBlockItems(heading, items);
    Seqs.FilterAppend(body, ReleaseBlock(heading, items), IsStarred);
    StarsAppend(acc, items);
  }

  /** The bullets of the release body are the collected bullets, starred, in the order Added, Changed, Fixed, Deprecated, Removed, Security. */
  lemma ReleaseBodyItems(c: Changes)
    requires WellFormed(c)
    ensures Seqs.Filter(ReleaseBody(c), IsStarred)
            == Stars(c.added + c.changed + c.fixed + c.deprecated + c.removed + c.security)
  {
    AllBullets(c);
    var empty: seq<string> := [];
    assert Seqs.Filter(empty, IsStarred) == Stars(empty);
    var p1 := ReleaseBlock(NewFeaturesTitle, c.added);
    ReleaseBlockAppend(empty, empty, NewFeaturesTitle, c.added);
    assert empty + p1 == p1 && empty + c.added == c.added;
    var p2 := p1 + ReleaseBlock(ChangesTitle, c.changed);
    ReleaseBlockAppend(p1, c.added, ChangesTitle, c.changed);
    var p3 := p2 + ReleaseBlock(BugFixesTitle, c.fixed);
    ReleaseBlockAppend(p2, c.added + c.changed, BugFixesTitle, c.fixed);
    var p4 := p3 + ReleaseBlock(DeprecatedTitle, c.deprecated);
    ReleaseBlockAppend(p3, c.added + c.changed + c.fixed, DeprecatedTitle, c.deprecated);
    var p5 := p4 + ReleaseBlock(RemovedTitle, c.removed);
    ReleaseBlockAppend(p4, c.added + c.changed + c.fixed + c.deprecated, RemovedTitle, c.removed);
    ReleaseBlockAppend(p5, c.added + c.changed + c.fixed + c.deprecated + c.removed, SecurityTitle, c.security);
  }
}
