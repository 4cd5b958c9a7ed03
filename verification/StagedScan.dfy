/**
 Scanning the staged blobs range by range.  For the hunks of a zero-context diff from one text to
 another: the ranges ascend, do not meet and lie inside the new text, their blocks are exactly the
 added lines, and every finding is reported at the line of the new text that holds it.
 */
module StagedScan {
  import opened Wrappers
  import opened OrderedMap
  import opened Grouping
  import opened DiffText
  import opened StagedDiff

  // ---------------------------------------------------------------- edits

  /** A stretch of kept lines and the change behind it. */
  datatype Change<T> = Change(kept: seq<T>, removed: seq<T>, added: seq<T>)

  function NewText<T>(cs: seq<Change<T>>, tail: seq<T>): seq<T> {
    if cs == [] then tail else cs[0].kept + cs[0].added + NewText(cs[1..], tail)
  }

  /** The first line of a side's part, or the line before it when the part is empty. */
  function StartAt(before: nat, count: nat): nat {
    if count == 0 then before else before + 1
  }

  /** The hunks of the edit, given how many lines of each text lie before it. */
  function HunksOf(cs: seq<Change<string>>, was: nat, now: nat): seq<Hunk> {
    if cs == [] then []
    else
      var c := cs[0];
      var (o, n) := (was + |c.kept|, now + |c.kept|);
      [Hunk(StartAt(o, |c.removed|), StartAt(n, |c.added|), "", c.removed, c.added, false, false)]
      + HunksOf(cs[1..], o + |c.removed|, n + |c.added|)
  }

  /** Start and count of each run of added lines. */
  function RunsOf<T>(cs: seq<Change<T>>, now: nat): seq<(nat, nat)> {
    if cs == [] then []
    else
      var n := now + |cs[0].kept|;
      (if |cs[0].added| == 0 then [] else [(n + 1, |cs[0].added|)]) + RunsOf(cs[1..], n + |cs[0].added|)
  }

  /** The added runs themselves. */
  function AddedRuns<T>(cs: seq<Change<T>>): seq<seq<T>> {
    if cs == [] then [] else (if |cs[0].added| == 0 then [] else [cs[0].added]) + AddedRuns(cs[1..])
  }

  function ForFile(path: string, rs: seq<(nat, nat)>): seq<Range> {
    seq(|rs|, i requires 0 <= i < |rs| => (path, rs[i]))
  }

  /** The same start and lines on the new side and the same lines on the old one, whatever section and end-of-file marks are printed. */
  predicate Agree(a: Hunk, b: Hunk) {
    a.start == b.start && a.removed == b.removed && a.added == b.added
  }

  predicate AllAgree(hs: seq<Hunk>, hs': seq<Hunk>) {
    |hs| == |hs'| && forall i :: 0 <= i < |hs| ==> Agree(hs[i], hs'[i])
  }

  /** The ranges of the diff are the added runs. */
  lemma {:induction false} HunksGiveRuns(path: string, cs: seq<Change<string>>, hs: seq<Hunk>, was: nat, now: nat)
    requires path != "" && AllAgree(hs, HunksOf(cs, was, now))
    ensures HunkRanges(path, hs) == ForFile(path, RunsOf(cs, now))
    decreases |cs|
  {
    hide HunksOf, RunsOf, HunkRanges;
    HunksUnfold(path, cs, hs, was, now);
    if cs != [] {
      RunsUnfold(cs, now);
      var (o, n) := (was + |cs[0].kept|, now + |cs[0].kept|);
      HunksGiveRuns(path, cs[1..], hs[1..], o + |cs[0].removed|, n + |cs[0].added|);
    } else {
      NoRuns<string>([], now);
    }
  }

  lemma HunksUnfold(path: string, cs: seq<Change<string>>, hs: seq<Hunk>, was: nat, now: nat)
    requires path != "" && AllAgree(hs, HunksOf(cs, was, now))
    ensures cs == [] <==> hs == []
    ensures cs == [] ==> HunkRanges(path, hs) == []
    ensures cs != [] ==>
      var (o, n, added) := (was + |cs[0].kept|, now + |cs[0].kept|, cs[0].added);
      && AllAgree(hs[1..], HunksOf(cs[1..], o + |cs[0].removed|, n + |added|))
      && HunkRanges(path, hs) == (if |added| == 0 then [] else [(path, (n + 1, |added|))]) + HunkRanges(path, hs[1..])
  {
    if cs != [] {
      var (o, n) := (was + |cs[0].kept|, now + |cs[0].kept|);
      var rest := HunksOf(cs[1..], o + |cs[0].removed|, n + |cs[0].added|);
      var own := HunksOf(cs, was, now);
      assert own[1..] == rest && Agree(hs[0], own[0]);
      forall i | 0 <= i < |rest| ensures Agree(hs[1..][i], rest[i]) {
        assert Agree(hs[i + 1], own[i + 1]);
      }
    }
  }

  // ---------------------------------------------------------------- slices

  /** A slice bound as the host language reads it: from the end when negative, and clamped. */
  function Bound(i: int, n: nat): nat {
    if i < 0 then if i + n < 0 then 0 else i + n else if i > n then n else i
  }

  function Slice<T>(s: seq<T>, a: int, b: int): seq<T> {
    if Bound(a, |s|) <= Bound(b, |s|) then s[Bound(a, |s|)..Bound(b, |s|)] else []
  }

  function Block<T>(lines: seq<T>, start: nat, count: nat): seq<T> {
    Slice(lines, start - 1, start - 1 + count)
  }

  function Blocks<T>(lines: seq<T>, rs: seq<(nat, nat)>): seq<seq<T>> {
    seq(|rs|, i requires 0 <= i < |rs| => Block(lines, rs[i].0, rs[i].1))
  }

  ghost predicate InBounds(rs: seq<(nat, nat)>, low: nat, high: nat) {
    forall i :: 0 <= i < |rs| ==> low < rs[i].0 && rs[i].1 > 0 && rs[i].0 + rs[i].1 - 1 <= high
  }

  /** Each range ends before the next begins. */
  ghost predicate Ascending(rs: seq<(nat, nat)>) {
    forall i, j :: 0 <= i < j < |rs| ==> rs[i].0 + rs[i].1 <= rs[j].0
  }

  lemma BlockOf<T>(pre: seq<T>, block: seq<T>, post: seq<T>)
    ensures Block(pre + block + post, |pre| + 1, |block|) == block
  {
  }

  /** The runs cut exactly the added lines out of the new text. */
  lemma {:induction false} RunsCutAdded<T>(pre: seq<T>, cs: seq<Change<T>>, tail: seq<T>, lines: seq<T>)
    requires lines == pre + NewText(cs, tail)
    ensures Blocks(lines, RunsOf(cs, |pre|)) == AddedRuns(cs)
    decreases |cs|
  {
    hide Blocks, RunsOf, AddedRuns, NewText, Block;
    if cs != [] {
      var c := cs[0];
      var before := pre + c.kept;
      NewTextUnfold(pre, cs, tail);
      RunsUnfold(cs, |pre|);
      BlockOf(before, c.added, NewText(cs[1..], tail));
      RunsCutAdded(before + c.added, cs[1..], tail, lines);
      FirstBlock(lines, (|before| + 1, |c.added|), RunsOf(cs[1..], |before| + |c.added|));
    } else {
      NoRuns(lines, |pre|);
    }
  }

  lemma NewTextUnfold<T>(pre: seq<T>, cs: seq<Change<T>>, tail: seq<T>)
    requires cs != []
    ensures pre + NewText(cs, tail) == pre + cs[0].kept + cs[0].added + NewText(cs[1..], tail)
  {
  }

  lemma NoRuns<T>(lines: seq<T>, now: nat)
    ensures Blocks(lines, RunsOf<T>([], now)) == AddedRuns<T>([]) && RunsOf<T>([], now) == []
  {
  }

  lemma RunsUnfold<T>(cs: seq<Change<T>>, now: nat)
    requires cs != []
    ensures var (n, added) := (now + |cs[0].kept|, cs[0].added);
            && RunsOf(cs, now) == (if |added| == 0 then [] else [(n + 1, |added|)]) + RunsOf(cs[1..], n + |added|)
            && AddedRuns(cs) == (if |added| == 0 then [] else [added]) + AddedRuns(cs[1..])
  {
  }

  lemma {:induction false} RunsBounded<T>(cs: seq<Change<T>>, tail: seq<T>, now: nat)
    ensures InBounds(RunsOf(cs, now), now, now + |NewText(cs, tail)|) && Ascending(RunsOf(cs, now))
    decreases |cs|
  {
    hide RunsOf;
    if cs != [] {
      RunsUnfold(cs, now);
      RunsBounded(cs[1..], tail, now + |cs[0].kept| + |cs[0].added|);
    } else {
      NoRuns(tail, now);
    }
  }

  lemma FirstBlock<T>(lines: seq<T>, r: (nat, nat), later: seq<(nat, nat)>)
    ensures Blocks(lines, [r] + later) == [Block(lines, r.0, r.1)] + Blocks(lines, later)
    ensures [] + later == later
  {
  }

  function Concat<T>(bs: seq<seq<T>>): seq<T> {
    if |bs| == 0 then [] else bs[0] + Concat(bs[1..])
  }

  /** All added lines, in order. */
  function AddedLines<T>(cs: seq<Change<T>>): seq<T> {
    if cs == [] then [] else cs[0].added + AddedLines(cs[1..])
  }

  lemma {:induction false} RunsAreLines<T>(cs: seq<Change<T>>)
    ensures Concat(AddedRuns(cs)) == AddedLines(cs)
  {
    if cs != [] {
      RunsAreLines(cs[1..]);
      if |cs[0].added| != 0 {
        assert AddedRuns(cs)[1..] == AddedRuns(cs[1..]);
      } else {
        assert AddedRuns(cs) == AddedRuns(cs[1..]);
      }
    }
  }

  /** What is scanned of a file is what the diff adds to it: no more, no less. */
  lemma ScannedIsAdded<T>(cs: seq<Change<T>>, tail: seq<T>)
    ensures var rs := RunsOf(cs, 0);
            && Concat(Blocks(NewText(cs, tail), rs)) == AddedLines(cs)
            && InBounds(rs, 0, |NewText(cs, tail)|) && Ascending(rs)
  {
    var lines := NewText(cs, tail);
    assert lines == [] + NewText(cs, tail);
    RunsCutAdded([], cs, tail, lines);
    RunsBounded(cs, tail, 0);
    RunsAreLines(cs);
    hide Blocks, RunsOf, AddedRuns, NewText, Concat, AddedLines, InBounds, Ascending;
  }

  lemma {:induction false} OfOtherFile(d: seq<FileDiff>, path: string)
    requires path != "" && forall f :: f in d ==> f.target != Into(path)
    ensures OfKey(AddedRanges(d), path) == []
  {
    if d != [] {
      OfOtherFile(d[1..], path);
      OfOtherHunks(FileOf(d[0].target), d[0].hunks, path);
      assert d[0] in d;
      OfKeyJoin(HunkRanges(FileOf(d[0].target), d[0].hunks), AddedRanges(d[1..]), path);
    } else {
      assert AddedRanges(d) == [];
    }
  }

  lemma {:induction false} OfOtherHunks(file: string, hs: seq<Hunk>, path: string)
    requires file != path
    ensures OfKey(HunkRanges(file, hs), path) == []
  {
    if hs != [] {
      OfOtherHunks(file, hs[1..], path);
      OfKeyJoin(HunkRange(file, hs[0]), HunkRanges(file, hs[1..]), path);
      OfOne(file, hs[0], path);
    } else {
      assert HunkRanges(file, hs) == [];
    }
  }

  lemma OfOne(file: string, h: Hunk, path: string)
    requires file != path
    ensures OfKey(HunkRange(file, h), path) == []
  {
    if file != "" && |h.added| > 0 {
      assert HunkRange(file, h)[..0] == [];
    }
  }

  /** The ranges of one file among those of all. */
  lemma {:induction false} OfThisFile(d: seq<FileDiff>, i: nat, path: string)
    requires i < |d| && path != "" && d[i].target == Into(path)
    requires forall j :: 0 <= j < |d| && j != i ==> d[j].target != Into(path)
    ensures OfKey(AddedRanges(d), path) == OfKey(HunkRanges(path, d[i].hunks), path)
  {
    OfKeyJoin(HunkRanges(FileOf(d[0].target), d[0].hunks), AddedRanges(d[1..]), path);
    if i == 0 {
      OfOtherFile(d[1..], path);
    } else {
      OfThisFile(d[1..], i - 1, path);
      OfOtherHunks(FileOf(d[0].target), d[0].hunks, path);
    }
  }

  lemma {:induction false} OfOwnRanges(path: string, rs: seq<(nat, nat)>)
    ensures OfKey(ForFile(path, rs), path) == rs
  {
    if rs != [] {
      OfOwnRanges(path, rs[..|rs| - 1]);
      assert ForFile(path, rs)[..|rs| - 1] == ForFile(path, rs[..|rs| - 1]);
    }
  }

  /**
   From a printed diff to the scanned blocks of any of its files: exactly the lines added to it,
   whatever sections and end-of-file marks are printed and whatever line ends the lines have.
   */
  lemma DiffScansAdded(d: seq<FileDiff>, i: nat, path: string, cs: seq<Change<string>>, tail: seq<string>)
    requires Printable(d) && CleanDiff(d)
    requires i < |d| && path != "" && d[i].target == Into(path) && AllAgree(d[i].hunks, HunksOf(cs, 0, 0))
    requires forall j :: 0 <= j < |d| && j != i ==> d[j].target != Into(path)
    ensures var rs := OfKey(Parse(PrintDiff(d)), path);
            && rs == RunsOf(cs, 0)
            && Concat(Blocks(NewText(cs, tail), rs)) == AddedLines(cs)
  {
    hide Printable, CleanDiff, Parse, PrintDiff, AddedRanges, HunkRanges, HunksOf, RunsOf, Concat, Blocks, NewText, AddedLines, OfKey;
    ParseInvertsPrint(d);
    OfThisFile(d, i, path);
    HunksGiveRuns(path, cs, d[i].hunks, 0, 0);
    OfOwnRanges(path, RunsOf(cs, 0));
    ScannedIsAdded(cs, tail);
  }

  // ---------------------------------------------------------------- findings

  /** A finding is at a line of the text it was found in, counted from one. */
  datatype Finding = Finding(line: int, what: string)

  function Shifted(f: Finding, start: nat): Finding {
    f.(line := start + f.line - 1)
  }

  /** A finding in a block is reported at the line of the whole text that is its line of the block. */
  lemma FindingMapsBack<T>(lines: seq<T>, start: nat, count: nat, f: Finding)
    requires 1 <= start && start + count - 1 <= |lines|
    requires 1 <= f.line <= count
    ensures var g := Shifted(f, start);
            start <= g.line < start + count && lines[g.line - 1] == Block(lines, start, count)[f.line - 1]
  {
  }

  type Finder = seq<string> -> seq<Finding>

  type PathGroup = (string, seq<(nat, nat)>)

  // ---------------------------------------------------------------- the scan

  /** split on the line feed. */
  function Feeds(text: string): seq<string> {
    if text == "" then [""]
    else
      var c := text[|text| - 1];
      var front := Feeds(text[..|text| - 1]);
      if c == '\n' || front == [] then front + [""] else front[..|front| - 1] + [front[|front| - 1] + [c]]
  }

  /** The lines with a line feed between each two. */
  function Joined(lines: seq<string>): string {
    if lines == [] then ""
    else if |lines| == 1 then lines[0]
    else lines[0] + "\n" + Joined(lines[1..])
  }

  predicate NoFeed(line: string) {
    '\n' !in line
  }

  predicate AllNoFeed(lines: seq<string>) {
    forall i :: 0 <= i < |lines| ==> NoFeed(lines[i])
  }

  lemma {:induction false} JoinedSnoc(lines: seq<string>, line: string)
    requires lines != []
    ensures Joined(lines + [line]) == Joined(lines) + "\n" + line
  {
    if |lines| > 1 {
      assert (lines + [line])[1..] == lines[1..] + [line];
      JoinedSnoc(lines[1..], line);
    } else {
      assert (lines + [line])[1..] == [line];
    }
  }

  /** The last piece can be taken off. */
  lemma JoinedLast(lines: seq<string>)
    requires lines != []
    ensures var (front, last) := (lines[..|lines| - 1], lines[|lines| - 1]);
            Joined(lines) == if front == [] then last else Joined(front) + "\n" + last
  {
    var (front, last) := (lines[..|lines| - 1], lines[|lines| - 1]);
    assert lines == front + [last];
    if front != [] {
      JoinedSnoc(front, last);
    }
  }

  lemma FeedsSnoc(text: string, c: char)
    ensures var fs := Feeds(text);
            Feeds(text + [c]) == if c == '\n' || fs == [] then fs + [""] else fs[..|fs| - 1] + [fs[|fs| - 1] + [c]]
  {
    assert (text + [c])[..|text|] == text;
  }

  /** One more character of the last piece. */
  lemma JoinedGrows(front: seq<string>, last: string, c: char)
    ensures Joined(front + [last + [c]]) == Joined(front + [last]) + [c]
  {
    hide Joined;
    var (was, now) := (front + [last], front + [last + [c]]);
    JoinedLast(was);
    JoinedLast(now);
    assert was[..|was| - 1] == front && now[..|now| - 1] == front;
  }

  lemma {:induction false} FeedsJoin(text: string)
    ensures Feeds(text) != [] && Joined(Feeds(text)) == text && AllNoFeed(Feeds(text))
  {
    if text != "" {
      hide Joined, Feeds;
      var (front, c) := (text[..|text| - 1], text[|text| - 1]);
      FeedsJoin(front);
      assert text == front + [c];
      FeedsSnoc(front, c);
      FeedsGrow(Feeds(front), c);
    }
  }

  lemma FeedsGrow(fs: seq<string>, c: char)
    requires fs != [] && AllNoFeed(fs)
    ensures var more := if c == '\n' then fs + [""] else fs[..|fs| - 1] + [fs[|fs| - 1] + [c]];
            Joined(more) == Joined(fs) + [c] && AllNoFeed(more)
  {
    hide Joined;
    if c == '\n' {
      JoinedSnoc(fs, "");
    } else {
      assert fs == fs[..|fs| - 1] + [fs[|fs| - 1]];
      JoinedGrows(fs[..|fs| - 1], fs[|fs| - 1], c);
    }
  }

  lemma {:induction false} FeedsAppend(text: string, line: string)
    requires NoFeed(line)
    ensures Feeds(text + "\n" + line) == Feeds(text) + [line]
    ensures Feeds(line) == [line]
  {
    if line == "" {
      assert text + "\n" + line == text + ['\n'];
      FeedsSnoc(text, '\n');
    } else {
      hide Feeds;
      var (front, c) := (line[..|line| - 1], line[|line| - 1]);
      FeedsAppend(text, front);
      assert line == front + [c];
      assert text + "\n" + line == (text + "\n" + front) + [c];
      FeedsSnoc(text + "\n" + front, c);
      FeedsSnoc(front, c);
    }
  }

  lemma {:induction false} JoinedFeeds(lines: seq<string>)
    requires lines != [] && AllNoFeed(lines)
    ensures Feeds(Joined(lines)) == lines
  {
    var (front, last) := (lines[..|lines| - 1], lines[|lines| - 1]);
    hide Feeds, Joined, NoFeed;
    JoinedLast(lines);
    assert lines == front + [last];
    if front != [] {
      JoinedFeeds(front);
      FeedsAppend(Joined(front), last);
    } else {
      FeedsAppend("", last);
    }
  }

  /** The pieces are those without a line feed that give the text back, joined with line feeds: no other pieces do. */
  lemma FeedsExactly(text: string, lines: seq<string>)
    requires lines != []
    ensures Feeds(text) == lines <==> Joined(lines) == text && forall i :: 0 <= i < |lines| ==> '\n' !in lines[i]
  {
    hide Feeds, Joined;
    FeedsJoin(text);
    if forall i :: 0 <= i < |lines| ==> NoFeed(lines[i]) {
      JoinedFeeds(lines);
    }
  }

  type Hit = (string, Finding)

  function RangeHits(path: string, lines: seq<string>, r: (nat, nat), find: Finder): seq<Hit> {
    var fs := find(Block(lines, r.0, r.1));
    seq(|fs|, i requires 0 <= i < |fs| => (path, Shifted(fs[i], r.0)))
  }

  function FlatMap<A, B>(xs: seq<A>, f: A -> seq<B>): seq<B> {
    if |xs| == 0 then [] else f(xs[0]) + FlatMap(xs[1..], f)
  }

  lemma {:induction false} FlatMapSnoc<A, B>(xs: seq<A>, x: A, f: A -> seq<B>)
    ensures FlatMap(xs + [x], f) == FlatMap(xs, f) + f(x)
  {
    if |xs| == 0 {
      assert FlatMap([x][1..], f) == [];
      assert xs + [x] == [x];
    } else {
      assert (xs + [x])[1..] == xs[1..] + [x];
      FlatMapSnoc(xs[1..], x, f);
    }
  }

  function HitsOfRange(path: string, lines: seq<string>, find: Finder): ((nat, nat)) -> seq<Hit> {
    (r: (nat, nat)) => RangeHits(path, lines, r, find)
  }

  function PathHits(path: string, lines: seq<string>, rs: seq<(nat, nat)>, find: Finder): seq<Hit> {
    FlatMap(rs, HitsOfRange(path, lines, find))
  }

  function GroupHits(g: PathGroup, blob: string -> Option<string>, find: Finder): seq<Hit> {
    if blob(g.0).None? then [] else PathHits(g.0, Feeds(blob(g.0).value), g.1, find)
  }

  function HitsOfGroup(blob: string -> Option<string>, find: Finder): PathGroup -> seq<Hit> {
    (g: PathGroup) => GroupHits(g, blob, find)
  }

  function AllHits(groups: seq<PathGroup>, blob: string -> Option<string>, find: Finder): seq<Hit> {
    FlatMap(groups, HitsOfGroup(blob, find))
  }

  method ScanRange(path: string, lines: seq<string>, r: (nat, nat), find: Finder) returns (hits: seq<Hit>)
    ensures hits == RangeHits(path, lines, r, find)
  {
    hits := [];
    var fs := find(Block(lines, r.0, r.1));
    for i := 0 to |fs|
      invariant hits == RangeHits(path, lines, r, find)[..i]
    {
      hits := hits + [(path, Shifted(fs[i], r.0))];
    }
  }

  method ScanPath(path: string, lines: seq<string>, rs: seq<(nat, nat)>, find: Finder) returns (hits: seq<Hit>)
    ensures hits == PathHits(path, lines, rs, find)
  {
    hits := [];
    for i := 0 to |rs|
      invariant hits == PathHits(path, lines, rs[..i], find)
    {
      hide RangeHits, FlatMap;
      assert rs[..i + 1] == rs[..i] + [rs[i]];
      FlatMapSnoc(rs[..i], rs[i], HitsOfRange(path, lines, find));
      var more := ScanRange(path, lines, rs[i], find);
      hits := hits + more;
    }
    assert rs[..|rs|] == rs;
  }

  /** Every staged range of every readable path, and nothing else, is scanned; files in order of first appearance. */
  method ScanStaged(diff: string, blob: string -> Option<string>, find: Finder) returns (hits: seq<Hit>)
    ensures hits == AllHits(Grouped(Parse(diff)), blob, find)
    ensures forall h :: h in hits <==> IsHit(Parse(diff), blob, find, h)
    ensures forall path, lines, g {:trigger Joined(lines), (path, g) in hits} ::
      lines != [] && (forall k :: 0 <= k < |lines| ==> '\n' !in lines[k]) && blob(path) == Some(Joined(lines)) ==>
        ((path, g) in hits <==> exists r :: r in Parse(diff) && r.0 == path && FoundIn(find, Block(lines, r.1.0, r.1.1), r.1.0, g))
  {
    hide Parse;
    var rs := ParseRanges(diff);
    var groups := Group(rs);
    hits := [];
    for i := 0 to |groups|
      invariant hits == AllHits(groups[..i], blob, find)
    {
      hide PathHits, Feeds, FlatMap;
      assert groups[..i + 1] == groups[..i] + [groups[i]];
      FlatMapSnoc(groups[..i], groups[i], HitsOfGroup(blob, find));
      var (path, runs) := groups[i];
      var text := blob(path);
      if text.None? {
        continue;
      }
      var more := ScanPath(path, Feeds(text.value), runs, find);
      hits := hits + more;
    }
    assert groups[..|groups|] == groups;
    forall h ensures h in hits <==> IsHit(rs, blob, find, h) {
      HitsAreExact(rs, blob, find, h);
    }
    ghost var found := hits;
    forall path, lines, g | lines != [] && (forall k :: 0 <= k < |lines| ==> '\n' !in lines[k]) && blob(path) == Some(Joined(lines))
      ensures (path, g) in found <==> exists r :: r in rs && r.0 == path && FoundIn(find, Block(lines, r.1.0, r.1.1), r.1.0, g) {
      HitMeans(rs, blob, find, path, lines, g);
    }
  }

  /** h is a finding of the block of some range, moved to its line in the file. */
  predicate IsHit(rs: seq<Range>, blob: string -> Option<string>, find: Finder, h: Hit) {
    exists i :: 0 <= i < |rs| && RangeHas(rs[i], blob, find, h)
  }

  predicate RangeHas(r: Range, blob: string -> Option<string>, find: Finder, h: Hit) {
    blob(r.0).Some? && h in RangeHits(r.0, Feeds(blob(r.0).value), r.1, find)
  }

  lemma PathGrows(path: string, lines: seq<string>, rs: seq<(nat, nat)>, r: (nat, nat), find: Finder)
    ensures PathHits(path, lines, rs + [r], find) == PathHits(path, lines, rs, find) + RangeHits(path, lines, r, find)
    ensures PathHits(path, lines, [], find) == []
  {
    FlatMapSnoc(rs, r, HitsOfRange(path, lines, find));
  }

  lemma GroupGrows(path: string, rs: seq<(nat, nat)>, r: (nat, nat), blob: string -> Option<string>, find: Finder, h: Hit)
    ensures h in GroupHits((path, rs + [r]), blob, find)
            <==> h in GroupHits((path, rs), blob, find) || RangeHas((path, r), blob, find, h)
    ensures GroupHits((path, []), blob, find) == []
  {
    hide PathHits, RangeHits, Feeds;
    if blob(path).Some? {
      PathGrows(path, Feeds(blob(path).value), rs, r, find);
    }
  }

  lemma AllHitsStep(groups: seq<PathGroup>, blob: string -> Option<string>, find: Finder)
    requires groups != []
    ensures AllHits(groups, blob, find) == GroupHits(groups[0], blob, find) + AllHits(groups[1..], blob, find)
    ensures AllHits([], blob, find) == []
  {
  }

  lemma {:induction false} GrownHits(groups: seq<PathGroup>, path: string, r: (nat, nat), blob: string -> Option<string>, find: Finder, h: Hit)
    ensures h in AllHits(Grown(groups, path, r), blob, find)
            <==> h in AllHits(groups, blob, find) || RangeHas((path, r), blob, find, h)
  {
    hide AllHits, GroupHits, RangeHas;
    var grown := Grown(groups, path, r);
    AllHitsStep(grown, blob, find);
    if groups == [] {
      assert grown[0] == (path, [] + [r]) && grown[1..] == [];
      GroupGrows(path, [], r, blob, find, h);
    } else {
      AllHitsStep(groups, blob, find);
      if groups[0].0 == path {
        assert grown[0] == (path, groups[0].1 + [r]) && grown[1..] == groups[1..];
        GroupGrows(path, groups[0].1, r, blob, find, h);
      } else {
        assert grown[0] == groups[0] && grown[1..] == Grown(groups[1..], path, r);
        GrownHits(groups[1..], path, r, blob, find, h);
      }
    }
  }

  lemma {:induction false} HitsAreExact(rs: seq<Range>, blob: string -> Option<string>, find: Finder, h: Hit)
    ensures h in AllHits(Grouped(rs), blob, find) <==> IsHit(rs, blob, find, h)
  {
    hide AllHits, RangeHas, Grown;
    if rs != [] {
      var (front, last) := (rs[..|rs| - 1], rs[|rs| - 1]);
      assert Grouped(rs) == Grown(Grouped(front), last.0, last.1);
      HitsAreExact(front, blob, find, h);
      GrownHits(Grouped(front), last.0, last.1, blob, find, h);
      assert IsHit(rs, blob, find, h) <==> IsHit(front, blob, find, h) || RangeHas(last, blob, find, h);
    } else {
      NoHits(blob, find);
    }
  }

  lemma NoHits(blob: string -> Option<string>, find: Finder)
    ensures AllHits(Grouped([]), blob, find) == []
  {
  }

  // ---------------------------------------------------------------- from the diff to the findings

  /** g is a finding of the block, moved to where the block starts. */
  predicate FoundIn(find: Finder, block: seq<string>, start: nat, g: Finding) {
    exists m :: 0 <= m < |find(block)| && Shifted(find(block)[m], start) == g
  }

  lemma RangeHasFound(r: Range, blob: string -> Option<string>, find: Finder, path: string, g: Finding)
    requires blob(path).Some?
    ensures RangeHas(r, blob, find, (path, g))
            <==> r.0 == path && FoundIn(find, Block(Feeds(blob(path).value), r.1.0, r.1.1), r.1.0, g)
  {
    hide Feeds, Block;
    if RangeHas(r, blob, find, (path, g)) {
      var hits := RangeHits(r.0, Feeds(blob(r.0).value), r.1, find);
      var m :| 0 <= m < |hits| && hits[m] == (path, g);
    }
    if r.0 == path && FoundIn(find, Block(Feeds(blob(path).value), r.1.0, r.1.1), r.1.0, g) {
      var block := Block(Feeds(blob(path).value), r.1.0, r.1.1);
      var m :| 0 <= m < |find(block)| && Shifted(find(block)[m], r.1.0) == g;
      assert RangeHits(path, Feeds(blob(path).value), r.1, find)[m] == (path, g);
    }
  }

  /** A hit in a text is a finding in one of its blocks, said of the text's lines. */
  lemma HitMeans(rs: seq<Range>, blob: string -> Option<string>, find: Finder, path: string, lines: seq<string>, g: Finding)
    requires lines != [] && (forall k :: 0 <= k < |lines| ==> '\n' !in lines[k]) && blob(path) == Some(Joined(lines))
    ensures IsHit(rs, blob, find, (path, g))
            <==> exists r :: r in rs && r.0 == path && FoundIn(find, Block(lines, r.1.0, r.1.1), r.1.0, g)
  {
    hide RangeHas, FoundIn, Block, Feeds, Joined;
    FeedsExactly(Joined(lines), lines);
    forall r ensures RangeHas(r, blob, find, (path, g)) <==> r.0 == path && FoundIn(find, Block(lines, r.1.0, r.1.1), r.1.0, g) {
      RangeHasFound(r, blob, find, path, g);
    }
  }

  /** The hits of one path are the findings of its ranges. */
  lemma HitsOfPath(rs: seq<Range>, blob: string -> Option<string>, find: Finder, path: string, g: Finding)
    requires blob(path).Some?
    ensures var (own, lines) := (OfKey(rs, path), Feeds(blob(path).value));
            IsHit(rs, blob, find, (path, g)) <==> exists k :: 0 <= k < |own| && FoundIn(find, Block(lines, own[k].0, own[k].1), own[k].0, g)
  {
    hide RangeHas, FoundIn, Block, Feeds, OfKey;
    var (own, lines) := (OfKey(rs, path), Feeds(blob(path).value));
    if IsHit(rs, blob, find, (path, g)) {
      var i :| 0 <= i < |rs| && RangeHas(rs[i], blob, find, (path, g));
      RangeHasFound(rs[i], blob, find, path, g);
      OfKeyMember(rs, path, rs[i].1);
      assert rs[i] == (path, rs[i].1);
      var k :| 0 <= k < |own| && own[k] == rs[i].1;
    }
    if k :| 0 <= k < |own| && FoundIn(find, Block(lines, own[k].0, own[k].1), own[k].0, g) {
      OfKeyMember(rs, path, own[k]);
      var i :| 0 <= i < |rs| && rs[i] == (path, own[k]);
      RangeHasFound(rs[i], blob, find, path, g);
    }
  }

  /**
   From a printed diff and the staged text to the findings: what is reported for a file is exactly what
   the finder finds in its added runs, moved to where each run starts.  The text is the new lines with a
   line feed between each two; a text that ends with a line feed has an empty last line.
   */
  lemma ScanFindsAdded(d: seq<FileDiff>, i: nat, path: string, cs: seq<Change<string>>, tail: seq<string>,
                       blob: string -> Option<string>, find: Finder, g: Finding)
    requires Printable(d) && CleanDiff(d)
    requires i < |d| && path != "" && d[i].target == Into(path) && AllAgree(d[i].hunks, HunksOf(cs, 0, 0))
    requires forall j :: 0 <= j < |d| && j != i ==> d[j].target != Into(path)
    requires blob(path) == Some(Joined(NewText(cs, tail)))
    requires forall k :: 0 <= k < |NewText(cs, tail)| ==> '\n' !in NewText(cs, tail)[k]
    ensures |RunsOf(cs, 0)| == |AddedRuns(cs)|
    ensures IsHit(Parse(PrintDiff(d)), blob, find, (path, g))
            <==> exists k :: 0 <= k < |AddedRuns(cs)| && FoundIn(find, AddedRuns(cs)[k], RunsOf(cs, 0)[k].0, g)
  {
    hide Printable, CleanDiff, Parse, PrintDiff, HunksOf, RunsOf, Concat, NewText, AddedLines, OfKey, Block, FoundIn, IsHit, Feeds,
      AddedRuns, Joined;
    DiffScansAdded(d, i, path, cs, tail);
    var (lines, rs) := (NewText(cs, tail), RunsOf(cs, 0));
    assert lines == [] + lines;
    RunsCutAdded([], cs, tail, lines);
    assert forall k :: 0 <= k < |rs| ==> Blocks(lines, rs)[k] == Block(lines, rs[k].0, rs[k].1);
    HitsOfPath(Parse(PrintDiff(d)), blob, find, path, g);
    if lines == [] {
      NothingAdded(cs, tail, 0);
    } else {
      FeedsExactly(Joined(lines), lines);
    }
  }

  lemma {:induction false} NothingAdded<T>(cs: seq<Change<T>>, tail: seq<T>, now: nat)
    requires NewText(cs, tail) == []
    ensures RunsOf(cs, now) == []
  {
    if cs != [] {
      NothingAdded(cs[1..], tail, now);
    }
  }

  /** And it is reported at the line of the new text that holds it. */
  lemma FoundAtItsLine(cs: seq<Change<string>>, tail: seq<string>, k: nat, f: Finding)
    requires k < |RunsOf(cs, 0)| && k < |AddedRuns(cs)| && 1 <= f.line <= |AddedRuns(cs)[k]|
    ensures var (lines, g) := (NewText(cs, tail), Shifted(f, RunsOf(cs, 0)[k].0));
            1 <= g.line <= |lines| && lines[g.line - 1] == AddedRuns(cs)[k][f.line - 1]
  {
    hide RunsOf, NewText, AddedRuns, Block;
    var (lines, rs) := (NewText(cs, tail), RunsOf(cs, 0));
    assert lines == [] + lines;
    RunsCutAdded([], cs, tail, lines);
    RunsBounded(cs, tail, 0);
    assert Blocks(lines, rs)[k] == Block(lines, rs[k].0, rs[k].1);
    BlockLength(lines, rs[k].0, rs[k].1);
    FindingMapsBack(lines, rs[k].0, rs[k].1, f);
  }

  lemma BlockLength<T>(lines: seq<T>, start: nat, count: nat)
    requires 1 <= start && start + count - 1 <= |lines|
    ensures |Block(lines, start, count)| == count
  {
  }
}
