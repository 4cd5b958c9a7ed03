/**
 Which content lines of a staged diff can mislead the parser.  A line is harmless when every diff whose
 other lines are whole is parsed to exactly what it adds; proved: a line is harmless if and only if no
 piece that splitlines cuts off it begins a file or counts as a hunk.  A piece that begins a file makes
 the parser lose later ranges, so that added lines go unscanned.
 */
module StagedLines {
  import opened Wrappers
  import opened DiffText
  import opened StagedDiff

  // ---------------------------------------------------------------- ranges that are never reported

  /** Away from file p and never sent back to it, the parser reports nothing for p. */
  lemma {:induction false} NeverBack(st: State, rs: seq<Role>, p: string, r: (nat, nat))
    requires p != "" && st.file != p && (p, r) !in st.ranges && TargetLine(p) !in rs
    ensures (p, r) !in Run(st, rs).ranges
    decreases |rs|
  {
    if rs != [] {
      assert rs[0] in rs;
      NeverBack(Step(st, rs[0]), rs[1..], p, r);
    }
  }

  predicate StartsAt(rs: seq<Role>, n: nat) {
    exists i :: 0 <= i < |rs| && rs[i].HunkLine? && rs[i].start == n
  }

  /** No range begins at a line that no hunk header names. */
  lemma {:induction false} NotYet(st: State, rs: seq<Role>, p: string, r: (nat, nat))
    requires (p, r) !in st.ranges && !StartsAt(rs, r.0)
    ensures (p, r) !in Run(st, rs).ranges
    decreases |rs|
  {
    if rs != [] {
      assert forall i :: 0 <= i < |rs| - 1 ==> rs[1..][i] == rs[i + 1];
      NotYet(Step(st, rs[0]), rs[1..], p, r);
    }
  }

  // ---------------------------------------------------------------- a path and a line the roles do not name

  function LongestTarget(rs: seq<Role>): (k: nat)
    ensures forall i :: 0 <= i < |rs| && rs[i].TargetLine? ==> |rs[i].file| <= k
  {
    if rs == [] then 0
    else
      var k := LongestTarget(rs[1..]);
      assert forall i :: 0 < i < |rs| ==> rs[i] == rs[1..][i - 1];
      if rs[0].TargetLine? && |rs[0].file| > k then |rs[0].file| else k
  }

  function HighestStart(rs: seq<Role>): (n: nat)
    ensures forall i :: 0 <= i < |rs| && rs[i].HunkLine? ==> rs[i].start <= n
  {
    if rs == [] then 0
    else
      var n := HighestStart(rs[1..]);
      assert forall i :: 0 < i < |rs| ==> rs[i] == rs[1..][i - 1];
      if rs[0].HunkLine? && rs[0].start > n then rs[0].start else n
  }

  function Letters(k: nat): string {
    seq(k, _ => 'a')
  }

  lemma LettersPlain(k: nat)
    requires k > 0
    ensures PlainPath(Letters(k)) && ' ' !in Letters(k)
  {
    var p := Letters(k);
    FirstBreakIs(p, k);
    assert p[k - 1] == 'a';
  }

  // ---------------------------------------------------------------- hunks of the counterexamples

  /** A hunk that adds one line at n. */
  function Later(n: nat, line: string): Hunk {
    Hunk(0, n, "", [], [line], false, false)
  }

  function OneFile(path: string, hs: seq<Hunk>): seq<FileDiff> {
    [FileDiff("", [], Into(path), hs)]
  }

  lemma PlainHeaderRoles(h: Hunk)
    requires h.section == ""
    ensures Whole(HunkHeader(h)) && LineRoles(HunkHeader(h)) == [HunkLine(h.start, |h.added|)]
  {
    hide PrintHunkHeader, IsBreak, RoleOf;
    BareHeaderWhole(h.oldStart, |h.removed|, h.start, |h.added|);
    FirstBreakIs(HunkHeader(h), |HunkHeader(h)|);
    HeaderHead(h);
    assert HunkHeader(h)[..|HunkHeader(h)|] == HunkHeader(h);
    WholeRole(HunkHeader(h));
  }

  lemma LaterLines(n: nat, line: string)
    ensures HunkLines(Later(n, line)) == [HunkHeader(Later(n, line)), "+" + line]
  {
    hide HunkHeader;
    var removed: seq<string> := [];
    var added: seq<string> := [line];
    assert added[1..] == [] && Prefixed('+', added[1..]) == [];
    assert Prefixed('+', added) == ["+" + line];
    assert Prefixed('-', removed) == [];
  }

  lemma LaterRoles(n: nat, line: string)
    ensures AllRoles(HunkLines(Later(n, line))) == [HunkLine(n, 1)] + LineRoles("+" + line)
  {
    hide LineRoles, HunkHeader, HunkLines;
    LaterLines(n, line);
    PlainHeaderRoles(Later(n, line));
    TwoLineRoles(HunkHeader(Later(n, line)), "+" + line);
  }

  lemma TwoLineRoles(a: string, b: string)
    ensures AllRoles([a, b]) == LineRoles(a) + LineRoles(b)
  {
    hide LineRoles;
    var ab: seq<string> := [a, b];
    var rest: seq<string> := [b];
    assert ab[1..] == rest && rest[1..] == [];
    assert AllRoles(rest[1..]) == [];
  }

  lemma OneFileLines(path: string, hs: seq<Hunk>)
    ensures |TargetLines(Into(path))| == 1
    ensures DiffLines(OneFile(path, hs)) == ["diff --git " + "", TargetLines(Into(path))[0]] + HunksLines(hs)
  {
    hide HunksLines;
    var d := OneFile(path, hs);
    assert d[1..] == [] && DiffLines(d[1..]) == [];
    assert DiffLines(d) == FileLines(d[0]) + [];
  }

  /** All roles of a diff of one file. */
  lemma OneFileRoles(path: string, hs: seq<Hunk>)
    requires PlainPath(path)
    ensures Parse(PrintDiff(OneFile(path, hs))) == Run(START, [FileStart, TargetLine(path)] + AllRoles(HunksLines(hs))).ranges
  {
    OneFileLines(path, hs);
    assert Whole("");
    var d := OneFile(path, hs);
    var (first, target) := ("diff --git " + "", TargetLines(Into(path))[0]);
    assert PrintDiff(d) == Text(DiffLines(d));
    assert Parse(PrintDiff(d)) == Run(START, Roles(SplitLines(PrintDiff(d)))).ranges;
    hide *;
    FileStartRole("");
    TargetLineRole(path);
    SplitText(DiffLines(d));
    AllRolesJoin([first, target], HunksLines(hs));
    TwoLineRoles(first, target);
    assert [FileStart] + [TargetLine(path)] == [FileStart, TargetLine(path)];
  }

  lemma TwoHunkRoles(a: Hunk, b: Hunk)
    ensures AllRoles(HunksLines([a, b])) == AllRoles(HunkLines(a)) + AllRoles(HunkLines(b))
  {
    hide HunkLines, AllRoles;
    var ab: seq<Hunk> := [a, b];
    var rest: seq<Hunk> := [b];
    assert ab[1..] == rest && rest[1..] == [];
    assert HunksLines(rest[1..]) == [];
    assert HunksLines(rest) == HunkLines(b) + [];
    assert HunksLines(ab) == HunkLines(a) + HunkLines(b);
    AllRolesJoin(HunkLines(a), HunkLines(b));
  }

  lemma TwoHunkRanges(path: string, a: Hunk, b: Hunk)
    ensures HunkRanges(path, [a, b]) == HunkRange(path, a) + HunkRange(path, b)
    ensures AddedRanges(OneFile(path, [a, b])) == HunkRanges(path, [a, b])
  {
    hide HunkRange;
    var ab: seq<Hunk> := [a, b];
    var rest: seq<Hunk> := [b];
    assert ab[1..] == rest && rest[1..] == [];
    assert HunkRanges(path, rest[1..]) == [];
    var d := OneFile(path, [a, b]);
    assert d[1..] == [] && AddedRanges(d[1..]) == [];
  }

  // ---------------------------------------------------------------- a piece that begins a file

  lemma FrontStarts(rs: seq<Role>, path: string, n: nat)
    requires n > HighestStart(rs)
    ensures !StartsAt([FileStart, TargetLine(path)] + rs, n)
  {
    hide HighestStart;
    var front := [FileStart, TargetLine(path)] + rs;
    assert forall k :: 2 <= k < |front| ==> front[k] == rs[k - 2];
  }

  lemma {:induction false} HighestPrefix(rs: seq<Role>, i: nat)
    requires i <= |rs|
    ensures HighestStart(rs[..i]) <= HighestStart(rs)
  {
    if i > 0 {
      assert rs[..i][1..] == rs[1..][..i - 1];
      HighestPrefix(rs[1..], i - 1);
    }
  }

  lemma BackTargets(rs: seq<Role>, i: nat, tail: seq<Role>, path: string)
    requires i <= |rs| && |path| > LongestTarget(rs) && TargetLine(path) !in tail
    ensures TargetLine(path) !in rs[i..] + tail
  {
    hide LongestTarget;
    assert forall k :: i <= k < |rs| ==> rs[k] != TargetLine(path);
  }

  lemma LostInRoles(rs: seq<Role>, tail: seq<Role>, path: string, n: nat)
    requires FileStart in rs && |path| > LongestTarget(rs) && n > HighestStart(rs) && TargetLine(path) !in tail
    ensures (path, (n, 1)) !in Run(START, [FileStart, TargetLine(path)] + (rs + tail)).ranges
  {
    var i :| 0 <= i < |rs| && rs[i] == FileStart;
    HighestPrefix(rs, i);
    FrontStarts(rs[..i], path, n);
    BackTargets(rs, i + 1, tail, path);
    var (front, back) := ([FileStart, TargetLine(path)] + rs[..i], rs[i + 1..] + tail);
    assert [FileStart, TargetLine(path)] + (rs + tail) == front + ([FileStart] + back);
    var st := Run(START, front);
    assert Run(st, [FileStart] + back) == Run(Step(st, FileStart), back) by {
      assert ([FileStart] + back)[1..] == back;
    }
    assert Step(st, FileStart) == State("", false, st.ranges);
    hide *;
    NotYet(START, front, path, (n, 1));
    RunJoin(START, front, [FileStart] + back);
    NeverBack(Step(st, FileStart), back, path, (n, 1));
  }

  /**
   A hunk with a piece that begins a file can make the parser lose what a later hunk adds: for a path
   and a line its own pieces do not name, the later range is not reported.
   */
  lemma HunkCanLose(h: Hunk) returns (path: string, n: nat)
    requires FileStart in AllRoles(HunkLines(h))
    ensures PlainPath(path) && n > 0
    ensures (path, (n, 1)) !in Parse(PrintDiff(OneFile(path, [h, Later(n, "x")])))
    ensures (path, (n, 1)) in AddedRanges(OneFile(path, [h, Later(n, "x")]))
  {
    var rs := AllRoles(HunkLines(h));
    path, n := Letters(LongestTarget(rs) + 1), HighestStart(rs) + 1;
    LettersPlain(LongestTarget(rs) + 1);
    var later := Later(n, "x");
    assert |path| > 0 && HunkRange(path, later) == [(path, (n, 1))];
    LaterTail(n, path);
    hide *;
    OneFileRoles(path, [h, later]);
    TwoHunkRoles(h, later);
    TwoHunkRanges(path, h, later);
    LostInRoles(rs, AllRoles(HunkLines(later)), path, n);
  }

  lemma LaterTail(n: nat, path: string)
    ensures TargetLine(path) !in AllRoles(HunkLines(Later(n, "x")))
  {
    hide HunkLines, HunkHeader, RoleOf;
    LaterRoles(n, "x");
    PlainX();
  }

  lemma PlainX()
    ensures Whole("+x") && Whole("-x") && LineRoles("+" + "x") == [Other]
  {
    var line := "+x";
    assert line[0] == '+' && line[1] == 'x';
    FirstBreakIs(line, 2);
    FirstBreakIs("-x", 2);
    assert "diff --git "[0] == 'd' && "+++ "[1] == '+' && "@@ -"[0] == '@';
    assert RoleOf(line) == Other;
    assert "+" + "x" == line;
    hide RoleOf;
    WholeRole(line);
  }

  // ---------------------------------------------------------------- harmless lines

  predicate AllWholeBut(lines: seq<string>, line: string) {
    lines == [] || ((Whole(lines[0]) || lines[0] == line) && AllWholeBut(lines[1..], line))
  }

  /** Every line of the diff is whole, except where it is this one. */
  predicate OthersWhole(d: seq<FileDiff>, line: string) {
    forall f :: f in d ==> WellPrinted(f) && forall h :: h in f.hunks ==> AllWholeBut(HunkLines(h), line)
  }

  /** Wherever the line stands among whole lines, the diff is parsed to what it adds. */
  ghost predicate Harmless(line: string) {
    forall d :: OthersWhole(d, line) ==> Parse(PrintDiff(d)) == AddedRanges(d)
  }

  /** A hunk that adds or removes the line. */
  function Hole(line: string): Hunk
    requires line != ""
  {
    if line[0] == '+' then Later(1, line[1..]) else Hunk(1, 1, "", [line[1..]], ["x"], false, false)
  }

  lemma HoleLines(line: string)
    requires line != "" && (line[0] == '+' || line[0] == '-')
    ensures HunkLines(Hole(line)) == [HunkHeader(Hole(line)), line] + if line[0] == '+' then [] else ["+x"]
  {
    hide HunkHeader;
    assert [line[0]] + line[1..] == line;
    if line[0] == '+' {
      LaterLines(1, line[1..]);
      assert "+" + line[1..] == line;
    } else {
      var removed: seq<string> := [line[1..]];
      var added: seq<string> := ["x"];
      assert removed[1..] == [] && Prefixed('-', removed[1..]) == [];
      assert Prefixed('-', removed) == [line];
      assert added[1..] == [] && Prefixed('+', added[1..]) == [];
      assert ['+'] + "x" == "+x";
      assert Prefixed('+', added) == ["+x"];
    }
  }

  lemma {:induction false} ButQuietAndClean(lines: seq<string>, line: string)
    requires AllWholeBut(lines, line)
    ensures Quiet(line) ==> AllQuiet(lines)
    ensures Quiet(line) && Clean(line) ==> AllClean(lines)
  {
    if lines != [] {
      ButQuietAndClean(lines[1..], line);
      if lines[0] != line {
        PlainFragments(lines[0]);
        assert Tails(lines[0]) == [];
      }
    }
  }

  lemma HarmlessEnough(d: seq<FileDiff>, line: string)
    requires Quiet(line) && Clean(line) && OthersWhole(d, line)
    ensures Parse(PrintDiff(d)) == AddedRanges(d)
  {
    hide Quiet, Clean, WellPrinted, HunkLines, AllWholeBut, AllQuiet, AllClean, Parse, PrintDiff, AddedRanges, CleanDiff;
    forall f, h | f in d && h in f.hunks ensures AllQuiet(HunkLines(h)) && AllClean(HunkLines(h)) {
      ButQuietAndClean(HunkLines(h), line);
    }
    EveryHunkClean(d);
    ParseInvertsPrint(d);
  }

  lemma {:induction false} EveryHunkClean(d: seq<FileDiff>)
    requires forall f, h :: f in d && h in f.hunks ==> AllClean(HunkLines(h))
    ensures CleanDiff(d)
  {
    if d != [] {
      hide HunkLines, AllClean, CleanHunks;
      assert forall h :: h in d[0].hunks ==> AllClean(HunkLines(h));
      EveryHunkOfFile(d[0].hunks);
      EveryHunkClean(d[1..]);
    }
  }

  lemma {:induction false} EveryHunkOfFile(hs: seq<Hunk>)
    requires forall h :: h in hs ==> AllClean(HunkLines(h))
    ensures CleanHunks(hs)
  {
    if hs != [] {
      hide HunkLines, AllClean;
      EveryHunkOfFile(hs[1..]);
    }
  }

  lemma HoleSection(line: string)
    requires line != ""
    ensures Hole(line).section == ""
  {
  }

  lemma HoleWhole(line: string)
    requires line != "" && (line[0] == '+' || line[0] == '-')
    ensures AllWholeBut(HunkLines(Hole(line)), line)
  {
    hide *;
    var header := HunkHeader(Hole(line));
    HoleLines(line);
    HoleSection(line);
    PlainX();
    PlainHeaderRoles(Hole(line));
    if line[0] == '+' {
      ButTwo(header, line, line);
      assert [header, line] + [] == [header, line];
    } else {
      WholeButThree(header, line, "+x");
      assert [header, line] + ["+x"] == [header, line, "+x"];
    }
  }

  lemma LaterWhole(n: nat, line: string)
    ensures AllWholeBut(HunkLines(Later(n, "x")), line)
  {
    LaterLines(n, "x");
    PlainX();
    PlainHeaderRoles(Later(n, "x"));
    assert "+" + "x" == "+x";
    hide *;
    ButTwo(HunkHeader(Later(n, "x")), "+x", line);
  }

  lemma HoleOthersWhole(line: string, path: string, n: nat)
    requires line != "" && (line[0] == '+' || line[0] == '-') && PlainPath(path)
    ensures OthersWhole(OneFile(path, [Hole(line), Later(n, "x")]), line)
    ensures OthersWhole(OneFile(path, [Hole(line)]), line)
  {
    HoleWhole(line);
    LaterWhole(n, line);
    hide HunkLines, Hole, Later, AllWholeBut, PlainPath, OthersWhole;
    OneFileOthersWhole(path, [Hole(line), Later(n, "x")], line);
    OneFileOthersWhole(path, [Hole(line)], line);
  }

  lemma OneFileOthersWhole(path: string, hs: seq<Hunk>, line: string)
    requires PlainPath(path) && forall h :: h in hs ==> AllWholeBut(HunkLines(h), line)
    ensures OthersWhole(OneFile(path, hs), line)
  {
    var f := FileDiff("", [], Into(path), hs);
    assert Whole("");
    assert WellPrinted(f);
    hide WellPrinted, HunkLines, AllWholeBut;
  }

  lemma ButTwo(a: string, b: string, line: string)
    requires Whole(a) && (Whole(b) || b == line)
    ensures AllWholeBut([a, b], line)
  {
    hide Whole;
    var ab: seq<string> := [a, b];
    var rest: seq<string> := [b];
    assert ab[1..] == rest && rest[1..] == [] && AllWholeBut(rest[1..], line);
  }

  lemma WholeButThree(a: string, line: string, c: string)
    requires Whole(a) && Whole(c)
    ensures AllWholeBut([a, line, c], line)
  {
    hide Whole;
    ButTwo(c, c, line);
    var abc: seq<string> := [a, line, c];
    var bc: seq<string> := [line, c];
    var rest: seq<string> := [c];
    assert abc[1..] == bc && bc[1..] == rest && rest[1..] == [] && AllWholeBut(rest[1..], line);
  }

  lemma HoleBegins(line: string)
    requires line != "" && (line[0] == '+' || line[0] == '-') && !Quiet(line)
    ensures FileStart in AllRoles(HunkLines(Hole(line)))
  {
    HoleLines(line);
    HeadAndTails(line);
    var rest: seq<string> := if line[0] == '+' then [] else ["+x"];
    hide HunkHeader, HunkLines, LineRoles, RoleOf, FirstBreak, Tails, Hole;
    AllRolesJoin([HunkHeader(Hole(line)), line], rest);
    TwoLineRoles(HunkHeader(Hole(line)), line);
    assert FileStart in LineRoles(line);
  }

  /**
   Exactly the harmless lines: an added or removed line does no harm in any diff whose other lines are
   whole if and only if no piece that splitlines cuts off it begins a file or counts as a hunk.
   */
  lemma HarmlessLines(line: string)
    requires line != "" && (line[0] == '+' || line[0] == '-')
    ensures Harmless(line) <==> Quiet(line) && Clean(line)
  {
    hide Quiet, Clean, OthersWhole, Parse, PrintDiff, AddedRanges, HunkLines;
    if Quiet(line) && Clean(line) {
      forall d | OthersWhole(d, line) ensures Parse(PrintDiff(d)) == AddedRanges(d) {
        HarmlessEnough(d, line);
      }
    } else if !Quiet(line) {
      HoleBegins(line);
      var path, n := HunkCanLose(Hole(line));
      HoleOthersWhole(line, path, n);
    } else {
      LettersPlain(1);
      HoleOthersWhole(line, Letters(1), 1);
      HoleUnclean(line, Letters(1));
    }
  }

  lemma HoleUnclean(line: string, path: string)
    requires line != "" && (line[0] == '+' || line[0] == '-') && PlainPath(path) && Quiet(line) && !Clean(line)
    ensures Parse(PrintDiff(OneFile(path, [Hole(line)]))) != AddedRanges(OneFile(path, [Hole(line)]))
  {
    var d := OneFile(path, [Hole(line)]);
    HoleOthersWhole(line, path, 1);
    HoleLines(line);
    assert d[0].hunks[0] == Hole(line);
    ButQuietAndClean(HunkLines(Hole(line)), line);
    UncleanSecond(HunkLines(Hole(line)));
    hide HunkLines, AllQuiet, AllClean, WellPrinted, Parse, PrintDiff, AddedRanges, Hole, AllWholeBut, Quiet, Clean;
    assert d[0] in d;
    assert !CleanHunks(d[0].hunks);
    ParseInvertsPrint(d);
  }

  lemma UncleanSecond(lines: seq<string>)
    requires |lines| > 1 && !Clean(lines[1])
    ensures !AllClean(lines)
  {
    hide Clean;
    assert lines[1..][0] == lines[1];
  }

  /** A carriage return at the end of a line does no harm. */
  lemma CarriageReturnIsHarmless(line: string)
    requires Whole(line)
    ensures Quiet(line + "\r") && Clean(line + "\r")
  {
    var (t, k) := (line + "\r" + "\n", |line|);
    assert t[k] == '\r' && t[k + 1] == '\n' && t[k + 2..] == "";
    assert forall j :: 0 <= j < k ==> t[j] == line[j];
    FirstBreakIs(t, k);
    SplitStep(t, k);
    assert Tails(line + "\r") == [];
  }

  // ---------------------------------------------------------------- two wrong parses

  lemma FormFeedCuts(line: string, k: nat)
    requires k < |line| && line[k] == '\U{0C}' && forall j :: 0 <= j < k ==> !IsBreak(line[j])
    ensures Fragments(line) == [line[..k]] + Fragments(line[k + 1..])
  {
    hide IsBreak, FirstBreak, BreakWidth, SplitLines;
    FormFeedBreaks();
    FirstBreakIs(line, k);
    FirstBreakJoin(line, "");
    var t := line + "\n";
    assert t + "" == t;
    SplitStep(t, k);
    FormFeedWidth(t, k);
    CutAfter(line, "\n", k);
  }

  lemma FormFeedBreaks()
    ensures IsBreak('\U{0C}')
  {
  }

  lemma FormFeedWidth(t: string, k: nat)
    requires k < |t| && t[k] == '\U{0C}'
    ensures BreakWidth(t, k) == 1
  {
  }

  lemma CutAfter<T>(s: seq<T>, t: seq<T>, k: nat)
    requires k < |s|
    ensures (s + t)[..k] == s[..k] && (s + t)[k + 1..] == s[k + 1..] + t && (s + t)[k] == s[k]
  {
  }

  /** The roles of a line of two pieces. */
  lemma TwoPieces(a: string, b: string)
    requires Whole(a) && Whole(b)
    ensures LineRoles(a + "\U{0C}" + b) == [RoleOf(a), RoleOf(b)]
  {
    var line := a + "\U{0C}" + b;
    assert line[|a|] == '\U{0C}' && line[..|a|] == a && line[|a| + 1..] == b;
    assert forall j :: 0 <= j < |a| ==> line[j] == a[j];
    FormFeedCuts(line, |a|);
    PlainFragments(b);
    hide RoleOf;
    var bs: seq<string> := [b];
    assert bs[1..] == [] && Roles(bs) == [RoleOf(b)];
    assert Fragments(line) == [a] + bs;
    assert ([a] + bs)[1..] == bs;
  }

  lemma PlainPlus()
    ensures Whole("+") && RoleOf("+") == Other
  {
    FirstBreakIs("+", 1);
    assert "+"[0] == '+' && "diff --git "[0] == 'd' && "@@ -"[0] == '@' && |"+++ "| == 4;
  }

  /** An added line of a form feed and a hunk header: a range is reported that the diff does not add. */
  lemma FormFeedIsRead(path: string, start: nat, count: nat)
    requires PlainPath(path) && count > 0
    ensures var d := OneFile(path, [Later(1, "\U{0C}" + PrintHunkHeader(0, 0, start, count, ""))]);
            && AddedRanges(d) == [(path, (1, 1))]
            && Parse(PrintDiff(d)) == [(path, (1, 1)), (path, (start, count))]
  {
    var bare := PrintHunkHeader(0, 0, start, count, "");
    var h := Later(1, "\U{0C}" + bare);
    assert path != "" && HunkRange(path, h) == [(path, (1, 1))];
    assert "+" + ("\U{0C}" + bare) == "+" + "\U{0C}" + bare;
    hide *;
    BareRole(start, count);
    PlainPlus();
    TwoPieces("+", bare);
    LaterRoles(1, "\U{0C}" + bare);
    OneHunk(path, h);
    OneFileRoles(path, [h]);
    RunFour(path, start, count);
  }

  lemma BareRole(start: nat, count: nat)
    ensures var bare := PrintHunkHeader(0, 0, start, count, ""); Whole(bare) && RoleOf(bare) == HunkLine(start, count)
  {
    var bare := PrintHunkHeader(0, 0, start, count, "");
    BareHeaderWhole(0, 0, start, count);
    FirstBreakIs(bare, |bare|);
    HeaderReadsBack(0, 0, start, count, "");
    HunkIsNoOther(bare);
    hide PrintHunkHeader, MatchHunk, IsBreak, RoleOf;
  }

  lemma OneHunk(path: string, h: Hunk)
    ensures AllRoles(HunksLines([h])) == AllRoles(HunkLines(h))
    ensures AddedRanges(OneFile(path, [h])) == HunkRange(path, h)
  {
    hide HunkLines, AllRoles, HunkRange;
    var hs: seq<Hunk> := [h];
    assert hs[1..] == [] && HunksLines(hs[1..]) == [] && HunkRanges(path, hs[1..]) == [];
    assert HunksLines(hs) == HunkLines(h);
    var d := OneFile(path, [h]);
    assert d[1..] == [] && AddedRanges(d[1..]) == [];
  }

  lemma RunFour(path: string, start: nat, count: nat)
    requires path != "" && count > 0
    ensures Run(START, [FileStart, TargetLine(path)] + ([HunkLine(1, 1)] + [Other, HunkLine(start, count)])).ranges
            == [(path, (1, 1)), (path, (start, count))]
  {
    var rs := [FileStart, TargetLine(path), HunkLine(1, 1), Other, HunkLine(start, count)];
    assert [FileStart, TargetLine(path)] + ([HunkLine(1, 1)] + [Other, HunkLine(start, count)]) == rs;
    RunStart(path, [Other, HunkLine(start, count)]);
    var st := State(path, true, [(path, (1, 1))]);
    RunCons(st, Other, [HunkLine(start, count)]);
    RunCons(st, HunkLine(start, count), []);
    EmptyRun(Step(st, HunkLine(start, count)));
    assert [Other] + [HunkLine(start, count)] == [Other, HunkLine(start, count)];
  }

  lemma RunCons(st: State, r: Role, rs: seq<Role>)
    ensures Run(st, [r] + rs) == Run(Step(st, r), rs)
  {
    assert ([r] + rs)[1..] == rs;
  }

  /** A file, its path and a first hunk of one line. */
  lemma RunStart(path: string, rs: seq<Role>)
    requires path != ""
    ensures Run(START, [FileStart, TargetLine(path)] + ([HunkLine(1, 1)] + rs)) == Run(State(path, true, [(path, (1, 1))]), rs)
  {
    var rest := [HunkLine(1, 1)] + rs;
    RunCons(START, FileStart, [TargetLine(path)] + rest);
    RunCons(START, TargetLine(path), rest);
    var there := State(path, false, []);
    assert Step(START, FileStart) == START && Step(START, TargetLine(path)) == there;
    assert Step(there, HunkLine(1, 1)) == State(path, true, [(path, (1, 1))]) by {
      assert Ranged(path, 1, 1) == [(path, (1, 1))];
      assert [] + [(path, (1, 1))] == [(path, (1, 1))];
    }
    RunCons(there, HunkLine(1, 1), rs);
    assert [FileStart] + ([TargetLine(path)] + rest) == [FileStart, TargetLine(path)] + rest;
  }

  /**
   An added line that mentions a diff behind a form feed: whatever a later hunk adds is not reported,
   and so it is never scanned.
   */
  lemma SecretIsMissed(path: string, n: nat, secret: string)
    requires PlainPath(path) && Whole("+" + secret)
    ensures var d := OneFile(path, [Later(1, "x" + "\U{0C}" + "diff --git y"), Later(n, secret)]);
            && AddedRanges(d) == [(path, (1, 1)), (path, (n, 1))]
            && Parse(PrintDiff(d)) == [(path, (1, 1))]
  {
    GitPiece();
    PlusRole("+" + secret);
    MissedBehind(path, "x" + "\U{0C}" + "diff --git y", n, secret);
  }

  lemma MissedBehind(path: string, line: string, n: nat, secret: string)
    requires PlainPath(path) && Whole("+" + secret)
    requires LineRoles("+" + line) == [Other, FileStart]
    requires RoleOf("+" + secret).Other? || RoleOf("+" + secret).TargetLine?
    ensures var d := OneFile(path, [Later(1, line), Later(n, secret)]);
            && AddedRanges(d) == [(path, (1, 1)), (path, (n, 1))]
            && Parse(PrintDiff(d)) == [(path, (1, 1))]
  {
    assert path != "";
    hide *;
    TwoLaterRanges(path, line, n, secret);
    TwoLaterRoles(path, line, n, secret);
    WholeRole("+" + secret);
    MissedRun(path, n, RoleOf("+" + secret));
  }

  lemma TwoLaterRanges(path: string, line: string, n: nat, line': string)
    requires path != ""
    ensures AddedRanges(OneFile(path, [Later(1, line), Later(n, line')])) == [(path, (1, 1)), (path, (n, 1))]
  {
    hide *;
    LaterRange(path, 1, line);
    LaterRange(path, n, line');
    TwoHunkRanges(path, Later(1, line), Later(n, line'));
  }

  lemma TwoLaterRoles(path: string, line: string, n: nat, line': string)
    requires PlainPath(path)
    ensures Parse(PrintDiff(OneFile(path, [Later(1, line), Later(n, line')]))) ==
            Run(START, [FileStart, TargetLine(path)]
                       + (([HunkLine(1, 1)] + LineRoles("+" + line)) + ([HunkLine(n, 1)] + LineRoles("+" + line')))).ranges
  {
    hide *;
    LaterRoles(1, line);
    LaterRoles(n, line');
    TwoHunkRoles(Later(1, line), Later(n, line'));
    OneFileRoles(path, [Later(1, line), Later(n, line')]);
  }

  lemma LaterRange(path: string, n: nat, line: string)
    requires path != ""
    ensures HunkRange(path, Later(n, line)) == [(path, (n, 1))]
  {
  }

  lemma GitRole()
    ensures Whole("diff --git y") && RoleOf("diff --git y") == FileStart
  {
    var git := "diff --git y";
    assert git[..11] == "diff --git ";
    FirstBreakIs(git, |git|);
  }

  lemma GitPiece()
    ensures LineRoles("+" + ("x" + "\U{0C}" + "diff --git y")) == [Other, FileStart]
  {
    hide *;
    var git := "diff --git y";
    GitRole();
    PlainX();
    PlainXRole();
    assert "+" + "x" == "+x";
    assert "+" + ("x" + "\U{0C}" + git) == "+x" + "\U{0C}" + git;
    TwoPieces("+x", git);
  }

  lemma PlainXRole()
    ensures RoleOf("+x") == Other
  {
    var line := "+x";
    assert line[0] == '+' && line[1] == 'x';
    assert "diff --git "[0] == 'd' && "+++ "[1] == '+' && "@@ -"[0] == '@';
  }

  lemma PlusRole(line: string)
    requires line != "" && line[0] == '+' && Whole(line)
    ensures RoleOf(line).Other? || RoleOf(line).TargetLine?
  {
    ContentHead(line);
    assert line[..|line|] == line;
  }

  lemma MissedRun(path: string, n: nat, last: Role)
    requires path != "" && (last.Other? || last.TargetLine?)
    ensures Run(START, [FileStart, TargetLine(path)] + (([HunkLine(1, 1)] + [Other, FileStart]) + ([HunkLine(n, 1)] + [last]))).ranges
            == [(path, (1, 1))]
  {
    var rest := [Other, FileStart, HunkLine(n, 1), last];
    assert ([HunkLine(1, 1)] + [Other, FileStart]) + ([HunkLine(n, 1)] + [last]) == [HunkLine(1, 1)] + rest;
    RunStart(path, rest);
    var st := State(path, true, [(path, (1, 1))]);
    var away := State("", false, st.ranges);
    var seen := State("", true, st.ranges);
    RunCons(st, Other, [FileStart, HunkLine(n, 1), last]);
    RunCons(st, FileStart, [HunkLine(n, 1), last]);
    RunCons(away, HunkLine(n, 1), [last]);
    RunCons(seen, last, []);
    EmptyRun(Step(seen, last));
    assert rest == [Other] + [FileStart, HunkLine(n, 1), last];
    assert [FileStart, HunkLine(n, 1), last] == [FileStart] + [HunkLine(n, 1), last];
    assert [HunkLine(n, 1), last] == [HunkLine(n, 1)] + [last];
    assert [last] == [last] + [];
  }
}
