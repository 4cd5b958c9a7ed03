/**
 The parser that learns which line ranges a staged diff adds, against the printer of such diffs.  It
 reads structural headers only, so an added line shaped like a header does not mislead it; what does
 is a boundary of splitlines inside a line, and exactly when is proved.
 */
module StagedDiff {
  import opened Wrappers
  import opened DiffText

  /** A path, and the start and count of lines in it. */
  type Range = (string, (nat, nat))

  // ---------------------------------------------------------------- the parser

  /** White space as strip() sees it. */
  predicate IsSpace(c: char) {
    || '\t' <= c <= '\r' || '\U{1C}' <= c <= ' ' || c == '\U{85}' || c == '\U{A0}' || c == '\U{1680}'
    || '\U{2000}' <= c <= '\U{200A}' || c == '\U{2028}' || c == '\U{2029}' || c == '\U{202F}' || c == '\U{205F}' || c == '\U{3000}'
  }

  function StripLeft(s: string): string {
    if s != "" && IsSpace(s[0]) then StripLeft(s[1..]) else s
  }

  function StripRight(s: string): string {
    if s != "" && IsSpace(s[|s| - 1]) then StripRight(s[..|s| - 1]) else s
  }

  function TargetFile(s: string): string {
    var t := StripRight(StripLeft(s));
    if t == "/dev/null" then "" else if "b/" <= t then t[2..] else t
  }

  function CountOf(count: Option<nat>): nat {
    if count.Some? then count.value else 1
  }

  /** What a line is to the parser. */
  datatype Role = FileStart | TargetLine(file: string) | HunkLine(start: nat, count: nat) | Other

  function RoleOf(raw: string): Role {
    if "diff --git " <= raw then FileStart
    else if "+++ " <= raw then TargetLine(TargetFile(raw[4..]))
    else match MatchHunk(raw)
      case None => Other
      case Some((start, count)) => HunkLine(start, CountOf(count))
  }

  datatype State = State(file: string, seen: bool, ranges: seq<Range>)

  function Ranged(file: string, start: nat, count: nat): seq<Range> {
    if file != "" && count > 0 then [(file, (start, count))] else []
  }

  function Step(st: State, role: Role): State {
    match role
    case FileStart => State("", false, st.ranges)
    case TargetLine(file) => if st.seen then st else st.(file := file)
    case HunkLine(start, count) => State(st.file, true, st.ranges + Ranged(st.file, start, count))
    case Other => st
  }

  function Run(st: State, roles: seq<Role>): State
    decreases |roles|
  {
    if roles == [] then st else Run(Step(st, roles[0]), roles[1..])
  }

  const START := State("", false, [])

  function Roles(raws: seq<string>): (r: seq<Role>)
    ensures |r| == |raws|
  {
    if raws == [] then [] else [RoleOf(raws[0])] + Roles(raws[1..])
  }

  function Parse(diff: string): seq<Range> {
    Run(START, Roles(SplitLines(diff))).ranges
  }

  lemma TargetIsNoHunk(raw: string)
    requires "+++ " <= raw
    ensures MatchHunk(raw).None?
  {
    assert raw[0] == '+' && "@@ -"[0] == '@';
  }

  /** The characters that strip takes away. */
  const NARROW: string := "\U{09}\U{0A}\U{0B}\U{0C}\U{0D}\U{1C}\U{1D}\U{1E}\U{1F}\U{20}\U{85}\U{A0}"
  const WIDE: string := "\U{1680}\U{2000}\U{2001}\U{2002}\U{2003}\U{2004}\U{2005}\U{2006}\U{2007}\U{2008}\U{2009}\U{200A}\U{2028}\U{2029}\U{202F}\U{205F}\U{3000}"
  const SPACES: string := NARROW + WIDE

  lemma NarrowSpaces()
    ensures forall c :: IsSpace(c) && c < '\U{1680}' <==> c in NARROW
  {
    var all := NARROW;
    assert all[0] == '\U{09}' && all[1] == '\U{0A}' && all[2] == '\U{0B}' && all[3] == '\U{0C}' && all[4] == '\U{0D}' && all[5] == '\U{1C}';
    assert all[6] == '\U{1D}' && all[7] == '\U{1E}' && all[8] == '\U{1F}' && all[9] == '\U{20}' && all[10] == '\U{85}' && all[11] == '\U{A0}';
  }

  lemma WideSpaces()
    ensures forall c :: IsSpace(c) && c >= '\U{1680}' <==> c in WIDE
  {
    var all := WIDE;
    assert all[0] == '\U{1680}' && all[1] == '\U{2000}' && all[2] == '\U{2001}' && all[3] == '\U{2002}' && all[4] == '\U{2003}' && all[5] == '\U{2004}';
    assert all[6] == '\U{2005}' && all[7] == '\U{2006}' && all[8] == '\U{2007}' && all[9] == '\U{2008}' && all[10] == '\U{2009}' && all[11] == '\U{200A}';
    assert all[12] == '\U{2028}' && all[13] == '\U{2029}' && all[14] == '\U{202F}' && all[15] == '\U{205F}' && all[16] == '\U{3000}';
  }

  lemma SpacesAre()
    ensures forall c :: IsSpace(c) <==> c in SPACES
  {
    NarrowSpaces();
    WideSpaces();
    hide IsSpace, NARROW, WIDE;
  }

  lemma {:induction false} StripLeftExactly(a: string, t: string)
    requires (forall i :: 0 <= i < |a| ==> IsSpace(a[i])) && (t != "" ==> !IsSpace(t[0]))
    ensures StripLeft(a + t) == t
  {
    hide IsSpace;
    if a == "" {
      assert a + t == t;
    } else {
      assert (a + t)[1..] == a[1..] + t;
      StripLeftExactly(a[1..], t);
    }
  }

  lemma {:induction false} StripRightExactly(t: string, b: string)
    requires (forall i :: 0 <= i < |b| ==> IsSpace(b[i])) && (t != "" ==> !IsSpace(t[|t| - 1]))
    ensures StripRight(t + b) == t
  {
    hide IsSpace;
    if b == "" {
      assert t + b == t;
    } else {
      assert (t + b)[..|t + b| - 1] == t + b[..|b| - 1];
      StripRightExactly(t, b[..|b| - 1]);
    }
  }

  /** The file a target line names: what is left between white space, without "b/" in front; none for /dev/null. */
  lemma TargetFileExactly(a: string, t: string, b: string)
    requires (forall i :: 0 <= i < |a| ==> a[i] in SPACES) && forall i :: 0 <= i < |b| ==> b[i] in SPACES
    requires t != "" && t[0] !in SPACES && t[|t| - 1] !in SPACES
    ensures TargetFile(a + t + b) == if t == "/dev/null" then "" else if "b/" <= t then t[2..] else t
  {
    SpacesAre();
    hide IsSpace, SPACES, StripLeft, StripRight;
    assert a + t + b == a + (t + b);
    StripLeftExactly(a, t + b);
    StripRightExactly(t, b);
  }

  /** What a line is to the parser, said of its text. */
  lemma RoleExactly(raw: string, start: nat, count: nat)
    ensures RoleOf(raw) == FileStart <==> exists rest :: raw == "diff --git " + rest
    ensures RoleOf(raw).TargetLine? <==> exists rest :: raw == "+++ " + rest && RoleOf(raw) == TargetLine(TargetFile(rest))
    ensures RoleOf(raw) == HunkLine(start, count) <==> HunkForm(raw, start, Some(count)) || (count == 1 && HunkForm(raw, start, None))
  {
    hide TargetFile, MatchHunk, HunkForm;
    var (git, plus) := ("diff --git ", "+++ ");
    forall rest | raw == git + rest ensures git <= raw {
      assert raw[..|git|] == git;
    }
    assert git <= raw ==> raw == git + raw[|git|..];
    forall rest | raw == plus + rest ensures plus <= raw && raw[4..] == rest && !(git <= raw) {
      assert raw[0] == '+' && git[0] == 'd';
    }
    assert plus <= raw ==> raw == plus + raw[4..];
    MatchHunkExactly(raw, start, Some(count));
    MatchHunkExactly(raw, start, None);
    if git <= raw {
      assert MatchHunk(raw).None? by {
        GitIsNoHunk(raw);
      }
    }
    if plus <= raw {
      TargetIsNoHunk(raw);
    }
  }

  lemma GitIsNoHunk(raw: string)
    requires "diff --git " <= raw
    ensures MatchHunk(raw).None?
  {
    assert raw[0] == 'd' && "@@ -"[0] == '@';
  }

  method ReadLine(raw: string, file: string, seen: bool, ranges: seq<Range>) returns (file': string, seen': bool, ranges': seq<Range>)
    ensures State(file', seen', ranges') == Step(State(file, seen, ranges), RoleOf(raw))
  {
    hide TargetFile, MatchHunk;
    file', seen', ranges' := file, seen, ranges;
    if "diff --git " <= raw {
      return "", false, ranges;
    }
    if "+++ " <= raw && !seen {
      return TargetFile(raw[4..]), seen, ranges;
    }
    if "+++ " <= raw {
      TargetIsNoHunk(raw);
    }
    var hunk := MatchHunk(raw);
    if hunk.Some? {
      seen' := true;
      var (start, count?) := hunk.value;
      var count := if count?.None? then 1 else count?.value;
      if count > 0 && file != "" {
        ranges' := ranges + [(file, (start, count))];
      }
    }
  }

  method ParseRanges(diff: string) returns (ranges: seq<Range>)
    ensures ranges == Parse(diff)
  {
    hide RoleOf, Step;
    ranges := [];
    var file, seen := "", false;
    var raws := SplitLines(diff);
    for i := 0 to |raws|
      invariant Run(START, Roles(raws)) == Run(State(file, seen, ranges), Roles(raws[i..]))
    {
      assert raws[i..][1..] == raws[i + 1..];
      file, seen, ranges := ReadLine(raws[i], file, seen, ranges);
    }
  }

  // ---------------------------------------------------------------- the printer

  /** One hunk without context; section is what git prints behind the header. */
  datatype Hunk = Hunk(oldStart: nat, start: nat, section: string, removed: seq<string>, added: seq<string>, oldOpen: bool, newOpen: bool)

  datatype Target = Absent | DevNull | Into(path: string)

  datatype FileDiff = FileDiff(names: string, headers: seq<string>, target: Target, hunks: seq<Hunk>)

  function Prefixed(c: char, lines: seq<string>): seq<string> {
    if lines == [] then [] else [[c] + lines[0]] + Prefixed(c, lines[1..])
  }

  function NoEol(open: bool): seq<string> {
    if open then ["\\ No newline at end of file"] else []
  }

  function HunkHeader(h: Hunk): string {
    PrintHunkHeader(h.oldStart, |h.removed|, h.start, |h.added|, h.section)
  }

  function Content(h: Hunk): seq<string> {
    Prefixed('-', h.removed) + NoEol(h.oldOpen) + Prefixed('+', h.added) + NoEol(h.newOpen)
  }

  function HunkLines(h: Hunk): seq<string> {
    [HunkHeader(h)] + Content(h)
  }

  function HunksLines(hs: seq<Hunk>): seq<string> {
    if hs == [] then [] else HunkLines(hs[0]) + HunksLines(hs[1..])
  }

  /** A path with a space in it is printed with a tab behind it. */
  function TargetLines(t: Target): seq<string> {
    match t
    case Absent => []
    case DevNull => ["+++ /dev/null"]
    case Into(path) => ["+++ b/" + path + if ' ' in path then "\t" else ""]
  }

  function FileLines(f: FileDiff): seq<string> {
    ["diff --git " + f.names] + f.headers + TargetLines(f.target) + HunksLines(f.hunks)
  }

  function Text(lines: seq<string>): string {
    if lines == [] then "" else lines[0] + "\n" + Text(lines[1..])
  }

  function DiffLines(d: seq<FileDiff>): seq<string> {
    if d == [] then [] else FileLines(d[0]) + DiffLines(d[1..])
  }

  function PrintDiff(d: seq<FileDiff>): string {
    Text(DiffLines(d))
  }

  /** What the diff adds: a range per hunk with added lines. */
  function HunkRange(file: string, h: Hunk): seq<Range> {
    if file != "" && |h.added| > 0 then [(file, (h.start, |h.added|))] else []
  }

  function HunkRanges(file: string, hs: seq<Hunk>): seq<Range> {
    if hs == [] then [] else HunkRange(file, hs[0]) + HunkRanges(file, hs[1..])
  }

  function FileOf(t: Target): string {
    if t.Into? then t.path else ""
  }

  function AddedRanges(d: seq<FileDiff>): seq<Range> {
    if d == [] then [] else HunkRanges(FileOf(d[0].target), d[0].hunks) + AddedRanges(d[1..])
  }

  // ---------------------------------------------------------------- what git guarantees of the headers

  predicate Whole(line: string) {
    FirstBreak(line) == |line|
  }

  predicate Inert(line: string) {
    Whole(line) && RoleOf(line).Other?
  }

  predicate AllInert(lines: seq<string>) {
    lines == [] || (Inert(lines[0]) && AllInert(lines[1..]))
  }

  predicate PlainPath(path: string) {
    Whole(path) && path != "" && !IsSpace(path[|path| - 1])
  }

  predicate WellPrinted(f: FileDiff) {
    Whole(f.names) && AllInert(f.headers) && (f.target.Into? ==> PlainPath(f.target.path))
  }

  // ---------------------------------------------------------------- what may go wrong inside a line

  /** What splitlines cuts off a line, as the parser sees it. */
  function Tails(line: string): seq<Role> {
    Roles(Fragments(line)[1..])
  }

  /** No cut-off piece begins like a file. */
  predicate Quiet(line: string) {
    FileStart !in Tails(line)
  }

  predicate AllQuiet(lines: seq<string>) {
    lines == [] || (Quiet(lines[0]) && AllQuiet(lines[1..]))
  }

  predicate Counted(r: Role) {
    r.HunkLine? && r.count > 0
  }

  /** No cut-off piece counts as a hunk. */
  predicate Clean(line: string) {
    forall r :: r in Tails(line) ==> !Counted(r)
  }

  predicate AllClean(lines: seq<string>) {
    lines == [] || (Clean(lines[0]) && AllClean(lines[1..]))
  }

  function Extras(file: string, rs: seq<Role>): seq<Range> {
    if rs == [] then []
    else (if rs[0].HunkLine? then Ranged(file, rs[0].start, rs[0].count) else []) + Extras(file, rs[1..])
  }

  function LineExtras(file: string, lines: seq<string>): seq<Range> {
    if lines == [] then [] else Extras(file, Tails(lines[0])) + LineExtras(file, lines[1..])
  }

  function ReadHunks(file: string, hs: seq<Hunk>): seq<Range> {
    if hs == [] then [] else HunkRange(file, hs[0]) + LineExtras(file, HunkLines(hs[0])) + ReadHunks(file, hs[1..])
  }

  /** What the parser makes of the diff. */
  function ReadRanges(d: seq<FileDiff>): seq<Range> {
    if d == [] then [] else ReadHunks(FileOf(d[0].target), d[0].hunks) + ReadRanges(d[1..])
  }

  // ---------------------------------------------------------------- running the parser over printed lines

  function LineRoles(line: string): seq<Role> {
    Roles(Fragments(line))
  }

  function AllRoles(lines: seq<string>): seq<Role> {
    if lines == [] then [] else LineRoles(lines[0]) + AllRoles(lines[1..])
  }

  lemma {:induction false} RolesJoin(a: seq<string>, b: seq<string>)
    ensures Roles(a + b) == Roles(a) + Roles(b)
  {
    if a == [] {
      assert a + b == b;
    } else {
      hide RoleOf;
      assert (a + b)[1..] == a[1..] + b;
      RolesJoin(a[1..], b);
    }
  }

  lemma {:induction false} SplitText(lines: seq<string>)
    ensures Roles(SplitLines(Text(lines))) == AllRoles(lines)
  {
    hide Fragments, SplitLines, Roles;
    if lines != [] {
      SplitText(lines[1..]);
      SplitJoin(lines[0], Text(lines[1..]));
      RolesJoin(Fragments(lines[0]), SplitLines(Text(lines[1..])));
    } else {
      EmptyText();
    }
  }

  lemma EmptyText()
    ensures Roles(SplitLines("")) == []
  {
  }

  lemma {:induction false} AllRolesJoin(a: seq<string>, b: seq<string>)
    ensures AllRoles(a + b) == AllRoles(a) + AllRoles(b)
  {
    if a == [] {
      assert a + b == b;
    } else {
      hide LineRoles;
      assert (a + b)[1..] == a[1..] + b;
      AllRolesJoin(a[1..], b);
    }
  }

  lemma {:induction false} RunJoin(st: State, a: seq<Role>, b: seq<Role>)
    ensures Run(st, a + b) == Run(Run(st, a), b)
    decreases |a|
  {
    if a == [] {
      assert a + b == b;
    } else {
      assert (a + b)[1..] == a[1..] + b;
      RunJoin(Step(st, a[0]), a[1..], b);
    }
  }

  /** The state with more ranges. */
  function More(st: State, rs: seq<Range>): State {
    st.(ranges := st.ranges + rs)
  }

  lemma MoreMore(st: State, a: seq<Range>, b: seq<Range>)
    ensures More(More(st, a), b) == More(st, a + b)
    ensures More(st, []) == st
    ensures More(st, a).file == st.file && More(st, a).seen == st.seen
  {
  }

  /** Inside a file nothing but counted pieces changes the state. */
  lemma {:induction false} RunTails(st: State, rs: seq<Role>)
    requires st.seen && FileStart !in rs
    ensures Run(st, rs) == More(st, Extras(st.file, rs))
    decreases |rs|
  {
    if rs != [] {
      RunTails(Step(st, rs[0]), rs[1..]);
    }
  }

  predicate IsContent(line: string) {
    line != "" && (line[0] == '-' || line[0] == '+' || line[0] == '\\')
  }

  predicate AllContent(lines: seq<string>) {
    lines == [] || (IsContent(lines[0]) && AllContent(lines[1..]))
  }

  lemma HeadAndTails(line: string)
    ensures LineRoles(line) == [RoleOf(line[..FirstBreak(line)])] + Tails(line)
  {
  }

  lemma ContentHead(line: string)
    requires IsContent(line)
    ensures var r := RoleOf(line[..FirstBreak(line)]); r.Other? || r.TargetLine?
  {
    assert "diff --git "[0] == 'd' && "@@ -"[0] == '@';
  }

  /** A content line, whatever it says. */
  lemma RunContent(st: State, line: string)
    requires st.seen && IsContent(line) && Quiet(line)
    ensures Run(st, LineRoles(line)) == More(st, Extras(st.file, Tails(line)))
  {
    hide RoleOf, FirstBreak, Tails, LineRoles, IsContent;
    HeadAndTails(line);
    ContentHead(line);
    RunTails(st, Tails(line));
    assert LineRoles(line)[1..] == Tails(line);
  }

  lemma {:induction false} RunContents(st: State, lines: seq<string>)
    requires st.seen && AllContent(lines) && AllQuiet(lines)
    ensures Run(st, AllRoles(lines)) == More(st, LineExtras(st.file, lines))
    decreases |lines|
  {
    if lines != [] {
      hide Quiet, IsContent, Extras, LineRoles, Tails, Run, More;
      var extras := Extras(st.file, Tails(lines[0]));
      MoreMore(st, extras, LineExtras(st.file, lines[1..]));
      RunContent(st, lines[0]);
      RunJoin(st, LineRoles(lines[0]), AllRoles(lines[1..]));
      RunContents(More(st, extras), lines[1..]);
    } else {
      MoreMore(st, [], []);
      EmptyRun(st);
    }
  }

  lemma RangeWhole(start: nat, count: nat)
    ensures forall j :: 0 <= j < |PrintRange(start, count)| ==> !IsBreak(PrintRange(start, count)[j])
  {
  }

  lemma BareHeaderWhole(oldStart: nat, oldCount: nat, start: nat, count: nat)
    ensures var bare := PrintHunkHeader(oldStart, oldCount, start, count, "");
            forall j :: 0 <= j < |bare| ==> !IsBreak(bare[j])
  {
    RangeWhole(oldStart, oldCount);
    RangeWhole(start, count);
    hide PrintRange;
  }

  lemma HeaderParts(oldStart: nat, oldCount: nat, start: nat, count: nat, section: string)
    ensures PrintHunkHeader(oldStart, oldCount, start, count, section) == PrintHunkHeader(oldStart, oldCount, start, count, "") + section
  {
  }

  lemma FirstBreakAfter(a: string, b: string)
    requires forall j :: 0 <= j < |a| ==> !IsBreak(a[j])
    ensures FirstBreak(a + b) == |a| + FirstBreak(b)
  {
    var k := FirstBreak(b);
    assert forall j :: |a| <= j < |a| + k ==> (a + b)[j] == b[j - |a|];
    FirstBreakIs(a + b, |a| + k);
  }

  /** A hunk header is read before anything its section could be cut into. */
  lemma HeaderHead(h: Hunk)
    ensures RoleOf(HunkHeader(h)[..FirstBreak(HunkHeader(h))]) == HunkLine(h.start, |h.added|)
  {
    hide PrintHunkHeader, IsBreak, MatchHunk;
    var bare := PrintHunkHeader(h.oldStart, |h.removed|, h.start, |h.added|, "");
    var k := FirstBreak(h.section);
    var head := PrintHunkHeader(h.oldStart, |h.removed|, h.start, |h.added|, h.section[..k]);
    HeaderParts(h.oldStart, |h.removed|, h.start, |h.added|, h.section);
    HeaderParts(h.oldStart, |h.removed|, h.start, |h.added|, h.section[..k]);
    BareHeaderWhole(h.oldStart, |h.removed|, h.start, |h.added|);
    FirstBreakAfter(bare, h.section);
    assert HunkHeader(h)[..|bare| + k] == head;
    HeaderReadsBack(h.oldStart, |h.removed|, h.start, |h.added|, h.section[..k]);
    HunkIsNoOther(head);
  }

  lemma HunkIsNoOther(s: string)
    requires MatchHunk(s).Some?
    ensures RoleOf(s) == HunkLine(MatchHunk(s).value.0, CountOf(MatchHunk(s).value.1))
  {
    HunkStarts(s);
    hide MatchHunk;
    assert "diff --git "[0] == 'd' && "+++ "[0] == '+';
  }

  lemma HunkStarts(s: string)
    requires MatchHunk(s).Some?
    ensures s != "" && s[0] == '@'
  {
    hide TakeRange;
    assert "@@ -"[0] == '@';
  }

  lemma {:induction false} PrefixedContent(c: char, lines: seq<string>)
    requires c == '-' || c == '+'
    ensures AllContent(Prefixed(c, lines))
  {
    if lines != [] {
      PrefixedContent(c, lines[1..]);
    }
  }

  lemma {:induction false} ContentJoin(a: seq<string>, b: seq<string>)
    requires AllContent(a) && AllContent(b)
    ensures AllContent(a + b)
  {
    if a == [] {
      assert a + b == b;
    } else {
      hide IsContent;
      assert (a + b)[1..] == a[1..] + b;
      ContentJoin(a[1..], b);
    }
  }

  lemma NoEolContent(open: bool)
    ensures AllContent(NoEol(open))
  {
  }

  lemma HunkContent(h: Hunk)
    ensures AllContent(Content(h))
  {
    PrefixedContent('-', h.removed);
    PrefixedContent('+', h.added);
    NoEolContent(h.oldOpen);
    NoEolContent(h.newOpen);
    hide AllContent, Prefixed, NoEol;
    ContentJoin(Prefixed('-', h.removed), NoEol(h.oldOpen));
    ContentJoin(Prefixed('-', h.removed) + NoEol(h.oldOpen), Prefixed('+', h.added));
    ContentJoin(Prefixed('-', h.removed) + NoEol(h.oldOpen) + Prefixed('+', h.added), NoEol(h.newOpen));
  }

  lemma RunHeaderLine(st: State, h: Hunk)
    requires Quiet(HunkHeader(h))
    ensures Run(st, LineRoles(HunkHeader(h)))
            == More(State(st.file, true, st.ranges), HunkRange(st.file, h) + Extras(st.file, Tails(HunkHeader(h))))
  {
    var line := HunkHeader(h);
    var seen := State(st.file, true, st.ranges);
    HeaderHead(h);
    HeadAndTails(line);
    assert Step(st, HunkLine(h.start, |h.added|)) == More(seen, HunkRange(st.file, h));
    hide Extras, RoleOf, FirstBreak, HunkHeader, LineRoles, Tails, More;
    MoreMore(seen, HunkRange(st.file, h), Extras(st.file, Tails(line)));
    RunTails(More(seen, HunkRange(st.file, h)), Tails(line));
    assert LineRoles(line)[1..] == Tails(line);
  }

  lemma HunkUnfolds(file: string, h: Hunk)
    ensures AllRoles(HunkLines(h)) == LineRoles(HunkHeader(h)) + AllRoles(Content(h))
    ensures LineExtras(file, HunkLines(h)) == Extras(file, Tails(HunkHeader(h))) + LineExtras(file, Content(h))
    ensures AllQuiet(HunkLines(h)) <==> Quiet(HunkHeader(h)) && AllQuiet(Content(h))
  {
  }

  lemma RunHunk(st: State, h: Hunk)
    requires AllQuiet(HunkLines(h))
    ensures Run(st, AllRoles(HunkLines(h)))
            == More(State(st.file, true, st.ranges), HunkRange(st.file, h) + LineExtras(st.file, HunkLines(h)))
  {
    hide *;
    var (line, content) := (HunkHeader(h), Content(h));
    var seen := State(st.file, true, st.ranges);
    var (own, extras, rest) := (HunkRange(st.file, h), Extras(st.file, Tails(line)), LineExtras(st.file, content));
    HunkUnfolds(st.file, h);
    HunkContent(h);
    RunHeaderLine(st, h);
    MoreMore(seen, own + extras, rest);
    assert own + extras + rest == own + (extras + rest);
    RunContents(More(seen, own + extras), content);
    RunJoin(st, LineRoles(line), AllRoles(content));
  }

  predicate QuietHunks(hs: seq<Hunk>) {
    forall h :: h in hs ==> AllQuiet(HunkLines(h))
  }

  lemma {:induction false} RunHunks(st: State, hs: seq<Hunk>)
    requires QuietHunks(hs)
    ensures Run(st, AllRoles(HunksLines(hs))).ranges == st.ranges + ReadHunks(st.file, hs)
    decreases |hs|
  {
    hide AllQuiet, LineExtras, HunkRange, HunkLines, Run;
    if hs != [] {
      var read := HunkRange(st.file, hs[0]) + LineExtras(st.file, HunkLines(hs[0]));
      RunHunk(st, hs[0]);
      AllRolesJoin(HunkLines(hs[0]), HunksLines(hs[1..]));
      RunJoin(st, AllRoles(HunkLines(hs[0])), AllRoles(HunksLines(hs[1..])));
      RunHunks(State(st.file, true, st.ranges + read), hs[1..]);
      assert st.ranges + read + ReadHunks(st.file, hs[1..]) == st.ranges + (read + ReadHunks(st.file, hs[1..]));
    } else {
      EmptyRun(st);
    }
  }

  lemma EmptyRun(st: State)
    ensures Run(st, []) == st && AllRoles([]) == []
  {
  }

  lemma WholeRole(line: string)
    requires Whole(line)
    ensures LineRoles(line) == [RoleOf(line)]
  {
    hide RoleOf, FirstBreak;
    PlainFragments(line);
    assert [line][1..] == [];
  }

  lemma {:induction false} RunHeaders(st: State, headers: seq<string>)
    requires AllInert(headers)
    ensures Run(st, AllRoles(headers)) == st
  {
    if headers != [] {
      hide RoleOf, Whole, LineRoles;
      WholeRole(headers[0]);
      RunHeaders(st, headers[1..]);
      assert AllRoles(headers)[1..] == AllRoles(headers[1..]);
    }
  }

  // ---------------------------------------------------------------- whole files

  lemma WholeJoin(a: string, b: string)
    requires Whole(b) && forall j :: 0 <= j < |a| ==> !IsBreak(a[j])
    ensures Whole(a + b)
  {
  }

  lemma StripPadding(s: string, tab: bool)
    requires s != "" && !IsSpace(s[0]) && !IsSpace(s[|s| - 1])
    ensures StripRight(StripLeft(s + if tab then "\t" else "")) == s
  {
  }

  lemma PathReadsBack(path: string, tab: bool)
    requires PlainPath(path)
    ensures TargetFile("b/" + path + if tab then "\t" else "") == path
  {
    var s := "b/" + path;
    assert s[0] == 'b' && "/dev/null"[0] == '/';
    assert s[|s| - 1] == path[|path| - 1];
    StripPadding(s, tab);
    assert s[2..] == path;
  }

  lemma TargetLineWhole(path: string, pad: string)
    requires PlainPath(path) && (pad == "" || pad == "\t")
    ensures Whole("+++ b/" + path + pad)
  {
  }

  lemma TargetLineRole(path: string)
    requires PlainPath(path)
    ensures LineRoles(TargetLines(Into(path))[0]) == [TargetLine(path)]
  {
    var tab := ' ' in path;
    var pad := if tab then "\t" else "";
    var line := "+++ b/" + path + pad;
    TargetLineWhole(path, pad);
    PathReadsBack(path, tab);
    assert line[4..] == "b/" + path + pad;
    assert line[..4] == "+++ " && line[0] == '+' && "diff --git "[0] == 'd';
    hide TargetFile, PlainPath, Whole, IsSpace;
    assert RoleOf(line) == TargetLine(path);
    WholeRole(line);
  }

  lemma DevNullTarget()
    ensures TargetFile("/dev/null") == ""
  {
  }

  lemma DevNullRole()
    ensures LineRoles("+++ /dev/null") == [TargetLine("")]
  {
    var line := "+++ /dev/null";
    DevNullTarget();
    hide TargetFile;
    assert line[4..] == "/dev/null";
    assert line[..4] == "+++ " && line[0] == '+' && "diff --git "[0] == 'd';
    assert RoleOf(line) == TargetLine("");
    assert forall j :: 0 <= j < |line| ==> !IsBreak(line[j]);
    hide RoleOf, IsBreak;
    FirstBreakIs(line, |line|);
    WholeRole(line);
  }

  lemma FileStartRole(names: string)
    requires Whole(names)
    ensures LineRoles("diff --git " + names) == [FileStart]
  {
    var prefix := "diff --git ";
    assert (prefix + names)[..|prefix|] == prefix;
    WholeJoin(prefix, names);
    WholeRole(prefix + names);
  }

  lemma RunTarget(st: State, t: Target)
    requires !st.seen && st.file == "" && (t.Into? ==> PlainPath(t.path))
    ensures Run(st, AllRoles(TargetLines(t))) == st.(file := FileOf(t))
  {
    match t
    case Absent => EmptyRun(st);
    case DevNull =>
      DevNullRole();
      OneLine(st, "+++ /dev/null", TargetLine(""));
    case Into(path) =>
      TargetLineRole(path);
      OneLine(st, TargetLines(t)[0], TargetLine(path));
  }

  lemma OneLine(st: State, line: string, role: Role)
    requires LineRoles(line) == [role]
    ensures AllRoles([line]) == [role] && Run(st, AllRoles([line])) == Step(st, role)
  {
  }

  lemma RunFile(st: State, f: FileDiff)
    requires WellPrinted(f) && QuietHunks(f.hunks)
    ensures Run(st, AllRoles(FileLines(f))).ranges == st.ranges + ReadHunks(FileOf(f.target), f.hunks)
  {
    var first := "diff --git " + f.names;
    FileStartRole(f.names);
    hide LineRoles, HunksLines, ReadHunks, Run, TargetLines, AllInert, AllRoles, Whole, QuietHunks;
    var clear := State("", false, st.ranges);
    OneLine(st, first, FileStart);
    RunHeaders(clear, f.headers);
    RunTarget(clear, f.target);
    RunHunks(clear.(file := FileOf(f.target)), f.hunks);
    AllRolesJoin([first], f.headers);
    AllRolesJoin([first] + f.headers, TargetLines(f.target));
    AllRolesJoin([first] + f.headers + TargetLines(f.target), HunksLines(f.hunks));
    RunJoin(st, AllRoles([first]), AllRoles(f.headers));
    RunJoin(st, AllRoles([first] + f.headers), AllRoles(TargetLines(f.target)));
    RunJoin(st, AllRoles([first] + f.headers + TargetLines(f.target)), AllRoles(HunksLines(f.hunks)));
  }

  predicate Printable(d: seq<FileDiff>) {
    forall f :: f in d ==> WellPrinted(f) && QuietHunks(f.hunks)
  }

  lemma {:induction false} RunDiff(st: State, d: seq<FileDiff>)
    requires Printable(d)
    ensures Run(st, AllRoles(DiffLines(d))).ranges == st.ranges + ReadRanges(d)
    decreases |d|
  {
    hide WellPrinted, QuietHunks, FileLines, ReadHunks, Run;
    if d != [] {
      RunFile(st, d[0]);
      AllRolesJoin(FileLines(d[0]), DiffLines(d[1..]));
      RunJoin(st, AllRoles(FileLines(d[0])), AllRoles(DiffLines(d[1..])));
      RunDiff(Run(st, AllRoles(FileLines(d[0]))), d[1..]);
    } else {
      EmptyRun(st);
    }
  }

  // ---------------------------------------------------------------- exactly when it reads back

  lemma {:induction false} ExtrasNone(file: string, rs: seq<Role>)
    requires file != ""
    ensures Extras(file, rs) == [] <==> forall r :: r in rs ==> !Counted(r)
  {
    if rs != [] {
      ExtrasNone(file, rs[1..]);
      assert rs == [rs[0]] + rs[1..];
      assert (forall r :: r in rs ==> !Counted(r)) <==> !Counted(rs[0]) && forall r :: r in rs[1..] ==> !Counted(r);
      assert Counted(rs[0]) <==> rs[0].HunkLine? && Ranged(file, rs[0].start, rs[0].count) != [];
    }
  }

  lemma {:induction false} LineExtrasNone(file: string, lines: seq<string>)
    requires file != ""
    ensures LineExtras(file, lines) == [] <==> AllClean(lines)
  {
    if lines != [] {
      hide Tails, Extras;
      ExtrasNone(file, Tails(lines[0]));
      LineExtrasNone(file, lines[1..]);
    }
  }

  lemma {:induction false} NoFileNoRanges(hs: seq<Hunk>)
    ensures ReadHunks("", hs) == [] && HunkRanges("", hs) == []
  {
    if hs != [] {
      NoFileNoRanges(hs[1..]);
      NoFileNoExtras(HunkLines(hs[0]));
    }
  }

  lemma {:induction false} NoFileNoExtras(lines: seq<string>)
    ensures LineExtras("", lines) == []
  {
    if lines != [] {
      hide Tails;
      NoFileNoExtras(lines[1..]);
      NoFileNoTailExtras(Tails(lines[0]));
    }
  }

  lemma {:induction false} NoFileNoTailExtras(rs: seq<Role>)
    ensures Extras("", rs) == []
  {
    if rs != [] {
      NoFileNoTailExtras(rs[1..]);
    }
  }

  predicate CleanHunks(hs: seq<Hunk>) {
    hs == [] || (AllClean(HunkLines(hs[0])) && CleanHunks(hs[1..]))
  }

  lemma {:induction false} HunksReadBack(file: string, hs: seq<Hunk>)
    requires file != ""
    ensures |ReadHunks(file, hs)| >= |HunkRanges(file, hs)|
    ensures |ReadHunks(file, hs)| == |HunkRanges(file, hs)| <==> CleanHunks(hs)
    ensures CleanHunks(hs) ==> ReadHunks(file, hs) == HunkRanges(file, hs)
  {
    if hs != [] {
      LineExtrasNone(file, HunkLines(hs[0]));
      HunksReadBack(file, hs[1..]);
      hide HunkLines, LineExtras, AllClean, HunkRange;
      var (own, extras) := (HunkRange(file, hs[0]), LineExtras(file, HunkLines(hs[0])));
      assert |ReadHunks(file, hs)| == |own| + |extras| + |ReadHunks(file, hs[1..])|;
      assert |HunkRanges(file, hs)| == |own| + |HunkRanges(file, hs[1..])|;
      assert extras == [] ==> own + extras == own;
    }
  }

  /** In no file with a path does a cut-off piece of a hunk's lines count as a hunk. */
  predicate CleanDiff(d: seq<FileDiff>) {
    d == [] || ((d[0].target.Into? ==> CleanHunks(d[0].hunks)) && CleanDiff(d[1..]))
  }

  lemma {:induction false} RangesReadBack(d: seq<FileDiff>)
    requires Printable(d)
    ensures |ReadRanges(d)| >= |AddedRanges(d)|
    ensures |ReadRanges(d)| == |AddedRanges(d)| <==> CleanDiff(d)
    ensures CleanDiff(d) ==> ReadRanges(d) == AddedRanges(d)
  {
    if d != [] {
      hide ReadHunks, HunkRanges, CleanHunks, QuietHunks;
      RangesReadBack(d[1..]);
      NoFileNoRanges(d[0].hunks);
      assert WellPrinted(d[0]);
      if d[0].target.Into? {
        HunksReadBack(d[0].target.path, d[0].hunks);
      }
    }
  }

  /**
   Parsing inverts printing.  For every printed diff no cut-off piece of which starts a file, the
   parser returns exactly the path, start and count of each hunk with added lines, in order, if and
   only if no piece that splitlines cuts off a hunk's lines reads as a hunk header with lines.
   */
  lemma ParseInvertsPrint(d: seq<FileDiff>)
    requires Printable(d)
    ensures Parse(PrintDiff(d)) == AddedRanges(d) <==> CleanDiff(d)
  {
    hide Run, ReadRanges, AddedRanges, CleanDiff, Printable, Roles;
    SplitText(DiffLines(d));
    RunDiff(START, d);
    RangesReadBack(d);
  }

  // ---------------------------------------------------------------- lines free of extra boundaries

  predicate AllWhole(lines: seq<string>) {
    lines == [] || (Whole(lines[0]) && AllWhole(lines[1..]))
  }

  lemma {:induction false} WholeIsQuietAndClean(lines: seq<string>)
    requires AllWhole(lines)
    ensures AllQuiet(lines) && AllClean(lines)
  {
    if lines != [] {
      WholeIsQuietAndClean(lines[1..]);
      PlainFragments(lines[0]);
      assert Tails(lines[0]) == [];
    }
  }

  predicate Tame(d: seq<FileDiff>) {
    forall f :: f in d ==> WellPrinted(f) && forall h :: h in f.hunks ==> AllWhole(HunkLines(h))
  }

  /** With no extra boundary in any line the docstring's promise holds: whatever the lines say, they are never read as headers. */
  lemma TameReadsBack(d: seq<FileDiff>)
    requires Tame(d)
    ensures Parse(PrintDiff(d)) == AddedRanges(d)
  {
    hide WellPrinted, HunkLines, Parse, PrintDiff, AddedRanges, CleanDiff;
    forall f | f in d ensures QuietHunks(f.hunks) {
      forall h | h in f.hunks ensures AllQuiet(HunkLines(h)) {
        WholeIsQuietAndClean(HunkLines(h));
      }
    }
    TameIsClean(d);
    ParseInvertsPrint(d);
  }

  lemma {:induction false} TameIsClean(d: seq<FileDiff>)
    requires Tame(d)
    ensures CleanDiff(d)
  {
    if d != [] {
      hide WellPrinted, HunkLines, CleanHunks;
      TameIsClean(d[1..]);
      assert forall h :: h in d[0].hunks ==> AllWhole(HunkLines(h));
      TameHunks(d[0].hunks);
    }
  }

  lemma {:induction false} TameHunks(hs: seq<Hunk>)
    requires forall h :: h in hs ==> AllWhole(HunkLines(h))
    ensures CleanHunks(hs)
  {
    if hs != [] {
      hide HunkLines;
      WholeIsQuietAndClean(HunkLines(hs[0]));
      TameHunks(hs[1..]);
    }
  }
}
