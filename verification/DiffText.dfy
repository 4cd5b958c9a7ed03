/**
 The text level of the staged-diff parser: how splitlines cuts a text, and the decimal grammar of hunk
 headers with its printer.
 */
module DiffText {
  import opened Wrappers

  // ---------------------------------------------------------------- splitlines

  /** Every boundary splitlines knows; all but the line feed can occur inside a line of a diff. */
  predicate IsBreak(c: char) {
    || c == '\n' || c == '\r' || c == '\U{0B}' || c == '\U{0C}' || c == '\U{1C}' || c == '\U{1D}' || c == '\U{1E}'
    || c == '\U{85}' || c == '\U{2028}' || c == '\U{2029}'
  }

  function FirstBreak(s: string): (k: nat)
    ensures k <= |s|
    ensures k < |s| ==> IsBreak(s[k])
    ensures forall j :: 0 <= j < k ==> !IsBreak(s[j])
  {
    if s == "" || IsBreak(s[0]) then 0
    else
      var k := FirstBreak(s[1..]);
      assert forall j :: 0 < j <= k ==> s[j] == s[1..][j - 1] || j == k;
      k + 1
  }

  function BreakWidth(s: string, k: nat): nat
    requires k < |s|
  {
    if s[k] == '\r' && k + 1 < |s| && s[k + 1] == '\n' then 2 else 1
  }

  function SplitLines(s: string): seq<string>
    decreases |s|
  {
    if s == "" then []
    else
      var k := FirstBreak(s);
      if k == |s| then [s] else [s[..k]] + SplitLines(s[k + BreakWidth(s, k)..])
  }

  /** What becomes of one line of the text. */
  function Fragments(line: string): (r: seq<string>)
    ensures |r| > 0 && r[0] == line[..FirstBreak(line)]
  {
    FirstBreakJoin(line, "");
    SplitLines(line + "\n")
  }

  lemma FirstBreakIs(s: string, k: nat)
    requires k <= |s| && (k < |s| ==> IsBreak(s[k]))
    requires forall j :: 0 <= j < k ==> !IsBreak(s[j])
    ensures FirstBreak(s) == k
  {
  }

  lemma FirstBreakJoin(line: string, rest: string)
    ensures FirstBreak(line + "\n" + rest) == FirstBreak(line)
    ensures (line + "\n" + rest)[..FirstBreak(line)] == line[..FirstBreak(line)]
  {
    var s, k := line + "\n" + rest, FirstBreak(line);
    assert forall j :: 0 <= j < |line| ==> s[j] == line[j];
    assert s[|line|] == '\n';
    FirstBreakIs(s, k);
  }

  lemma SplitStep(s: string, k: nat)
    requires FirstBreak(s) == k < |s|
    ensures SplitLines(s) == [s[..k]] + SplitLines(s[k + BreakWidth(s, k)..])
  {
    hide IsBreak;
  }

  lemma NoLines()
    ensures SplitLines("") == []
  {
  }

  /** The end of a piece: a return and a line feed together, or one of the ten boundaries, or the end of the text. */
  predicate Ends(end: string, rest: string) {
    || (end == "" && rest == "")
    || end == "\r\n"
    || (|end| == 1 && end[0] in "\n\r\U{0B}\U{0C}\U{1C}\U{1D}\U{1E}\U{85}\U{2028}\U{2029}" && !(end == "\r" && "\n" <= rest))
  }

  predicate Unbroken(piece: string) {
    forall i :: 0 <= i < |piece| ==> piece[i] !in "\n\r\U{0B}\U{0C}\U{1C}\U{1D}\U{1E}\U{85}\U{2028}\U{2029}"
  }

  /** The text is the pieces, free of boundaries, each with its end. */
  ghost predicate CutInto(s: string, pieces: seq<string>)
    decreases |pieces|
  {
    if pieces == [] then s == ""
    else s != "" && Unbroken(pieces[0])
         && exists end, rest :: Ends(end, rest) && s == pieces[0] + end + rest && CutInto(rest, pieces[1..])
  }

  lemma BreaksAre()
    ensures forall c :: IsBreak(c) <==> c in "\n\r\U{0B}\U{0C}\U{1C}\U{1D}\U{1E}\U{85}\U{2028}\U{2029}"
  {
    var all := "\n\r\U{0B}\U{0C}\U{1C}\U{1D}\U{1E}\U{85}\U{2028}\U{2029}";
    assert all[0] == '\n' && all[1] == '\r' && all[2] == '\U{0B}' && all[3] == '\U{0C}' && all[4] == '\U{1C}';
    assert all[5] == '\U{1D}' && all[6] == '\U{1E}' && all[7] == '\U{85}' && all[8] == '\U{2028}' && all[9] == '\U{2029}';
  }

  /** A piece and its end determine where the text is cut first. */
  lemma CutFirst(s: string, piece: string, end: string, rest: string)
    requires s == piece + end + rest && s != "" && Unbroken(piece) && Ends(end, rest)
    ensures SplitLines(s) == [piece] + SplitLines(rest)
  {
    BreaksAre();
    var k := |piece|;
    assert forall j :: 0 <= j < k ==> s[j] == piece[j];
    hide IsBreak;
    if end == "" {
      assert s == piece;
      FirstBreakIs(s, k);
      assert SplitLines("") == [];
    } else {
      assert s[k] == end[0];
      FirstBreakIs(s, k);
      assert s[..k] == piece;
      assert BreakWidth(s, k) == |end| && s[k + |end|..] == rest by {
        hide FirstBreak, SplitLines;
        assert forall j :: 0 <= j < |rest| ==> s[k + |end| + j] == rest[j];
      }
    }
  }

  lemma {:induction false} CutsGive(s: string, pieces: seq<string>)
    requires CutInto(s, pieces)
    ensures SplitLines(s) == pieces
    decreases |pieces|
  {
    if pieces != [] {
      var end, rest :| Ends(end, rest) && s == pieces[0] + end + rest && CutInto(rest, pieces[1..]);
      hide SplitLines;
      CutFirst(s, pieces[0], end, rest);
      CutsGive(rest, pieces[1..]);
    }
  }

  lemma {:induction false} SplitIsCut(s: string)
    ensures CutInto(s, SplitLines(s))
    decreases |s|
  {
    if s != "" {
      hide SplitLines, CutInto;
      var piece, end, rest := FirstCut(s);
      CutFirst(s, piece, end, rest);
      SplitIsCut(rest);
      CutMore(s, piece, end, rest, SplitLines(rest));
    } else {
      assert SplitLines(s) == [];
    }
  }

  lemma CutMore(s: string, piece: string, end: string, rest: string, more: seq<string>)
    requires s == piece + end + rest && s != "" && Unbroken(piece) && Ends(end, rest) && CutInto(rest, more)
    ensures CutInto(s, [piece] + more)
  {
    assert ([piece] + more)[1..] == more && ([piece] + more)[0] == piece;
    hide Ends, Unbroken;
  }

  /** splitlines, exactly: the pieces that are free of boundaries and give the text with an end behind each. */
  lemma SplitLinesExactly(s: string, pieces: seq<string>)
    ensures SplitLines(s) == pieces <==> CutInto(s, pieces)
  {
    hide SplitLines, CutInto;
    SplitIsCut(s);
    if CutInto(s, pieces) {
      CutsGive(s, pieces);
    }
  }

  /** There is a first cut. */
  lemma FirstCut(s: string) returns (piece: string, end: string, rest: string)
    requires s != ""
    ensures s == piece + end + rest && Unbroken(piece) && Ends(end, rest) && |rest| < |s|
  {
    BreaksAre();
    var k := FirstBreak(s);
    var w := if k == |s| then 0 else BreakWidth(s, k);
    piece, end, rest := s[..k], s[k..k + w], s[k + w..];
  }

  /** A line feed always ends a fragment, so a text splits line by line. */
  lemma {:induction false} SplitJoin(line: string, rest: string)
    ensures SplitLines(line + "\n" + rest) == Fragments(line) + SplitLines(rest)
    decreases |line|
  {
    hide SplitLines, IsBreak, BreakWidth, FirstBreak;
    var s, t, k := line + "\n" + rest, line + "\n", FirstBreak(line);
    assert line + "\n" + "" == t;
    FirstBreakJoin(line, rest);
    FirstBreakJoin(line, "");
    NoLines();
    SplitStep(s, k);
    SplitStep(t, k);
    var w := BreakWidth(t, k);
    assert w == 1 || (w == 2 && k < |line|) by {
      hide FirstBreak;
      BreakAtEnd(line, k);
    }
    BreakAgrees(line, rest, k);
    if k + w <= |line| {
      assert s[k + w..] == line[k + w..] + "\n" + rest;
      assert t[k + w..] == line[k + w..] + "\n";
      SplitJoin(line[k + w..], rest);
    } else {
      assert s[k + w..] == rest;
      assert t[k + w..] == "";
    }
  }

  lemma BreakAtEnd(line: string, k: nat)
    requires k <= |line|
    ensures var w := BreakWidth(line + "\n", k); w == 1 || (w == 2 && k < |line|)
  {
  }

  lemma BreakAgrees(line: string, rest: string, k: nat)
    requires k <= |line|
    ensures BreakWidth(line + "\n" + rest, k) == BreakWidth(line + "\n", k)
  {
  }

  /** A line without boundaries stays whole. */
  lemma PlainFragments(line: string)
    requires FirstBreak(line) == |line|
    ensures Fragments(line) == [line]
  {
    FirstBreakJoin(line, "");
    var t := line + "\n";
    assert line + "\n" + "" == t;
    assert t[|line| + 1..] == "";
    assert SplitLines("") == [];
  }

  // ---------------------------------------------------------------- decimal numbers

  predicate IsDigit(c: char) {
    '0' <= c <= '9'
  }

  function DigitChar(d: nat): char
    requires d < 10
  {
    '0' + d as char
  }

  function Decimal(n: nat): (s: string)
    ensures s != "" && forall i :: 0 <= i < |s| ==> IsDigit(s[i])
  {
    if n < 10 then [DigitChar(n)] else Decimal(n / 10) + [DigitChar(n % 10)]
  }

  function Number(ds: string): nat
    requires forall i :: 0 <= i < |ds| ==> IsDigit(ds[i])
  {
    if ds == "" then 0
    else
      assert IsDigit(ds[|ds| - 1]);
      10 * Number(ds[..|ds| - 1]) + (ds[|ds| - 1] as int - '0' as int)
  }

  lemma {:induction false} NumberDecimal(n: nat)
    ensures Number(Decimal(n)) == n
  {
    if n < 10 {
      assert Decimal(n)[..0] == "";
    } else {
      NumberDecimal(n / 10);
      assert Decimal(n)[..|Decimal(n)| - 1] == Decimal(n / 10);
    }
  }

  /** How many leading digits. */
  function DigitRun(s: string): (k: nat)
    ensures k <= |s| && forall i :: 0 <= i < k ==> IsDigit(s[i])
    ensures k < |s| ==> !IsDigit(s[k])
  {
    if s == "" || !IsDigit(s[0]) then 0
    else
      var k := DigitRun(s[1..]);
      assert forall i :: 0 < i <= k && i < |s| ==> s[i] == s[1..][i - 1];
      k + 1
  }

  // ---------------------------------------------------------------- hunk headers

  /** A number and what follows it. */
  function TakeNumber(s: string): Option<(nat, string)> {
    var k := DigitRun(s);
    if k == 0 then None else Some((Number(s[..k]), s[k..]))
  }

  /** An optional comma and number. */
  function TakeCount(s: string): (Option<nat>, string) {
    if s != "" && s[0] == ',' && TakeNumber(s[1..]).Some?
    then (Some(TakeNumber(s[1..]).value.0), TakeNumber(s[1..]).value.1)
    else (None, s)
  }

  function Expect(prefix: string, s: string): Option<string> {
    if prefix <= s then Some(s[|prefix|..]) else None
  }

  function TakeRange(s: string): Option<((nat, Option<nat>), string)> {
    match TakeNumber(s)
    case None => None
    case Some((n, rest)) => var (count, rest') := TakeCount(rest); Some(((n, count), rest'))
  }

  /** Start and count of the new side, if the line begins like a hunk header. */
  function MatchHunk(s: string): Option<(nat, Option<nat>)> {
    match Expect("@@ -", s)
    case None => None
    case Some(a) => match TakeRange(a)
      case None => None
      case Some((_, b)) => match Expect(" +", b)
        case None => None
        case Some(c) => match TakeRange(c)
          case None => None
          case Some((range, d)) => if Expect(" @@", d).Some? then Some(range) else None
  }

  /** Git leaves out a count of one. */
  function PrintRange(start: nat, count: nat): string {
    if count == 1 then Decimal(start) else Decimal(start) + "," + Decimal(count)
  }

  function PrintHunkHeader(oldStart: nat, oldCount: nat, start: nat, count: nat, section: string): string {
    "@@ -" + PrintRange(oldStart, oldCount) + " +" + PrintRange(start, count) + " @@" + section
  }

  lemma NumberThen(n: nat, rest: string)
    requires rest != "" ==> !IsDigit(rest[0])
    ensures TakeNumber(Decimal(n) + rest) == Some((n, rest))
  {
    var s, ds := Decimal(n) + rest, Decimal(n);
    DigitRunIs(s, |ds|);
    assert s[..|ds|] == ds && s[|ds|..] == rest;
    NumberDecimal(n);
  }

  lemma DigitRunIs(s: string, k: nat)
    requires k <= |s| && (forall i :: 0 <= i < k ==> IsDigit(s[i])) && (k < |s| ==> !IsDigit(s[k]))
    ensures DigitRun(s) == k
  {
  }

  lemma RangeThen(start: nat, count: nat, rest: string)
    requires rest != "" && rest[0] == ' '
    ensures TakeRange(PrintRange(start, count) + rest) == Some(((start, if count == 1 then None else Some(count)), rest))
  {
    hide TakeNumber;
    if count == 1 {
      NumberThen(start, rest);
    } else {
      var tail := "," + (Decimal(count) + rest);
      assert PrintRange(start, count) + rest == Decimal(start) + tail;
      NumberThen(start, tail);
      assert tail[1..] == Decimal(count) + rest;
      NumberThen(count, rest);
    }
  }

  /** Reading back a printed header: the new side's start, and its count unless it is the omitted one. */
  lemma HeaderReadsBack(oldStart: nat, oldCount: nat, start: nat, count: nat, section: string)
    ensures MatchHunk(PrintHunkHeader(oldStart, oldCount, start, count, section))
            == Some((start, if count == 1 then None else Some(count)))
  {
    hide TakeRange, PrintRange;
    var d := " @@" + section;
    var c := PrintRange(start, count) + d;
    var b := " +" + c;
    var a := PrintRange(oldStart, oldCount) + b;
    var s := "@@ -" + a;
    assert PrintHunkHeader(oldStart, oldCount, start, count, section) == s;
    assert s[..4] == "@@ -" && s[4..] == a;
    RangeThen(oldStart, oldCount, b);
    assert b[..2] == " +" && b[2..] == c;
    RangeThen(start, count, d);
    assert d[..3] == " @@" && d[3..] == section;
  }

  // ---------------------------------------------------------------- which lines are hunk headers

  /** Digits, at least one. */
  predicate Digits(ds: string) {
    ds != "" && forall i :: 0 <= i < |ds| ==> '0' <= ds[i] <= '9'
  }

  /** Nothing, or a comma and digits. */
  predicate CountPart(cs: string) {
    cs == "" || (cs[0] == ',' && Digits(cs[1..]))
  }

  function CountIn(cs: string): Option<nat>
    requires CountPart(cs)
  {
    if cs == "" then None else Some(Number(cs[1..]))
  }

  /** The line is "@@ -" digits, perhaps a comma and digits, " +" the same, " @@" and whatever follows. */
  ghost predicate HunkForm(s: string, start: nat, count: Option<nat>) {
    exists o, oc, n, nc, rest ::
      Digits(o) && CountPart(oc) && Digits(n) && CountPart(nc) && s == HunkText(o, oc, n, nc, rest)
      && start == Number(n) && count == CountIn(nc)
  }

  function HunkText(o: string, oc: string, n: string, nc: string, rest: string): string {
    "@@ -" + (o + oc + (" +" + (n + nc + (" @@" + rest))))
  }

  lemma NumberAt(ds: string, rest: string)
    requires Digits(ds) && (rest != "" ==> !IsDigit(rest[0]))
    ensures TakeNumber(ds + rest) == Some((Number(ds), rest))
  {
    var s := ds + rest;
    DigitRunIs(s, |ds|);
    assert s[..|ds|] == ds && s[|ds|..] == rest;
  }

  lemma NumberParts(s: string) returns (ds: string)
    requires TakeNumber(s).Some?
    ensures Digits(ds) && s == ds + TakeNumber(s).value.1 && TakeNumber(s).value.0 == Number(ds)
  {
    ds := s[..DigitRun(s)];
  }

  lemma RangeAt(ds: string, cs: string, rest: string)
    requires Digits(ds) && CountPart(cs) && rest != "" && rest[0] == ' '
    ensures TakeRange(ds + cs + rest) == Some(((Number(ds), CountIn(cs)), rest))
  {
    hide TakeNumber;
    var tail := cs + rest;
    assert ds + cs + rest == ds + tail;
    NumberAt(ds, tail);
    if cs != "" {
      assert tail[1..] == cs[1..] + rest;
      NumberAt(cs[1..], rest);
    } else {
      assert tail == rest;
    }
  }

  lemma RangeParts(s: string) returns (ds: string, cs: string)
    requires TakeRange(s).Some?
    ensures Digits(ds) && CountPart(cs) && s == ds + cs + TakeRange(s).value.1
    ensures TakeRange(s).value.0 == (Number(ds), CountIn(cs))
  {
    hide TakeNumber, TakeCount, Digits, CountPart, CountIn, Number;
    ds := NumberParts(s);
    cs := CountParts(TakeNumber(s).value.1);
  }

  lemma CountParts(s: string) returns (cs: string)
    ensures CountPart(cs) && s == cs + TakeCount(s).1 && TakeCount(s).0 == CountIn(cs)
  {
    hide TakeNumber, Number;
    cs := "";
    if s != "" && s[0] == ',' && TakeNumber(s[1..]).Some? {
      var more := NumberParts(s[1..]);
      cs := "," + more;
      assert cs[1..] == more;
    }
  }

  lemma ExpectAt(prefix: string, rest: string)
    ensures Expect(prefix, prefix + rest) == Some(rest)
  {
    assert (prefix + rest)[..|prefix|] == prefix && (prefix + rest)[|prefix|..] == rest;
  }

  lemma ExpectParts(prefix: string, s: string)
    requires Expect(prefix, s).Some?
    ensures s == prefix + Expect(prefix, s).value
  {
  }

  lemma FormMatches(o: string, oc: string, n: string, nc: string, rest: string)
    requires Digits(o) && CountPart(oc) && Digits(n) && CountPart(nc)
    ensures MatchHunk(HunkText(o, oc, n, nc, rest)) == Some((Number(n), CountIn(nc)))
  {
    hide TakeRange, Expect, Digits, CountPart, Number;
    var d := " @@" + rest;
    var c := n + nc + d;
    var b := " +" + c;
    var a := o + oc + b;
    ExpectAt("@@ -", a);
    RangeAt(o, oc, b);
    ExpectAt(" +", c);
    RangeAt(n, nc, d);
    ExpectAt(" @@", rest);
  }

  lemma MatchHasForm(s: string) returns (o: string, oc: string, n: string, nc: string, rest: string)
    requires MatchHunk(s).Some?
    ensures Digits(o) && CountPart(oc) && Digits(n) && CountPart(nc) && s == HunkText(o, oc, n, nc, rest)
    ensures MatchHunk(s).value == (Number(n), CountIn(nc))
  {
    hide TakeRange, Expect, Digits, CountPart, Number;
    var a := Expect("@@ -", s).value;
    ExpectParts("@@ -", s);
    o, oc := RangeParts(a);
    var b := TakeRange(a).value.1;
    ExpectParts(" +", b);
    var c := Expect(" +", b).value;
    n, nc := RangeParts(c);
    var d := TakeRange(c).value.1;
    ExpectParts(" @@", d);
    rest := Expect(" @@", d).value;
  }

  /** The header pattern, exactly. */
  lemma MatchHunkExactly(s: string, start: nat, count: Option<nat>)
    ensures MatchHunk(s) == Some((start, count)) <==> HunkForm(s, start, count)
  {
    hide MatchHunk, HunkText;
    if MatchHunk(s) == Some((start, count)) {
      var o, oc, n, nc, rest := MatchHasForm(s);
    }
    if HunkForm(s, start, count) {
      var o, oc, n, nc, rest :| Digits(o) && CountPart(oc) && Digits(n) && CountPart(nc) && s == HunkText(o, oc, n, nc, rest)
        && start == Number(n) && count == CountIn(nc);
      FormMatches(o, oc, n, nc, rest);
    }
  }
}
