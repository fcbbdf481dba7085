// The text of src/lib/text-diff.js read back: the printed headers and line marks determine the hunks,
// so the text itself patches the old lines into the new ones.

module PatchText {
  import opened Text
  import opened LineDiff
  import opened UnifiedDiff

  // ---------------------------------------------------------------------------
  // Reading one header
  // ---------------------------------------------------------------------------

  function DigitRun(s: string): (n: nat)
    ensures n <= |s| && AllDigits(s[..n]) && (n < |s| ==> !IsDigit(s[n]))
  {
    if s == "" || !IsDigit(s[0]) then 0 else DigitRun(s[1..]) + 1
  }

  /** The number behind the prefix, and what follows it. */
  function NumberAfter(prefix: string, s: string): Option<(nat, string)> {
    if !(prefix <= s) then None
    else
      var rest := s[|prefix|..];
      var n := DigitRun(rest);
      if n == 0 then None else Some((Value(rest[..n]), rest[n..]))
  }

  datatype Header = Header(aStart: nat, aLen: nat, bStart: nat, bLen: nat)

  function ReadHeader(line: string): Option<Header> {
    match NumberAfter("@@ -", line)
    case None => None
    case Some((aStart, rest1)) =>
      match NumberAfter(",", rest1)
      case None => None
      case Some((aLen, rest2)) =>
        match NumberAfter(" +", rest2)
        case None => None
        case Some((bStart, rest3)) =>
          match NumberAfter(",", rest3)
          case None => None
          case Some((bLen, rest4)) => if rest4 == " @@" then Some(Header(aStart, aLen, bStart, bLen)) else None
  }

  lemma {:induction false} DigitRunOf(digits: string, rest: string)
    requires AllDigits(digits) && (rest == "" || !IsDigit(rest[0]))
    ensures DigitRun(digits + rest) == |digits|
  {
    if digits == "" {
      assert digits + rest == rest;
    } else {
      assert (digits + rest)[1..] == digits[1..] + rest;
      DigitRunOf(digits[1..], rest);
    }
  }

  lemma NumberBack(prefix: string, n: nat, rest: string)
    requires rest == "" || !IsDigit(rest[0])
    ensures NumberAfter(prefix, prefix + (Dec(n) + rest)) == Some((n, rest))
  {
    var s := prefix + (Dec(n) + rest);
    assert s[|prefix|..] == Dec(n) + rest;
    DigitRunOf(Dec(n), rest);
    ValueDec(n);
    assert (Dec(n) + rest)[..|Dec(n)|] == Dec(n) && (Dec(n) + rest)[|Dec(n)|..] == rest;
    hide Dec, Value, DigitRun;
  }

  lemma HeaderBack(h: Hunk)
    ensures ReadHeader(HeaderLine(h)) == Some(Header(h.aStart, h.aLen, h.bStart, h.bLen))
  {
    hide NumberAfter, Dec;
    var rest4 := " @@";
    var rest3 := "," + (Dec(h.bLen) + rest4);
    var rest2 := " +" + (Dec(h.bStart) + rest3);
    var rest1 := "," + (Dec(h.aLen) + rest2);
    NumberBack("@@ -", h.aStart, rest1);
    NumberBack(",", h.aLen, rest2);
    NumberBack(" +", h.bStart, rest3);
    NumberBack(",", h.bLen, rest4);
    assert HeaderLine(h) == "@@ -" + (Dec(h.aStart) + rest1);
  }

  // ---------------------------------------------------------------------------
  // Reading the hunks
  // ---------------------------------------------------------------------------

  function KindOf(line: string): Option<Kind> {
    if line == "" then None
    else if line[0] == ' ' then Some(Keep)
    else if line[0] == '-' then Some(Drop)
    else if line[0] == '+' then Some(Add)
    else None
  }

  /** The marked lines at the front, as script lines without numbers. */
  function ReadBody(lines: seq<string>): (r: (seq<DiffOp>, seq<string>))
    ensures |r.1| <= |lines|
  {
    if lines == [] || KindOf(lines[0]).None? then ([], lines)
    else
      var (ops, rest) := ReadBody(lines[1..]);
      ([DiffOp(KindOf(lines[0]).value, lines[0][1..], None, None)] + ops, rest)
  }

  function ReadHunks(lines: seq<string>): Option<seq<Hunk>>
    decreases |lines|
  {
    if lines == [] then Some([])
    else
      match ReadHeader(lines[0])
      case None => None
      case Some(h) =>
        var (body, rest) := ReadBody(lines[1..]);
        match ReadHunks(rest)
        case None => None
        case Some(hunks) => Some([Hunk(h.aStart, h.aLen, h.bStart, h.bLen, body)] + hunks)
  }

  /** A patch reader on the text: past the two name lines, the hunks are read and applied. */
  function PatchByText(text: string, a: Lines): Option<Lines> {
    if text == "" then Some(a)
    else
      var lines := Split(text, '\n');
      if |lines| < 2 then None
      else
        match ReadHunks(lines[2..])
        case None => None
        case Some(hunks) => Patch(hunks, a, 0, 0)
  }

  /** Script lines without their numbers, which the text does not show. */
  function Shown(ops: seq<DiffOp>): (r: seq<DiffOp>)
    ensures |r| == |ops|
  {
    if ops == [] then [] else [ops[0].(a := None, b := None)] + Shown(ops[1..])
  }

  function ShownHunks(hunks: seq<Hunk>): seq<Hunk> {
    if hunks == [] then [] else [hunks[0].(body := Shown(hunks[0].body))] + ShownHunks(hunks[1..])
  }

  lemma MarkBack(kind: Kind, line: string)
    ensures KindOf(Mark(kind) + line) == Some(kind) && (Mark(kind) + line)[1..] == line
  {
  }

  lemma ReadMarked(line: string, kind: Kind, tail: seq<string>)
    requires KindOf(line) == Some(kind)
    ensures ReadBody([line] + tail) == ([DiffOp(kind, line[1..], None, None)] + ReadBody(tail).0, ReadBody(tail).1)
  {
    hide KindOf;
    assert ([line] + tail)[1..] == tail;
  }

  lemma {:induction false} BodyBack(body: seq<DiffOp>, rest: seq<string>)
    requires rest == [] || KindOf(rest[0]).None?
    ensures ReadBody(RenderBody(body) + rest) == (Shown(body), rest)
  {
    hide KindOf, Mark;
    if body == [] {
      assert RenderBody(body) + rest == rest;
    } else {
      hide ReadBody;
      var line := Mark(body[0].kind) + body[0].line;
      MarkBack(body[0].kind, body[0].line);
      ReadMarked(line, body[0].kind, RenderBody(body[1..]) + rest);
      BodyBack(body[1..], rest);
      assert RenderBody(body) + rest == [line] + (RenderBody(body[1..]) + rest);
    }
  }

  lemma ReadFirst(line: string, tail: seq<string>, h: Header, body: seq<DiffOp>, rest: seq<string>, hunks: seq<Hunk>)
    requires ReadHeader(line) == Some(h) && ReadBody(tail) == (body, rest) && ReadHunks(rest) == Some(hunks)
    ensures ReadHunks([line] + tail) == Some([Hunk(h.aStart, h.aLen, h.bStart, h.bLen, body)] + hunks)
  {
    hide ReadHeader, ReadBody;
    assert ([line] + tail)[1..] == tail;
  }

  lemma RenderFirst(hunks: seq<Hunk>)
    requires hunks != []
    ensures Render(hunks) == [HeaderLine(hunks[0])] + (RenderBody(hunks[0].body) + Render(hunks[1..]))
  {
    hide HeaderLine, RenderBody;
  }

  /** The printed hunks are read back, line numbers of the script aside. */
  lemma {:induction false} HunksBack(hunks: seq<Hunk>)
    ensures ReadHunks(Render(hunks)) == Some(ShownHunks(hunks))
    ensures Render(hunks) == [] || KindOf(Render(hunks)[0]).None?
  {
    if hunks != [] {
      hide ReadHeader, ReadBody, HeaderLine, ReadHunks, Render, KindOf, RenderBody, Shown;
      var h, rest := hunks[0], Render(hunks[1..]);
      RenderFirst(hunks);
      HunksBack(hunks[1..]);
      HeaderBack(h);
      HeaderKind(h);
      BodyBack(h.body, rest);
      ReadFirst(HeaderLine(h), RenderBody(h.body) + rest, Header(h.aStart, h.aLen, h.bStart, h.bLen), Shown(h.body),
          rest,
                ShownHunks(hunks[1..]));
    }
  }

  lemma HeaderKind(h: Hunk)
    ensures KindOf(HeaderLine(h)).None?
  {
    assert HeaderLine(h)[0] == '@';
  }

  lemma {:induction false} ReplayShown(script: seq<DiffOp>, a: Lines)
    ensures Replay(Shown(script), a) == Replay(script, a)
    decreases script
  {
    if script != [] {
      assert Shown(script)[1..] == Shown(script[1..]);
      ReplayShown(script[1..], a);
      if a != [] {
        ReplayShown(script[1..], a[1..]);
      }
    }
  }

  /** The reader does not look at the numbers. */
  lemma {:induction false} PatchShown(hunks: seq<Hunk>, a: Lines, pos: nat, made: nat)
    requires pos <= |a|
    ensures Patch(ShownHunks(hunks), a, pos, made) == Patch(hunks, a, pos, made)
    decreases hunks
  {
    hide Shown, Replay;
    if hunks != [] {
      var h := hunks[0];
      var at := h.aStart as int - 1;
      assert ShownHunks(hunks)[1..] == ShownHunks(hunks[1..]);
      if pos <= at && at + h.aLen <= |a| {
        ReplayShown(h.body, a[at..at + h.aLen]);
        PatchShown(hunks[1..], a, at + h.aLen, made + (at - pos) + h.bLen);
      }
    }
  }

  // ---------------------------------------------------------------------------
  // The text
  // ---------------------------------------------------------------------------

  predicate OneLine(s: string) { '\n' !in s }

  predicate OneLineEach(lines: seq<string>) { forall i :: 0 <= i < |lines| ==> OneLine(lines[i]) }

  predicate OneLineOps(ops: seq<DiffOp>) { forall i :: 0 <= i < |ops| ==> OneLine(ops[i].line) }

  lemma {:induction false} BodyOneLine(body: seq<DiffOp>)
    requires OneLineOps(body)
    ensures OneLineEach(RenderBody(body))
  {
    if body != [] {
      assert OneLineOps(body[1..]);
      BodyOneLine(body[1..]);
    }
  }

  lemma DecOneLine(n: nat)
    ensures OneLine(Dec(n))
  {
    hide Dec;
  }

  lemma HeaderOneLine(h: Hunk)
    ensures OneLine(HeaderLine(h))
  {
    hide Dec;
    DecOneLine(h.aStart);
    DecOneLine(h.aLen);
    DecOneLine(h.bStart);
    DecOneLine(h.bLen);
  }

  predicate OneLineHunks(hunks: seq<Hunk>) { forall i :: 0 <= i < |hunks| ==> OneLineOps(hunks[i].body) }

  lemma {:induction false} RenderOneLine(hunks: seq<Hunk>)
    requires OneLineHunks(hunks)
    ensures OneLineEach(Render(hunks))
  {
    if hunks != [] {
      hide OneLineOps, OneLine, HeaderLine;
      assert OneLineHunks(hunks[1..]);
      RenderOneLine(hunks[1..]);
      BodyOneLine(hunks[0].body);
      HeaderOneLine(hunks[0]);
    }
  }

  /** Every line of a script is a line of one of its sides. */
  lemma {:induction false} LineInSides(ops: seq<DiffOp>, k: nat)
    requires k < |ops|
    ensures ops[k].line in OldSide(ops) || ops[k].line in NewSide(ops)
  {
    if k > 0 {
      LineInSides(ops[1..], k - 1);
    }
  }

  lemma DiffOneLine(a: Lines, b: Lines)
    requires OneLineEach(a) && OneLineEach(b)
    ensures OneLineOps(Diff(a, b))
  {
    hide OneLine, Diff, OldSide, NewSide;
    var ops := Diff(a, b);
    DiffIsShortest(a, b);
    ReplaySides(ops, a, b);
    forall k | 0 <= k < |ops| ensures OneLine(ops[k].line) {
      LineInSides(ops, k);
    }
  }

  lemma {:induction false} HunksOneLine(ops: seq<DiffOp>, spans: seq<Span>)
    requires OneLineOps(ops) && forall i :: 0 <= i < |spans| ==> spans[i].start < spans[i].end <= |ops|
    ensures OneLineHunks(HunksOf(ops, spans))
  {
    if spans != [] {
      HunksOneLine(ops, spans[1..]);
      HunkBody(ops, spans[0].start, spans[0].end);
      hide HunkOf, OneLine;
    }
  }

  lemma SplitOneLine(text: string)
    ensures OneLineEach(ToLines(text))
  {
    hide Split;
  }

  /** A text of two name lines and printed hunks patches as its hunks do. */
  lemma TextAsHunks(hunks: seq<Hunk>, from: string, to: string, a: Lines)
    requires OneLineHunks(hunks) && OneLine(from) && OneLine(to)
    ensures PatchByText(Join(["--- " + from, "+++ " + to] + Render(hunks), '\n'), a) == Patch(hunks, a, 0, 0)
  {
    hide Split, Join, Render, ReadHunks, Patch, OneLineHunks;
    var names := ["--- " + from, "+++ " + to];
    var lines := names + Render(hunks);
    RenderOneLine(hunks);
    HunksBack(hunks);
    PatchShown(hunks, a, 0, 0);
    assert OneLineEach(names);
    SplitJoin(lines, '\n');
    NotEmpty(lines);
    assert lines[2..] == Render(hunks);
  }

  lemma NotEmpty(lines: seq<string>)
    requires lines != [] && lines[0] != ""
    ensures Join(lines, '\n') != ""
  {
  }

  /**
   * The text that unifiedDiff gives for two texts, read back and applied to the lines of the old
   * one, gives the lines of the new one exactly for a context of at least one line or without a
   * bare tail; else the reader rejects it.
   */
  lemma TextPatches(oldText: string, newText: string, context: nat, from: string, to: string, spans: seq<Span>,
      text: string)
    requires OneLine(from) && OneLine(to)
    requires ValidSpans(Diff(ToLines(oldText), ToLines(newText)), context, spans,
             |Diff(ToLines(oldText), ToLines(newText))|)
    requires forall i :: 0 <= i < |spans| ==>
               spans[i].start < spans[i].end <= |Diff(ToLines(oldText), ToLines(newText))|
    requires text == (if ToLines(oldText) == ToLines(newText) then ""
                      else Join(["--- " + from, "+++ " + to]
                                + Render(HunksOf(Diff(ToLines(oldText), ToLines(newText)), spans)), '\n'))
    ensures var a, b := ToLines(oldText), ToLines(newText);
            PatchByText(text, a) == if context >= 1 || !BareTail(Diff(a, b)) then Some(b) else None
  {
    hide ToLines, Diff, Render, Join, PatchByText, Patch, HunksOf, BareTail, ValidSpans;
    var a, b := ToLines(oldText), ToLines(newText);
    if a == b {
      NoTailWhenEqual(a);
      EmptyText(a);
    } else {
      SplitOneLine(oldText);
      SplitOneLine(newText);
      DiffOneLine(a, b);
      HunksOneLine(Diff(a, b), spans);
      TextAsHunks(HunksOf(Diff(a, b), spans), from, to, a);
      HunksPatch(a, b, context, spans);
    }
  }

  lemma EmptyText(a: Lines)
    ensures PatchByText("", a) == Some(a)
  {
  }

  lemma NoTailWhenEqual(a: Lines)
    ensures !BareTail(Diff(a, a))
  {
    EqualIffNoChanges(a, a);
    NoChanges(Diff(a, a));
    hide Diff, Changes;
  }
}
