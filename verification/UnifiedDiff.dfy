// Hunks of src/lib/text-diff.js: changes of a line diff grouped with context lines, headed by
// positions, and readable as a patch.

module UnifiedDiff {
  import opened Text
  import opened LineDiff

  // ---------------------------------------------------------------------------
  // Texts and their lines
  // ---------------------------------------------------------------------------

  /** A text's lines, without the empty one a trailing newline would produce. */
  function ToLines(text: string): Lines {
    if text == "" then []
    else
      var lines := Split(text, '\n');
      if lines[|lines| - 1] == "" then lines[..|lines| - 1] else lines
  }

  // ---------------------------------------------------------------------------
  // Both sides of a script
  // ---------------------------------------------------------------------------

  function OldSide(ops: seq<DiffOp>): Lines {
    if ops == [] then [] else (if ops[0].kind == Add then [] else [ops[0].line]) + OldSide(ops[1..])
  }

  function NewSide(ops: seq<DiffOp>): Lines {
    if ops == [] then [] else (if ops[0].kind == Drop then [] else [ops[0].line]) + NewSide(ops[1..])
  }

  /** A script turns `a` into `b` exactly when these are its two sides. */
  lemma {:induction false} ReplaySides(ops: seq<DiffOp>, a: Lines, b: Lines)
    ensures Replay(ops, a) == Some(b) <==> a == OldSide(ops) && b == NewSide(ops)
    decreases ops
  {
    if ops != [] {
      var op := ops[0];
      if op.kind == Add {
        if b != [] && b[0] == op.line {
          ReplaySides(ops[1..], a, b[1..]);
          assert [op.line] + b[1..] == b;
        }
        if Replay(ops, a) == Some(b) {
          assert b == [op.line] + Replay(ops[1..], a).value;
        }
      } else if a != [] && a[0] == op.line {
        assert [op.line] + a[1..] == a;
        if op.kind == Keep {
          if b != [] && b[0] == op.line {
            ReplaySides(ops[1..], a[1..], b[1..]);
            assert [op.line] + b[1..] == b;
          }
          if Replay(ops, a) == Some(b) {
            assert b == [op.line] + Replay(ops[1..], a[1..]).value;
          }
        } else {
          ReplaySides(ops[1..], a[1..], b);
        }
      }
    }
  }

  lemma {:induction false} OldSideAppend(x: seq<DiffOp>, y: seq<DiffOp>)
    ensures OldSide(x + y) == OldSide(x) + OldSide(y)
  {
    if x == [] {
      assert x + y == y;
    } else {
      assert (x + y)[1..] == x[1..] + y && (x + y)[0] == x[0];
      OldSideAppend(x[1..], y);
    }
  }

  lemma {:induction false} NewSideAppend(x: seq<DiffOp>, y: seq<DiffOp>)
    ensures NewSide(x + y) == NewSide(x) + NewSide(y)
  {
    if x == [] {
      assert x + y == y;
    } else {
      assert (x + y)[1..] == x[1..] + y && (x + y)[0] == x[0];
      NewSideAppend(x[1..], y);
    }
  }

  lemma SidesAppend(x: seq<DiffOp>, y: seq<DiffOp>)
    ensures OldSide(x + y) == OldSide(x) + OldSide(y)
    ensures NewSide(x + y) == NewSide(x) + NewSide(y)
  {
    OldSideAppend(x, y);
    NewSideAppend(x, y);
  }

  lemma {:induction false} SidesLength(ops: seq<DiffOp>, k: nat)
    requires k <= |ops|
    ensures |OldSide(ops[..k])| == PosA(ops, k) && |NewSide(ops[..k])| == PosB(ops, k)
  {
    if k == 0 {
      assert ops[..0] == [];
    } else {
      SidesLength(ops, k - 1);
      assert ops[..k] == ops[..k - 1] + [ops[k - 1]];
      SidesAppend(ops[..k - 1], [ops[k - 1]]);
      assert [ops[k - 1]][1..] == [];
    }
  }

  /** The lines a stretch of the script reads and writes are the slices of both sides between its positions. */
  lemma SideSlice(ops: seq<DiffOp>, k: nat, l: nat)
    requires k <= l <= |ops|
    ensures PosA(ops, k) <= PosA(ops, l) <= |OldSide(ops)| && PosB(ops, k) <= PosB(ops, l) <= |NewSide(ops)|
    ensures OldSide(ops)[PosA(ops, k)..PosA(ops, l)] == OldSide(ops[k..l])
    ensures NewSide(ops)[PosB(ops, k)..PosB(ops, l)] == NewSide(ops[k..l])
  {
    hide OldSide, NewSide, PosA, PosB;
    SidesLength(ops, k);
    SidesLength(ops, l);
    ThreeParts(ops, k, l);
    MiddleSlice(OldSide(ops[..k]), OldSide(ops[k..l]), OldSide(ops[l..]));
    MiddleSlice(NewSide(ops[..k]), NewSide(ops[k..l]), NewSide(ops[l..]));
  }

  lemma ThreeParts(ops: seq<DiffOp>, k: nat, l: nat)
    requires k <= l <= |ops|
    ensures OldSide(ops[..l]) == OldSide(ops[..k]) + OldSide(ops[k..l])
    ensures OldSide(ops) == OldSide(ops[..l]) + OldSide(ops[l..])
    ensures NewSide(ops[..l]) == NewSide(ops[..k]) + NewSide(ops[k..l])
    ensures NewSide(ops) == NewSide(ops[..l]) + NewSide(ops[l..])
  {
    hide OldSide, NewSide;
    assert ops == ops[..l] + ops[l..];
    assert ops[..l] == ops[..k] + ops[k..l];
    SidesAppend(ops[..l], ops[l..]);
    SidesAppend(ops[..k], ops[k..l]);
  }

  lemma MiddleSlice(x: Lines, y: Lines, z: Lines)
    ensures (x + y + z)[|x|..|x + y|] == y
  {
  }

  predicate Kept(ops: seq<DiffOp>, k: nat, l: nat)
    requires k <= l <= |ops|
  {
    forall i :: k <= i < l ==> ops[i].kind == Keep
  }

  lemma {:induction false} KeptSides(ops: seq<DiffOp>)
    requires Kept(ops, 0, |ops|)
    ensures OldSide(ops) == NewSide(ops)
  {
    if ops != [] {
      KeptSides(ops[1..]);
    }
  }

  // ---------------------------------------------------------------------------
  // Spans: which script lines a hunk holds
  // ---------------------------------------------------------------------------

  /** The script lines [start, end) with the first and last change among them. */
  datatype Span = Span(start: nat, end: nat, first: nat, last: nat)

  function Min(x: nat, y: nat): nat { if x <= y then x else y }

  /** The two changes follow each other, with only kept lines between. */
  predicate NextChange(ops: seq<DiffOp>, k: nat, m: nat)
    requires k < m < |ops|
  {
    ops[k].kind != Keep && ops[m].kind != Keep && Kept(ops, k + 1, m)
  }

  /**
   * A hunk's span: `context` lines around its first and last change (fewer only at the script's
   * ends), and between changes inside it fewer than twice the context.
   */
  ghost predicate ValidSpan(ops: seq<DiffOp>, context: nat, s: Span) {
    s.first <= s.last < |ops| && ops[s.first].kind != Keep && ops[s.last].kind != Keep &&
    s.start == (if s.first >= context then s.first - context else 0) &&
    s.end == Min(|ops|, s.last + 1 + context) &&
    Kept(ops, s.start, s.first) && Kept(ops, s.last + 1, s.end) &&
    forall k, m :: s.first <= k < m <= s.last && NextChange(ops, k, m) ==> m == k + 1 || m - k - 1 < 2 * context
  }

  /** Consecutive hunks: disjoint, in order, at least twice the context of kept lines between their changes. */
  ghost predicate Apart(ops: seq<DiffOp>, context: nat, s: Span, t: Span) {
    s.end <= t.start && s.last + 1 + 2 * context <= t.first < |ops| && s.last + 1 < t.first &&
    Kept(ops, s.last + 1, t.first)
  }

  /** The spans found up to script line `upTo`: every line outside them is kept. */
  ghost predicate ValidSpans(ops: seq<DiffOp>, context: nat, spans: seq<Span>, upTo: nat) {
    upTo <= |ops| &&
    (forall i :: 0 <= i < |spans| ==> ValidSpan(ops, context, spans[i])) &&
    (forall i :: 0 < i < |spans| ==> Apart(ops, context, spans[i - 1], spans[i])) &&
    (if spans == [] then Kept(ops, 0, upTo)
     else
       Kept(ops, 0, spans[0].first) && spans[|spans| - 1].end <= upTo &&
       spans[|spans| - 1].last < upTo && Kept(ops, spans[|spans| - 1].last + 1, upTo))
  }

  /** A changed line lies outside every kept stretch. */
  lemma NotKept(ops: seq<DiffOp>, k: nat, l: nat, i: nat)
    requires k <= l <= |ops| && i < |ops| && ops[i].kind != Keep
    ensures Kept(ops, k, l) ==> i < k || l <= i
  {
  }

  /** The inner loop: extend the hunk that starts with the change at `idx` while the next change is near. */
  method HunkEnd(ops: seq<DiffOp>, context: nat, idx: nat) returns (end: nat, next: nat)
    requires idx < |ops| && ops[idx].kind != Keep
    ensures idx < next <= |ops| && ops[next - 1].kind != Keep
    ensures end == Min(|ops|, next + context) && Kept(ops, next, end)
    ensures next + 2 * context <= |ops| ==> Kept(ops, next, next + 2 * context)
    ensures next + 2 * context > |ops| ==> Kept(ops, next, |ops|)
    ensures next < |ops| ==> ops[next].kind == Keep
    ensures forall k, m :: idx <= k < m < next && NextChange(ops, k, m) ==> m == k + 1 || m - k - 1 < 2 * context
  {
    end := idx;
    while true
      invariant idx <= end < |ops| && ops[end].kind != Keep
      invariant forall k, m :: idx <= k < m <= end && NextChange(ops, k, m) ==> m == k + 1 || m - k - 1 < 2 * context
      decreases |ops| - end
    {
      next := end;
      while next < |ops| && ops[next].kind != Keep
        invariant end <= next <= |ops|
        invariant forall i :: end <= i < next ==> ops[i].kind != Keep
      {
        next := next + 1;
      }
      var gap := next;
      while gap < |ops| && ops[gap].kind == Keep && gap - next < 2 * context
        invariant next <= gap <= |ops| && gap - next <= 2 * context
        invariant Kept(ops, next, gap)
      {
        gap := gap + 1;
      }
      forall k, m | idx <= k < m < next && NextChange(ops, k, m) ensures m == k + 1 || m - k - 1 < 2 * context {
        NotKept(ops, k + 1, m, end);
        if k >= end {
          NotKept(ops, k + 1, m, k + 1);
        }
      }
      if gap < |ops| && ops[gap].kind != Keep && gap - next < 2 * context {
        forall k, m | idx <= k < m <= gap && NextChange(ops, k, m) ensures m == k + 1 || m - k - 1 < 2 * context {
          NotKept(ops, k + 1, m, next - 1);
          NotKept(ops, next, gap, m);
        }
        end := gap;
        continue;
      }
      end := Min(|ops|, next + context);
      return;
    }
  }

  /** The last span of a list keeps its distance from whatever change comes next. */
  ghost predicate Quiet(ops: seq<DiffOp>, context: nat, spans: seq<Span>) {
    spans != [] ==>
      var last := spans[|spans| - 1].last;
      last < |ops| && Kept(ops, last + 1, Min(|ops|, last + 1 + 2 * context))
          && (last + 1 < |ops| ==> ops[last + 1].kind == Keep)
  }

  lemma AppendSpan(ops: seq<DiffOp>, context: nat, spans: seq<Span>, idx: nat, span: Span)
    requires ValidSpans(ops, context, spans, idx) && Quiet(ops, context, spans)
    requires idx < |ops| && span.first == idx && ValidSpan(ops, context, span)
    ensures ValidSpans(ops, context, spans + [span], span.end)
  {
    var all := spans + [span];
    if spans != [] {
      var prev := spans[|spans| - 1];
      NotKept(ops, prev.last + 1, Min(|ops|, prev.last + 1 + 2 * context), idx);
      assert Apart(ops, context, prev, span);
    }
    forall i | 0 < i < |all| ensures Apart(ops, context, all[i - 1], all[i]) {
      if i < |spans| {
        assert all[i - 1] == spans[i - 1] && all[i] == spans[i];
      }
    }
  }

  lemma SkipKept(ops: seq<DiffOp>, context: nat, spans: seq<Span>, idx: nat)
    requires ValidSpans(ops, context, spans, idx) && idx < |ops| && ops[idx].kind == Keep
    ensures ValidSpans(ops, context, spans, idx + 1)
  {
  }

  /** One hunk: from the change at `idx` to where the next change is far enough away. */
  method NextSpan(ops: seq<DiffOp>, context: nat, ghost spans: seq<Span>, idx: nat) returns (span: Span)
    requires ValidSpans(ops, context, spans, idx) && Quiet(ops, context, spans)
    requires idx < |ops| && ops[idx].kind != Keep
    ensures idx < span.end && span.first == idx
    ensures ValidSpans(ops, context, spans + [span], span.end) && Quiet(ops, context, spans + [span])
  {
    hide Apart, ValidSpans;
    var start := if idx >= context then idx - context else 0;
    var end, next := HunkEnd(ops, context, idx);
    span := Span(start, end, idx, next - 1);
    StartKept(ops, context, spans, idx);
    AppendSpan(ops, context, spans, idx, span);
  }

  method HunkSpans(ops: seq<DiffOp>, context: nat) returns (spans: seq<Span>)
    ensures ValidSpans(ops, context, spans, |ops|)
  {
    spans := [];
    var idx := 0;
    while idx < |ops|
      invariant idx <= |ops|
      invariant ValidSpans(ops, context, spans, idx) && Quiet(ops, context, spans)
      decreases |ops| - idx
    {
      if ops[idx].kind == Keep {
        SkipKept(ops, context, spans, idx);
        idx := idx + 1;
        continue;
      }
      var span := NextSpan(ops, context, spans, idx);
      spans := spans + [span];
      idx := span.end;
    }
  }

  /** The lines a hunk takes in front of its first change are kept ones. */
  lemma StartKept(ops: seq<DiffOp>, context: nat, spans: seq<Span>, idx: nat)
    requires ValidSpans(ops, context, spans, idx) && Quiet(ops, context, spans)
    requires idx < |ops| && ops[idx].kind != Keep
    ensures Kept(ops, if idx >= context then idx - context else 0, idx)
  {
  }

  // ---------------------------------------------------------------------------
  // Headers
  // ---------------------------------------------------------------------------

  datatype Hunk = Hunk(aStart: nat, aLen: nat, bStart: nat, bLen: nat, body: seq<DiffOp>)

  /** `hunk.find((o) => o.a !== undefined)?.a` */
  function FindA(body: seq<DiffOp>): Option<nat> {
    if body == [] then None else if body[0].a.Some? then body[0].a else FindA(body[1..])
  }

  function FindB(body: seq<DiffOp>): Option<nat> {
    if body == [] then None else if body[0].b.Some? then body[0].b else FindB(body[1..])
  }

  /** `aIndexBefore(ops, k)` */
  function AIndexBefore(ops: seq<DiffOp>, k: nat): nat
    requires k <= |ops|
  {
    if k == 0 then 0 else if ops[k - 1].a.Some? then ops[k - 1].a.value + 1 else AIndexBefore(ops, k - 1)
  }

  function BIndexBefore(ops: seq<DiffOp>, k: nat): nat
    requires k <= |ops|
  {
    if k == 0 then 0 else if ops[k - 1].b.Some? then ops[k - 1].b.value + 1 else BIndexBefore(ops, k - 1)
  }

  lemma {:induction false} CountBound(body: seq<DiffOp>, kind: Kind)
    ensures Count(body, kind) <= |body|
  {
    if body != [] {
      CountBound(body[1..], kind);
    }
  }

  /** `hunk.filter((o) => o.kind !== kind).length` */
  function NotOf(body: seq<DiffOp>, kind: Kind): nat {
    CountBound(body, kind);
    |body| - Count(body, kind)
  }

  /** The hunk over the script lines [start, end). */
  function HunkOf(ops: seq<DiffOp>, start: nat, end: nat): Hunk
    requires start < end <= |ops|
  {
    var body := ops[start..end];
    var a := match FindA(body)
             case Some(x) => x
             case None => if body[0].b.Some? then AIndexBefore(ops, start) else 0;
    var b := match FindB(body)
             case Some(x) => x
             case None => BIndexBefore(ops, start);
    Hunk(a + 1, NotOf(body, Add), b + 1, NotOf(body, Drop), body)
  }

  /**
   * The header says how many lines the hunk has on each side and where on each it starts: one more
   * than the lines before it, also where it has no lines. (The unified format names the line before
   * an empty range instead; `StandardHeadersExactly` says when the two agree.)
   */
  predicate TrueHeader(ops: seq<DiffOp>, start: nat, h: Hunk)
    requires start <= |ops|
  {
    h.aStart == PosA(ops, start) + 1 && h.bStart == PosB(ops, start) + 1 &&
    h.aLen == |OldSide(h.body)| && h.bLen == |NewSide(h.body)|
  }

  lemma {:induction false} SideCounts(body: seq<DiffOp>)
    ensures |OldSide(body)| == |body| - Count(body, Add) && |NewSide(body)| == |body| - Count(body, Drop)
  {
    if body != [] {
      SideCounts(body[1..]);
    }
  }

  /** The first numbered line at or after `k` carries the position of `k`. */
  lemma {:induction false} FindNumbered(ops: seq<DiffOp>, walked: nat, k: nat, end: nat)
    requires NumberedFrom(ops, 0, 0, walked) && k <= end <= |ops|
    ensures FindA(ops[k..end]).Some? ==> FindA(ops[k..end]).value == PosA(ops, k) && k < walked
    ensures FindB(ops[k..end]).Some? ==> FindB(ops[k..end]).value == PosB(ops, k) && k < walked
    decreases end - k
  {
    if k < end {
      assert ops[k..end][1..] == ops[k + 1..end];
      FindNumbered(ops, walked, k + 1, end);
      if k < walked {
        assert NumberedAt(ops, 0, 0, k);
      } else {
        assert TailAt(ops, k);
      }
    }
  }

  /** Up to the unnumbered tail, the last number before `k` gives the position of `k`. */
  lemma {:induction false} IndexBefore(ops: seq<DiffOp>, walked: nat, k: nat)
    requires NumberedFrom(ops, 0, 0, walked) && k <= walked
    ensures AIndexBefore(ops, k) == PosA(ops, k) && BIndexBefore(ops, k) == PosB(ops, k)
  {
    if k > 0 {
      assert NumberedAt(ops, 0, 0, k - 1);
      IndexBefore(ops, walked, k - 1);
    }
  }

  /**
   * A hunk that does not start beyond the numbered part has a true header unless it starts right
   * with the unnumbered tail and old lines stand before it.
   */
  lemma HeaderExactly(ops: seq<DiffOp>, walked: nat, start: nat, end: nat)
    requires NumberedFrom(ops, 0, 0, walked) && start < end <= |ops| && start <= walked
    ensures TrueHeader(ops, start, HunkOf(ops, start, end)) <==> start < walked || PosA(ops, start) == 0
  {
    var body := ops[start..end];
    SideCounts(body);
    FindNumbered(ops, walked, start, end);
    IndexBefore(ops, walked, start);
    if start < walked {
      assert NumberedAt(ops, 0, 0, start);
      assert FindA(body).None? ==> body[0].b.Some?;
    } else {
      assert TailAt(ops, start);
    }
  }

  /** The diff's unnumbered tail directly follows a kept line. */
  predicate BareTail(ops: seq<DiffOp>) {
    exists k :: 0 < k < |ops| && ops[k - 1].kind == Keep && ops[k].kind != Keep && ops[k].a.None? && ops[k].b.None?
  }

  lemma PosAfterKeep(ops: seq<DiffOp>, k: nat)
    requires 0 < k <= |ops| && ops[k - 1].kind == Keep
    ensures PosA(ops, k) > 0
  {
  }

  /** A line is numbered exactly if it stands before the tail; a kept line always is. */
  lemma NumberedLine(ops: seq<DiffOp>, walked: nat, k: nat)
    requires NumberedFrom(ops, 0, 0, walked) && k < |ops|
    ensures k < walked <==> ops[k].a.Some? || ops[k].b.Some?
    ensures ops[k].kind == Keep ==> k < walked
  {
    if k < walked {
      assert NumberedAt(ops, 0, 0, k);
    } else {
      assert TailAt(ops, k);
    }
  }

  /** A bare tail starts where the numbered part ends. */
  lemma BareTailStart(ops: seq<DiffOp>, walked: nat)
    requires NumberedFrom(ops, 0, 0, walked)
    ensures BareTail(ops) <==> 0 < walked < |ops| && ops[walked - 1].kind == Keep
  {
    if BareTail(ops) {
      var k :| 0 < k < |ops| && ops[k - 1].kind == Keep && ops[k].kind != Keep && ops[k].a.None? && ops[k].b.None?;
      NumberedLine(ops, walked, k);
      NumberedLine(ops, walked, k - 1);
    }
    if 0 < walked < |ops| && ops[walked - 1].kind == Keep {
      assert TailAt(ops, walked);
    }
  }

  /** Where a hunk starts: at the script's start, at a kept line, or (context 0) right after one. */
  lemma SpanStart(ops: seq<DiffOp>, walked: nat, context: nat, spans: seq<Span>, i: nat)
    requires NumberedFrom(ops, 0, 0, walked) && ValidSpans(ops, context, spans, |ops|) && i < |spans|
    ensures spans[i].start < spans[i].end <= |ops| && spans[i].start <= walked
    ensures spans[i].start == walked ==> spans[i].start == 0 || (context == 0 && ops[walked - 1].kind == Keep)
  {
    var s := spans[i];
    assert ValidSpan(ops, context, s);
    if context > 0 && s.start > 0 {
      NumberedLine(ops, walked, s.start);
    } else if s.start > 0 {
      if i > 0 {
        assert Apart(ops, context, spans[i - 1], s);
      }
      assert ops[s.start - 1].kind == Keep;
      NumberedLine(ops, walked, s.start - 1);
    }
  }

  /** With context 0, a bare tail is a hunk of its own. */
  lemma BareTailIsAHunk(ops: seq<DiffOp>, walked: nat, spans: seq<Span>) returns (i: nat)
    requires NumberedFrom(ops, 0, 0, walked) && ValidSpans(ops, 0, spans, |ops|)
    requires 0 < walked < |ops| && ops[walked - 1].kind == Keep
    ensures i < |spans| && spans[i].start == walked && i == |spans| - 1
  {
    assert TailAt(ops, walked);
    assert spans != [] by {
      NotKept(ops, 0, |ops|, walked);
    }
    i := |spans| - 1;
    var s := spans[i];
    assert ValidSpan(ops, 0, s);
    assert s.last == |ops| - 1 by {
      assert TailAt(ops, |ops| - 1);
      NotKept(ops, s.last + 1, |ops|, |ops| - 1);
    }
    if s.first < walked {
      // the kept line before the tail would lie between two changes of the hunk
      var k := LastChange(ops, s.first, walked - 1);
      assert NextChange(ops, k, walked);
    }
    SpanStart(ops, walked, 0, spans, i);
  }

  lemma {:induction false} LastChange(ops: seq<DiffOp>, first: nat, k: nat) returns (c: nat)
    requires first <= k < |ops| && ops[first].kind != Keep
    ensures first <= c <= k && ops[c].kind != Keep && Kept(ops, c + 1, k + 1)
    decreases k - first
  {
    if ops[k].kind != Keep {
      c := k;
    } else {
      c := LastChange(ops, first, k - 1);
    }
  }

  ghost predicate TrueHeaders(ops: seq<DiffOp>, spans: seq<Span>)
    requires forall i :: 0 <= i < |spans| ==> spans[i].start < spans[i].end <= |ops|
  {
    forall i :: 0 <= i < |spans| ==> TrueHeader(ops, spans[i].start, HunkOf(ops, spans[i].start, spans[i].end))
  }

  /**
   * Every header of a diff is true, for any context of at least one line; without context exactly
   * when the diff has no unnumbered tail right after a kept line.
   */
  lemma HeadersExactly(ops: seq<DiffOp>, walked: nat, context: nat, spans: seq<Span>)
    requires NumberedFrom(ops, 0, 0, walked) && ValidSpans(ops, context, spans, |ops|)
    ensures forall i :: 0 <= i < |spans| ==> spans[i].start < spans[i].end <= |ops|
    ensures TrueHeaders(ops, spans) <==> context >= 1 || !BareTail(ops)
  {
    forall i | 0 <= i < |spans| ensures spans[i].start < spans[i].end <= |ops| {
      SpanStart(ops, walked, context, spans, i);
    }
    BareTailStart(ops, walked);
    forall i | 0 <= i < |spans|
      ensures TrueHeader(ops, spans[i].start, HunkOf(ops, spans[i].start, spans[i].end)) <==>
              spans[i].start < walked || spans[i].start == 0
    {
      var s := spans[i];
      SpanStart(ops, walked, context, spans, i);
      HeaderExactly(ops, walked, s.start, s.end);
      if s.start == walked && s.start > 0 {
        PosAfterKeep(ops, walked);
      }
    }
    if context == 0 && BareTail(ops) {
      var i := BareTailIsAHunk(ops, walked, spans);
    }
    forall i | 0 <= i < |spans| && (context >= 1 || !BareTail(ops))
      ensures spans[i].start < walked || spans[i].start == 0
    {
      SpanStart(ops, walked, context, spans, i);
      assert ValidSpan(ops, context, spans[i]);
    }
  }

  // ---------------------------------------------------------------------------
  // Reading the hunks as a patch
  // ---------------------------------------------------------------------------

  /**
   * What a reader of the patch does: with `pos` old lines read and `made` new lines written, copy
   * up to the next hunk, check its header, replay its body, go on behind it.
   */
  function Patch(hunks: seq<Hunk>, a: Lines, pos: nat, made: nat): Option<Lines>
    requires pos <= |a|
    decreases hunks
  {
    if hunks == [] then Some(a[pos..])
    else
      var h := hunks[0];
      var at := h.aStart as int - 1;
      if at < pos || at + h.aLen > |a| || h.bStart as int - 1 != made + (at - pos) then None
      else
        match Replay(h.body, a[at..at + h.aLen])
        case None => None
        case Some(new_) =>
          if |new_| != h.bLen then None
          else
            match Patch(hunks[1..], a, at + h.aLen, made + (at - pos) + h.bLen)
            case None => None
            case Some(rest) => Some(a[pos..at] + new_ + rest)
  }

  function HunksOf(ops: seq<DiffOp>, spans: seq<Span>): (hunks: seq<Hunk>)
    requires forall i :: 0 <= i < |spans| ==> spans[i].start < spans[i].end <= |ops|
  {
    if spans == [] then [] else [HunkOf(ops, spans[0].start, spans[0].end)] + HunksOf(ops, spans[1..])
  }

  /** From script line `k` on: spans in order, with true headers and only kept lines outside them. */
  ghost predicate Chain(ops: seq<DiffOp>, spans: seq<Span>, k: nat)
    decreases spans
  {
    k <= |ops| &&
    if spans == [] then Kept(ops, k, |ops|)
    else
      var s := spans[0];
      k <= s.start < s.end <= |ops| && Kept(ops, k, s.start) &&
      TrueHeader(ops, s.start, HunkOf(ops, s.start, s.end)) &&
      Chain(ops, spans[1..], s.end)
  }

  lemma {:induction false} ChainOf(ops: seq<DiffOp>, context: nat, spans: seq<Span>, i: nat)
    requires ValidSpans(ops, context, spans, |ops|) && i < |spans|
    requires forall i :: 0 <= i < |spans| ==> spans[i].start < spans[i].end <= |ops|
    requires TrueHeaders(ops, spans)
    ensures Chain(ops, spans[i + 1..], spans[i].end)
    decreases |spans| - i
  {
    assert ValidSpan(ops, context, spans[i]);
    if i + 1 < |spans| {
      assert Apart(ops, context, spans[i], spans[i + 1]) by {
        assert Apart(ops, context, spans[(i + 1) - 1], spans[i + 1]);
      }
      ChainOf(ops, context, spans, i + 1);
      assert spans[i + 1..][0] == spans[i + 1] && spans[i + 1..][1..] == spans[i + 2..];
      assert ValidSpan(ops, context, spans[i + 1]);
    }
  }

  /** Hunks with true headers that leave only kept lines between them patch one side into the other. */
  lemma {:induction false} PatchFrom(ops: seq<DiffOp>, spans: seq<Span>, k: nat)
    requires Chain(ops, spans, k)
    requires forall i :: 0 <= i < |spans| ==> spans[i].start < spans[i].end <= |ops|
    ensures PosA(ops, k) <= |OldSide(ops)| && PosB(ops, k) <= |NewSide(ops)|
    ensures Patch(HunksOf(ops, spans), OldSide(ops), PosA(ops, k), PosB(ops, k)) == Some(NewSide(ops)[PosB(ops, k)..])
    decreases spans
  {
    if spans == [] {
      PatchRest(ops, k);
    } else {
      PatchFrom(ops, spans[1..], spans[0].end);
      assert HunksOf(ops, spans)[1..] == HunksOf(ops, spans[1..]);
      PatchOne(ops, HunksOf(ops, spans), k, spans[0].start, spans[0].end);
    }
  }

  /** Behind the last hunk only kept lines remain. */
  lemma PatchRest(ops: seq<DiffOp>, k: nat)
    requires k <= |ops| && Kept(ops, k, |ops|)
    ensures PosA(ops, k) <= |OldSide(ops)| && PosB(ops, k) <= |NewSide(ops)|
    ensures OldSide(ops)[PosA(ops, k)..] == NewSide(ops)[PosB(ops, k)..]
  {
    hide OldSide, NewSide, PosA, PosB;
    var n := |ops|;
    SideSlice(ops, k, n);
    SidesLength(ops, n);
    assert ops[..n] == ops;
    KeptSides(ops[k..n]);
    assert OldSide(ops)[PosA(ops, k)..PosA(ops, n)] == OldSide(ops)[PosA(ops, k)..];
    assert NewSide(ops)[PosB(ops, k)..PosB(ops, n)] == NewSide(ops)[PosB(ops, k)..];
  }

  /** One turn of the reader. */
  lemma PatchTurn(hunks: seq<Hunk>, a: Lines, pos: nat, made: nat, at: nat, new_: Lines, rest: Lines)
    requires hunks != [] && pos <= at == hunks[0].aStart - 1 && at + hunks[0].aLen <= |a|
    requires hunks[0].bStart as int - 1 == made + (at - pos)
    requires Replay(hunks[0].body, a[at..at + hunks[0].aLen]) == Some(new_) && |new_| == hunks[0].bLen
    requires Patch(hunks[1..], a, at + hunks[0].aLen, made + (at - pos) + |new_|) == Some(rest)
    ensures Patch(hunks, a, pos, made) == Some(a[pos..at] + new_ + rest)
  {
  }

  lemma Glue(b: Lines, p: nat, q: nat, r: nat)
    requires p <= q <= r <= |b|
    ensures b[p..] == b[p..q] + b[q..r] + b[r..]
  {
  }

  /** What a true header gives the reader that stands at script line `k`, with kept lines up to the hunk. */
  lemma HunkReads(ops: seq<DiffOp>, k: nat, start: nat, end: nat, h: Hunk)
    requires k <= start < end <= |ops| && Kept(ops, k, start)
    requires TrueHeader(ops, start, h) && h.body == ops[start..end]
    ensures PosA(ops, k) <= PosA(ops, start) <= PosA(ops, end) <= |OldSide(ops)|
    ensures PosB(ops, k) <= PosB(ops, start) <= PosB(ops, end) <= |NewSide(ops)|
    ensures PosA(ops, start) + h.aLen == PosA(ops, end) && PosB(ops, start) + h.bLen == PosB(ops, end)
    ensures PosA(ops, start) - PosA(ops, k) == PosB(ops, start) - PosB(ops, k)
    ensures OldSide(ops)[PosA(ops, k)..PosA(ops, start)] == NewSide(ops)[PosB(ops, k)..PosB(ops, start)]
    ensures Replay(h.body, OldSide(ops)[PosA(ops, start)..PosA(ops, end)]) ==
            Some(NewSide(ops)[PosB(ops, start)..PosB(ops, end)])
  {
    SideSlice(ops, k, start);
    SideSlice(ops, start, end);
    KeptSides(ops[k..start]);
    ReplaySides(h.body, OldSide(h.body), NewSide(h.body));
    assert |OldSide(ops[k..start])| == |NewSide(ops[k..start])|;
  }

  /** One hunk moves the reader from `k` to its end. */
  lemma {:induction false} PatchOne(ops: seq<DiffOp>, hunks: seq<Hunk>, k: nat, start: nat, end: nat)
    requires hunks != [] && k <= start < end <= |ops| && Kept(ops, k, start)
    requires TrueHeader(ops, start, hunks[0]) && hunks[0].body == ops[start..end]
    requires PosA(ops, end) <= |OldSide(ops)| && PosB(ops, end) <= |NewSide(ops)|
    requires Patch(hunks[1..], OldSide(ops), PosA(ops, end), PosB(ops, end)) == Some(NewSide(ops)[PosB(ops, end)..])
    ensures PosA(ops, k) <= |OldSide(ops)| && PosB(ops, k) <= |NewSide(ops)|
    ensures Patch(hunks, OldSide(ops), PosA(ops, k), PosB(ops, k)) == Some(NewSide(ops)[PosB(ops, k)..])
  {
    var a, b := OldSide(ops), NewSide(ops);
    HunkReads(ops, k, start, end, hunks[0]);
    Glue(b, PosB(ops, k), PosB(ops, start), PosB(ops, end));
    PatchTurn(hunks, a, PosA(ops, k), PosB(ops, k), PosA(ops, start), b[PosB(ops, start)..PosB(ops, end)],
        b[PosB(ops, end)..]);
  }

  lemma PatchTurnFails(hunks: seq<Hunk>, a: Lines, pos: nat, made: nat)
    requires hunks != [] && pos <= |a|
    requires var at := hunks[0].aStart as int - 1;
             at < pos || at + hunks[0].aLen > |a| || hunks[0].bStart as int - 1 != made + (at - pos)
             || Patch(hunks[1..], a, at + hunks[0].aLen, made + (at - pos) + hunks[0].bLen) == None
    ensures Patch(hunks, a, pos, made) == None
  {
  }

  function SpanBefore(spans: seq<Span>, i: nat): nat
    requires i < |spans|
  {
    if i == 0 then 0 else spans[i - 1].end
  }

  /**
   * Without context, hunks follow each other with kept lines between, the first one at the start or
   * after kept lines.
   */
  lemma SpansApart(ops: seq<DiffOp>, spans: seq<Span>, i: nat)
    requires ValidSpans(ops, 0, spans, |ops|) && i < |spans|
    ensures SpanBefore(spans, i) <= spans[i].start < spans[i].end <= |ops|
            && Kept(ops, SpanBefore(spans, i), spans[i].start)
    ensures i > 0 ==> SpanBefore(spans, i) < spans[i].start
    ensures forall j :: i < j < |spans| ==> spans[i].start < spans[j].start
    decreases |spans| - i
  {
    assert ValidSpan(ops, 0, spans[i]);
    if i > 0 {
      assert Apart(ops, 0, spans[i - 1], spans[i]) && ValidSpan(ops, 0, spans[i - 1]);
    }
    if i + 1 < |spans| {
      SpansApart(ops, spans, i + 1);
    }
  }

  /** The header of a bare tail names the first old line, so the reader never gets past it. */
  lemma TailFails(ops: seq<DiffOp>, walked: nat, k: nat, end: nat, hunks: seq<Hunk>)
    requires NumberedFrom(ops, 0, 0, walked) && k < walked < end <= |ops| && ops[walked - 1].kind == Keep
    requires hunks != [] && hunks[0] == HunkOf(ops, walked, end) && PosA(ops, k) <= |OldSide(ops)|
    ensures Patch(hunks, OldSide(ops), PosA(ops, k), PosB(ops, k)) == None
  {
    hide HunkOf, OldSide, Patch, PosA, PosB;
    BareTailHeader(ops, walked, end);
    PosGrows(ops, k, walked - 1);
    PatchTurnFails(hunks, OldSide(ops), PosA(ops, k), PosB(ops, k));
  }

  /** What fails behind a hunk with a true header fails in front of it. */
  lemma {:induction false} HunkFails(ops: seq<DiffOp>, k: nat, start: nat, end: nat, hunks: seq<Hunk>)
    requires hunks != [] && k <= start < end <= |ops| && Kept(ops, k, start)
    requires TrueHeader(ops, start, hunks[0]) && hunks[0].body == ops[start..end]
    requires PosA(ops, end) <= |OldSide(ops)|
    requires Patch(hunks[1..], OldSide(ops), PosA(ops, end), PosB(ops, end)) == None
    ensures PosA(ops, k) <= |OldSide(ops)|
    ensures Patch(hunks, OldSide(ops), PosA(ops, k), PosB(ops, k)) == None
  {
    hide OldSide, NewSide, PosA, PosB;
    HunkReads(ops, k, start, end, hunks[0]);
    PatchTurnFails(hunks, OldSide(ops), PosA(ops, k), PosB(ops, k));
  }

  lemma {:induction false} PatchFails(ops: seq<DiffOp>, walked: nat, spans: seq<Span>, i: nat)
    requires NumberedFrom(ops, 0, 0, walked) && ValidSpans(ops, 0, spans, |ops|) && i < |spans|
    requires 0 < walked == spans[|spans| - 1].start && walked < |ops| && ops[walked - 1].kind == Keep
    requires forall j :: 0 <= j < |spans| ==> spans[j].start < spans[j].end <= |ops|
    ensures SpanBefore(spans, i) <= |ops| && PosA(ops, SpanBefore(spans, i)) <= |OldSide(ops)|
    ensures Patch(HunksOf(ops, spans[i..]), OldSide(ops), PosA(ops, SpanBefore(spans, i)),
            PosB(ops, SpanBefore(spans, i))) == None
    decreases |spans| - i
  {
    hide OldSide, NewSide, Patch, PosA, PosB, NumberedFrom, ValidSpans, Kept, HunkOf, TrueHeader;
    var k, s := SpanBefore(spans, i), spans[i];
    SpansApart(ops, spans, i);
    FirstHunk(ops, spans, i);
    SideSlice(ops, k, s.start);
    if i == |spans| - 1 {
      TailFails(ops, walked, k, s.end, HunksOf(ops, spans[i..]));
    } else {
      TrueBefore(ops, walked, s.start, s.end);
      PatchFails(ops, walked, spans, i + 1);
      HunkFails(ops, k, s.start, s.end, HunksOf(ops, spans[i..]));
    }
  }

  lemma FirstHunk(ops: seq<DiffOp>, spans: seq<Span>, i: nat)
    requires i < |spans| && forall j :: 0 <= j < |spans| ==> spans[j].start < spans[j].end <= |ops|
    ensures var hunks := HunksOf(ops, spans[i..]);
            hunks != [] && hunks[0] == HunkOf(ops, spans[i].start, spans[i].end)
                && hunks[1..] == HunksOf(ops, spans[i + 1..])
  {
    assert spans[i..][1..] == spans[i + 1..];
  }

  lemma TrueBefore(ops: seq<DiffOp>, walked: nat, start: nat, end: nat)
    requires NumberedFrom(ops, 0, 0, walked) && start < end <= |ops| && start < walked
    ensures TrueHeader(ops, start, HunkOf(ops, start, end)) && HunkOf(ops, start, end).body == ops[start..end]
  {
    HeaderExactly(ops, walked, start, end);
    hide TrueHeader, NumberedFrom;
  }

  lemma {:induction false} PosGrows(ops: seq<DiffOp>, k: nat, l: nat)
    requires k <= l <= |ops|
    ensures PosA(ops, k) <= PosA(ops, l) && PosB(ops, k) <= PosB(ops, l)
    decreases l - k
  {
    if k < l {
      PosGrows(ops, k, l - 1);
    }
  }

  lemma BareTailHeader(ops: seq<DiffOp>, walked: nat, end: nat)
    requires NumberedFrom(ops, 0, 0, walked) && 0 < walked < end <= |ops| && ops[walked - 1].kind == Keep
    ensures var h := HunkOf(ops, walked, end); h.aStart == 1 && h.bStart == PosB(ops, walked) + 1
    ensures PosA(ops, walked) > 0 && PosB(ops, walked) == PosB(ops, walked - 1) + 1
  {
    FindNumbered(ops, walked, walked, end);
    IndexBefore(ops, walked, walked);
    assert TailAt(ops, walked);
  }

  /**
   * The hunks of a diff, applied to the old lines at the places their headers name, give the new
   * lines exactly for a context of at least one line, or without a bare tail; else the reader
   * rejects the patch.
   */
  lemma HunksPatch(a: Lines, b: Lines, context: nat, spans: seq<Span>)
    requires ValidSpans(Diff(a, b), context, spans, |Diff(a, b)|)
    ensures forall i :: 0 <= i < |spans| ==> spans[i].start < spans[i].end <= |Diff(a, b)|
    ensures var patched := Patch(HunksOf(Diff(a, b), spans), a, 0, 0);
            patched == if context >= 1 || !BareTail(Diff(a, b)) then Some(b) else None
  {
    hide OldSide, NewSide, Patch, PosA, PosB, NumberedFrom, ValidSpans, Kept, TrueHeaders, Walk, BareTail, Chain;
    var ops := Diff(a, b);
    var walked := WalkNumbered(a, b, 0, 0);
    HeadersExactly(ops, walked, context, spans);
    DiffIsShortest(a, b);
    ReplaySides(ops, a, b);
    PosStart(ops);
    if context >= 1 || !BareTail(ops) {
      ChainStart(ops, context, spans);
      PatchFrom(ops, spans, 0);
      assert b[0..] == b;
    } else {
      BareTailStart(ops, walked);
      var i := BareTailIsAHunk(ops, walked, spans);
      PatchFails(ops, walked, spans, 0);
      assert spans[0..] == spans;
    }
  }

  lemma PosStart(ops: seq<DiffOp>)
    ensures PosA(ops, 0) == 0 && PosB(ops, 0) == 0
  {
  }

  lemma ChainStart(ops: seq<DiffOp>, context: nat, spans: seq<Span>)
    requires ValidSpans(ops, context, spans, |ops|)
    requires forall i :: 0 <= i < |spans| ==> spans[i].start < spans[i].end <= |ops|
    requires TrueHeaders(ops, spans)
    ensures Chain(ops, spans, 0)
  {
    if spans != [] {
      ChainOf(ops, context, spans, 0);
      assert ValidSpan(ops, context, spans[0]);
    }
  }

  /**
   * One added line at the end, no context: the header says line 1 of the old side, where no more than
   * line 2 can be meant.
   */
  lemma WrongHeader()
    ensures var ops := Diff(["x"], ["x", "y"]);
            && BareTail(ops) && |ops| == 2
            && HunkOf(ops, 1, 2) == Hunk(1, 0, 2, 1, [DiffOp(Add, "y", None, None)])
            && PosA(ops, 1) == 1 && !TrueHeader(ops, 1, HunkOf(ops, 1, 2))
  {
    var a, b := ["x"], ["x", "y"];
    var tail := [DiffOp(Add, "y", None, None)];
    assert b[1..] == ["y"] && a[1..] == [] && ["y"][1..] == [];
    assert Tail(Add, ["y"]) == tail;
    var ops := Diff(a, b);
    assert Walk(a, b, 1, 1) == tail;
    assert ops == [DiffOp(Keep, "x", Some(0), Some(0))] + tail;
    assert ops[1 - 1].kind == Keep && ops[1].kind != Keep && ops[1].a.None? && ops[1].b.None?;
    assert ops[1..2] == tail && tail[1..] == [];
    assert PosA(ops, 1) == 1;
    assert Count(tail, Add) == 1 && Count(tail, Drop) == 0;
  }

  // ----- the unified format's own convention -----

  /** What the unified format asks for: an empty range is headed by the line before it. */
  predicate StandardHeader(ops: seq<DiffOp>, start: nat, h: Hunk)
    requires start <= |ops|
  {
    && h.aLen == |OldSide(h.body)| && h.aStart == PosA(ops, start) + (if h.aLen == 0 then 0 else 1)
    && h.bLen == |NewSide(h.body)| && h.bStart == PosB(ops, start) + (if h.bLen == 0 then 0 else 1)
  }

  /** With context, a hunk that has no lines on one side is the whole script, and that side is empty. */
  lemma EmptySide(ops: seq<DiffOp>, context: nat, s: Span)
    requires ValidSpan(ops, context, s) && context >= 1
    ensures s.start < s.end <= |ops|
    ensures OldSide(ops[s.start..s.end]) == [] <==> OldSide(ops) == []
    ensures NewSide(ops[s.start..s.end]) == [] <==> NewSide(ops) == []
  {
    var body := ops[s.start..s.end];
    SideSlice(ops, s.start, s.end);
    if s.start > 0 {
      KeepShows(body, 0);
      SideSlice(ops, 0, s.start);
    } else if s.end < |ops| {
      KeepShows(body, s.last + 1);
    } else {
      assert body == ops;
    }
  }

  lemma {:induction false} KeepShows(body: seq<DiffOp>, k: nat)
    requires k < |body| && body[k].kind == Keep
    ensures OldSide(body) != [] && NewSide(body) != []
  {
    if k > 0 {
      KeepShows(body[1..], k - 1);
    }
  }

  lemma OneSpan(ops: seq<DiffOp>, context: nat, spans: seq<Span>, i: nat)
    requires ValidSpans(ops, context, spans, |ops|) && i < |spans|
    ensures ValidSpan(ops, context, spans[i])
  {
  }

  lemma HunkBody(ops: seq<DiffOp>, start: nat, end: nat)
    requires start < end <= |ops|
    ensures HunkOf(ops, start, end).body == ops[start..end]
  {
  }

  /**
   * For any context of at least one line the headers are also those of the unified format exactly if
   * neither text is empty.
   */
  lemma StandardHeadersExactly(a: Lines, b: Lines, context: nat, spans: seq<Span>)
    requires ValidSpans(Diff(a, b), context, spans, |Diff(a, b)|) && context >= 1
    ensures forall i :: 0 <= i < |spans| ==> spans[i].start < spans[i].end <= |Diff(a, b)|
    ensures forall i :: 0 <= i < |spans| ==>
              (StandardHeader(Diff(a, b), spans[i].start, HunkOf(Diff(a, b), spans[i].start, spans[i].end)) <==>
                  a != [] && b != [])
  {
    hide ValidSpans, ValidSpan, Apart, NumberedFrom, Walk, HunkOf, PosA, PosB, OldSide, NewSide, BareTail;
    var ops := Diff(a, b);
    var walked := WalkNumbered(a, b, 0, 0);
    HeadersExactly(ops, walked, context, spans);
    DiffIsShortest(a, b);
    ReplaySides(ops, a, b);
    forall i | 0 <= i < |spans|
      ensures StandardHeader(ops, spans[i].start, HunkOf(ops, spans[i].start, spans[i].end)) <==> a != [] && b != []
    {
      assert ValidSpan(ops, context, spans[i]) by {
        OneSpan(ops, context, spans, i);
      }
      EmptySide(ops, context, spans[i]);
      HunkBody(ops, spans[i].start, spans[i].end);
      assert TrueHeader(ops, spans[i].start, HunkOf(ops, spans[i].start, spans[i].end));
    }
  }

  // ---------------------------------------------------------------------------
  // The text
  // ---------------------------------------------------------------------------

  function Mark(kind: Kind): string {
    match kind case Keep => " " case Drop => "-" case Add => "+"
  }

  function RenderBody(body: seq<DiffOp>): seq<string> {
    if body == [] then [] else [Mark(body[0].kind) + body[0].line] + RenderBody(body[1..])
  }

  function HeaderLine(h: Hunk): string {
    "@@ -" + Dec(h.aStart) + "," + Dec(h.aLen) + " +" + Dec(h.bStart) + "," + Dec(h.bLen) + " @@"
  }

  function RenderHunk(h: Hunk): seq<string> { [HeaderLine(h)] + RenderBody(h.body) }

  function Render(hunks: seq<Hunk>): seq<string> {
    if hunks == [] then [] else RenderHunk(hunks[0]) + Render(hunks[1..])
  }

  datatype DiffText = DiffText(text: string, added: nat, removed: nat)

  lemma {:induction false} NoChanges(ops: seq<DiffOp>)
    ensures Changes(ops) == 0 <==> Kept(ops, 0, |ops|)
  {
    if ops != [] {
      NoChanges(ops[1..]);
      if Kept(ops, 0, |ops|) {
        assert Kept(ops[1..], 0, |ops| - 1);
      }
      if Kept(ops[1..], 0, |ops| - 1) && ops[0].kind == Keep {
        forall i | 0 <= i < |ops| ensures ops[i].kind == Keep {
          assert i > 0 ==> ops[1..][i - 1].kind == Keep;
        }
      }
    }
  }

  /** Lines are equal exactly if the shortest script between them changes nothing. */
  lemma EqualIffNoChanges(a: Lines, b: Lines)
    ensures a == b <==> Changes(Diff(a, b)) == 0
  {
    var ops := Diff(a, b);
    DiffIsShortest(a, b);
    NoChanges(ops);
    ReplaySides(ops, a, b);
    if a == b {
      var keep := KeepAll(a);
    } else if Changes(ops) == 0 {
      KeptSides(ops);
    }
  }

  lemma {:induction false} KeepAll(a: Lines) returns (script: seq<DiffOp>)
    ensures Replay(script, a) == Some(a) && Changes(script) == 0
  {
    if a == [] {
      script := [];
    } else {
      var rest := KeepAll(a[1..]);
      script := [DiffOp(Keep, a[0], None, None)] + rest;
      assert script[1..] == rest && [a[0]] + a[1..] == a;
    }
  }

  method CountChanges(ops: seq<DiffOp>) returns (added: nat, removed: nat)
    ensures added == Count(ops, Add) && removed == Count(ops, Drop)
  {
    added, removed := 0, 0;
    assert ops[..|ops|] == ops;
    for i := 0 to |ops|
      invariant added + Count(ops[i..], Add) == Count(ops, Add)
      invariant removed + Count(ops[i..], Drop) == Count(ops, Drop)
    {
      assert ops[i..][1..] == ops[i + 1..];
      if ops[i].kind == Add {
        added := added + 1;
      } else if ops[i].kind == Drop {
        removed := removed + 1;
      }
    }
  }

  method RenderHunks(names: seq<string>, hunks: seq<Hunk>) returns (lines: seq<string>)
    ensures lines == names + Render(hunks)
  {
    lines := names;
    assert hunks[0..] == hunks;
    for i := 0 to |hunks|
      invariant lines + Render(hunks[i..]) == names + Render(hunks)
    {
      assert hunks[i..][1..] == hunks[i + 1..];
      assert (lines + RenderHunk(hunks[i])) + Render(hunks[i + 1..]) == lines + Render(hunks[i..]);
      lines := lines + RenderHunk(hunks[i]);
    }
    assert hunks[|hunks|..] == [] && lines + [] == lines;
  }

  /**
   * unifiedDiff. The text is empty exactly when both texts have the same lines; otherwise it is the
   * two name lines and the rendered hunks over the spans of the diff.
   */
  method UnifiedDiff(oldText: string, newText: string, context: nat, fromName: string, toName: string)
    returns (r: DiffText, spans: seq<Span>)
    ensures var a, b := ToLines(oldText), ToLines(newText);
            var ops := Diff(a, b);
            && (r.text == "" <==> a == b)
            && r.added == Count(ops, Add) && r.removed == Count(ops, Drop)
            && ValidSpans(ops, context, spans, |ops|)
            && (forall i :: 0 <= i < |spans| ==> spans[i].start < spans[i].end <= |ops|)
            && (a != b ==> r.text == Join(["--- " + fromName, "+++ " + toName] + Render(HunksOf(ops, spans)), '\n'))
  {
    var a, b := ToLines(oldText), ToLines(newText);
    var ops := DiffLines(a, b);
    var added, removed := CountChanges(ops);
    EqualIffNoChanges(a, b);
    ghost var walked := WalkNumbered(a, b, 0, 0);
    spans := HunkSpans(ops, context);
    HeadersExactly(ops, walked, context, spans);
    if added == 0 && removed == 0 {
      r := DiffText("", added, removed);
      return;
    }
    var names := ["--- " + fromName, "+++ " + toName];
    var lines := RenderHunks(names, HunksOf(ops, spans));
    assert lines[0] == names[0];
    r := DiffText(Join(lines, '\n'), added, removed);
  }
}
