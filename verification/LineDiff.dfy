// The line diff of src/lib/text-diff.js: an LCS table over two line lists and the greedy walk
// over it, proved to be a shortest edit script.

module LineDiff {
  import opened Text

  datatype Kind = Keep | Drop | Add

  /** One diff line; the walk numbers it, the two tail loops do not. */
  datatype DiffOp = DiffOp(kind: Kind, line: string, a: Option<nat>, b: Option<nat>)

  type Lines = seq<string>

  // ---------------------------------------------------------------------------
  // The table
  // ---------------------------------------------------------------------------

  function Max(x: nat, y: nat): nat { if x >= y then x else y }

  /** The table's entry for the suffixes `a[i..]` and `b[j..]`. */
  function Lcs(a: Lines, b: Lines, i: nat, j: nat): nat
    requires i <= |a| && j <= |b|
    decreases |a| - i + |b| - j
  {
    if i == |a| || j == |b| then 0
    else if a[i] == b[j] then Lcs(a, b, i + 1, j + 1) + 1
    else Max(Lcs(a, b, i + 1, j), Lcs(a, b, i, j + 1))
  }

  /** One turn of the outer loop: row `i` from row `i + 1`, right to left. */
  method FillRow(t: array2<nat>, a: Lines, b: Lines, i: nat)
    requires t.Length0 == |a| + 1 && t.Length1 == |b| + 1 && i < |a|
    requires forall x, j :: x == i + 1 && 0 <= j <= |b| ==> t[x, j] == Lcs(a, b, x, j)
    requires t[i, |b|] == 0
    modifies t
    ensures forall j :: 0 <= j <= |b| ==> t[i, j] == Lcs(a, b, i, j)
    ensures forall x, y :: 0 <= x <= |a| && 0 <= y <= |b| && x != i ==> t[x, y] == old(t[x, y])
  {
    for j := |b| downto 0
      invariant forall y :: j <= y <= |b| ==> t[i, y] == Lcs(a, b, i, y)
      invariant forall x, y :: 0 <= x <= |a| && 0 <= y <= |b| && x != i ==> t[x, y] == old(t[x, y])
    {
      t[i, j] := if a[i] == b[j] then t[i + 1, j + 1] + 1 else Max(t[i + 1, j], t[i, j + 1]);
    }
  }

  method LcsTable(a: Lines, b: Lines) returns (t: array2<nat>)
    ensures fresh(t) && t.Length0 == |a| + 1 && t.Length1 == |b| + 1
    ensures forall i, j :: 0 <= i <= |a| && 0 <= j <= |b| ==> t[i, j] == Lcs(a, b, i, j)
  {
    t := new nat[|a| + 1, |b| + 1]((i, j) => 0);
    for i := |a| downto 0
      invariant forall x, y :: i <= x <= |a| && 0 <= y <= |b| ==> t[x, y] == Lcs(a, b, x, y)
      invariant forall x :: 0 <= x < i ==> t[x, |b|] == 0
    {
      FillRow(t, a, b, i);
    }
  }

  /**
   * Dropping one line on either side costs at most one match, and never gains one. (This is why
   * taking a match at once is always right.)
   */
  lemma {:induction false} LcsSteps(a: Lines, b: Lines, i: nat, j: nat)
    requires i <= |a| && j <= |b|
    ensures i < |a| ==> Lcs(a, b, i + 1, j) <= Lcs(a, b, i, j) <= Lcs(a, b, i + 1, j) + 1
    ensures j < |b| ==> Lcs(a, b, i, j + 1) <= Lcs(a, b, i, j) <= Lcs(a, b, i, j + 1) + 1
    decreases |a| - i + |b| - j
  {
    if i < |a| && j < |b| {
      LcsSteps(a, b, i + 1, j);
      LcsSteps(a, b, i, j + 1);
      LcsSteps(a, b, i + 1, j + 1);
    }
  }

  /** The entries fit the table's 32-bit cells: they never exceed the shorter line count. */
  lemma {:induction false} LcsFits(a: Lines, b: Lines, i: nat, j: nat)
    requires i <= |a| && j <= |b|
    ensures Lcs(a, b, i, j) <= |a| - i && Lcs(a, b, i, j) <= |b| - j
    decreases |a| - i + |b| - j
  {
    if i < |a| && j < |b| {
      LcsFits(a, b, i + 1, j);
      LcsFits(a, b, i, j + 1);
      LcsFits(a, b, i + 1, j + 1);
    }
  }

  // ---------------------------------------------------------------------------
  // Edit scripts
  // ---------------------------------------------------------------------------

  /** Replaying a script on `a`: a kept or dropped line must be the next one of `a`. */
  function Replay(script: seq<DiffOp>, a: Lines): Option<Lines> {
    if script == [] then (if a == [] then Some([]) else None)
    else
      var op := script[0];
      if op.kind == Add then PrependLine(op.line, Replay(script[1..], a))
      else if a == [] || a[0] != op.line then None
      else if op.kind == Keep then PrependLine(op.line, Replay(script[1..], a[1..]))
      else Replay(script[1..], a[1..])
  }

  function PrependLine(line: string, r: Option<Lines>): Option<Lines> {
    if r.None? then None else Some([line] + r.value)
  }

  /** How many of the first `n` script lines are of the kind. */
  function Count(script: seq<DiffOp>, kind: Kind): nat {
    if script == [] then 0 else (if script[0].kind == kind then 1 else 0) + Count(script[1..], kind)
  }

  function Changes(script: seq<DiffOp>): nat { Count(script, Add) + Count(script, Drop) }

  /** The common subsequences of two line lists are what the edit scripts between them keep. */
  lemma {:induction false} KeepsAtMostLcs(a: Lines, b: Lines, i: nat, j: nat, script: seq<DiffOp>)
    requires i <= |a| && j <= |b| && Replay(script, a[i..]) == Some(b[j..])
    ensures Count(script, Keep) <= Lcs(a, b, i, j)
    ensures Changes(script) + 2 * Count(script, Keep) == |a| - i + |b| - j
    decreases script
  {
    if script != [] {
      var rest := script[1..];
      if script[0].kind == Add {
        var r := Replay(rest, a[i..]).value;
        assert b[j..] == [b[j]] + b[j + 1..] && r == b[j..][1..] == b[j + 1..];
        KeepsAtMostLcs(a, b, i, j + 1, rest);
      } else if script[0].kind == Keep {
        assert a[i..][1..] == a[i + 1..];
        var r := Replay(rest, a[i + 1..]).value;
        assert r == b[j..][1..] == b[j + 1..] && a[i] == b[j];
        KeepsAtMostLcs(a, b, i + 1, j + 1, rest);
      } else {
        assert a[i..][1..] == a[i + 1..];
        KeepsAtMostLcs(a, b, i + 1, j, rest);
      }
      LcsSteps(a, b, i, j);
    }
  }

  // ---------------------------------------------------------------------------
  // The walk
  // ---------------------------------------------------------------------------

  function Tail(kind: Kind, lines: Lines): (ops: seq<DiffOp>)
    ensures |ops| == |lines|
    ensures forall k :: 0 <= k < |ops| ==> ops[k] == DiffOp(kind, lines[k], None, None)
  {
    seq(|lines|, k requires 0 <= k < |lines| => DiffOp(kind, lines[k], None, None))
  }

  /** What diffLines still emits from position (i, j). */
  function Walk(a: Lines, b: Lines, i: nat, j: nat): seq<DiffOp>
    requires i <= |a| && j <= |b|
    decreases |a| - i + |b| - j
  {
    if i == |a| || j == |b| then Tail(Drop, a[i..]) + Tail(Add, b[j..])
    else if a[i] == b[j] then [DiffOp(Keep, a[i], Some(i), Some(j))] + Walk(a, b, i + 1, j + 1)
    else if Lcs(a, b, i + 1, j) >= Lcs(a, b, i, j + 1) then [DiffOp(Drop, a[i], Some(i), None)] + Walk(a, b, i + 1, j)
    else [DiffOp(Add, b[j], None, Some(j))] + Walk(a, b, i, j + 1)
  }

  function Diff(a: Lines, b: Lines): seq<DiffOp> { Walk(a, b, 0, 0) }

  lemma Regroup(was: seq<DiffOp>, op: DiffOp, rest: seq<DiffOp>)
    ensures (was + [op]) + rest == was + ([op] + rest)
  {
  }

  method DiffLines(a: Lines, b: Lines) returns (out: seq<DiffOp>)
    ensures out == Diff(a, b)
  {
    hide Walk, Lcs, Tail;
    var t := LcsTable(a, b);
    out := [];
    var i, j := 0, 0;
    while i < |a| && j < |b|
      invariant 0 <= i <= |a| && 0 <= j <= |b|
      invariant out + Walk(a, b, i, j) == Diff(a, b)
      invariant forall x, y :: 0 <= x <= |a| && 0 <= y <= |b| ==> t[x, y] == Lcs(a, b, x, y)
      decreases |a| - i + |b| - j
    {
      WalkStep(a, b, i, j);
      var op: DiffOp;
      if a[i] == b[j] {
        op := DiffOp(Keep, a[i], Some(i), Some(j));
        i, j := i + 1, j + 1;
      } else if t[i + 1, j] >= t[i, j + 1] {
        op := DiffOp(Drop, a[i], Some(i), None);
        i := i + 1;
      } else {
        op := DiffOp(Add, b[j], None, Some(j));
        j := j + 1;
      }
      Regroup(out, op, Walk(a, b, i, j));
      out := out + [op];
    }
    ghost var walked := out;
    out := EmitTail(out, Drop, a, i);
    out := EmitTail(out, Add, b, j);
    WalkEnd(walked, a, b, i, j);
  }

  lemma WalkStep(a: Lines, b: Lines, i: nat, j: nat)
    requires i < |a| && j < |b|
    ensures Walk(a, b, i, j) ==
            if a[i] == b[j] then [DiffOp(Keep, a[i], Some(i), Some(j))] + Walk(a, b, i + 1, j + 1)
            else if Lcs(a, b, i + 1, j) >= Lcs(a, b, i, j + 1) then
              [DiffOp(Drop, a[i], Some(i), None)] + Walk(a, b, i + 1, j)
            else [DiffOp(Add, b[j], None, Some(j))] + Walk(a, b, i, j + 1)
  {
  }

  lemma WalkEnd(walked: seq<DiffOp>, a: Lines, b: Lines, i: nat, j: nat)
    requires i <= |a| && j <= |b| && (i == |a| || j == |b|)
    ensures walked + Tail(Drop, a[i..]) + Tail(Add, b[j..]) == walked + Walk(a, b, i, j)
  {
  }

  /** The tail loops: what one side has left is emitted without numbers. */
  method EmitTail(out: seq<DiffOp>, kind: Kind, lines: Lines, start: nat) returns (all: seq<DiffOp>)
    requires start <= |lines|
    ensures all == out + Tail(kind, lines[start..])
  {
    all := out;
    var i := start;
    while i < |lines|
      invariant start <= i <= |lines|
      invariant all == out + Tail(kind, lines[start..i])
    {
      all := all + [DiffOp(kind, lines[i], None, None)];
      i := i + 1;
    }
    assert lines[start..|lines|] == lines[start..];
  }

  lemma {:induction false} TailReplays(drops: Lines, adds: Lines)
    requires drops == [] || adds == []
    ensures Replay(Tail(Drop, drops) + Tail(Add, adds), drops) == Some(adds)
    ensures Count(Tail(Drop, drops) + Tail(Add, adds), Keep) == 0
    decreases |drops| + |adds|
  {
    var ops := Tail(Drop, drops) + Tail(Add, adds);
    if drops != [] {
      assert ops[1..] == Tail(Drop, drops[1..]) + Tail(Add, adds);
      TailReplays(drops[1..], adds);
    } else if adds != [] {
      assert ops[1..] == Tail(Drop, drops) + Tail(Add, adds[1..]);
      TailReplays(drops, adds[1..]);
      assert [adds[0]] + adds[1..] == adds;
    }
  }

  lemma {:induction false} WalkReplays(a: Lines, b: Lines, i: nat, j: nat)
    requires i <= |a| && j <= |b|
    ensures Replay(Walk(a, b, i, j), a[i..]) == Some(b[j..])
    ensures Count(Walk(a, b, i, j), Keep) == Lcs(a, b, i, j)
    decreases |a| - i + |b| - j
  {
    var ops := Walk(a, b, i, j);
    if i == |a| || j == |b| {
      TailReplays(a[i..], b[j..]);
    } else if a[i] == b[j] {
      WalkReplays(a, b, i + 1, j + 1);
      assert ops[1..] == Walk(a, b, i + 1, j + 1);
      assert a[i..][1..] == a[i + 1..] && [b[j]] + b[j + 1..] == b[j..];
    } else if Lcs(a, b, i + 1, j) >= Lcs(a, b, i, j + 1) {
      WalkReplays(a, b, i + 1, j);
      assert ops[1..] == Walk(a, b, i + 1, j);
      assert a[i..][1..] == a[i + 1..];
    } else {
      WalkReplays(a, b, i, j + 1);
      assert ops[1..] == Walk(a, b, i, j + 1);
      assert [b[j]] + b[j + 1..] == b[j..];
    }
  }

  /**
   * The diff replayed on `a` is `b`, and no script that turns `a` into `b` has fewer added and
   * dropped lines; the number is |a| + |b| - 2 * LCS.
   */
  lemma DiffIsShortest(a: Lines, b: Lines)
    ensures Replay(Diff(a, b), a) == Some(b)
    ensures Changes(Diff(a, b)) == |a| + |b| - 2 * Lcs(a, b, 0, 0)
    ensures forall script :: Replay(script, a) == Some(b) ==> Changes(script) >= Changes(Diff(a, b))
  {
    assert a[0..] == a && b[0..] == b;
    WalkReplays(a, b, 0, 0);
    KeepsAtMostLcs(a, b, 0, 0, Diff(a, b));
    forall script | Replay(script, a) == Some(b) ensures Changes(script) >= Changes(Diff(a, b)) {
      KeepsAtMostLcs(a, b, 0, 0, script);
    }
  }

  // ---------------------------------------------------------------------------
  // Positions
  // ---------------------------------------------------------------------------

  /** How many lines of `a` the first `k` script lines consume, and of `b` they produce. */
  function PosA(ops: seq<DiffOp>, k: nat): nat
    requires k <= |ops|
  {
    if k == 0 then 0 else PosA(ops, k - 1) + if ops[k - 1].kind == Add then 0 else 1
  }

  function PosB(ops: seq<DiffOp>, k: nat): nat
    requires k <= |ops|
  {
    if k == 0 then 0 else PosB(ops, k - 1) + if ops[k - 1].kind == Drop then 0 else 1
  }

  lemma {:induction false} PosShift(op: DiffOp, rest: seq<DiffOp>, k: nat)
    requires k <= |rest|
    ensures PosA([op] + rest, k + 1) == PosA(rest, k) + (if op.kind == Add then 0 else 1)
    ensures PosB([op] + rest, k + 1) == PosB(rest, k) + (if op.kind == Drop then 0 else 1)
  {
    if k > 0 {
      PosShift(op, rest, k - 1);
    }
  }

  /** The walk numbers a line by its position, counted from (i, j). */
  ghost predicate NumberedAt(ops: seq<DiffOp>, i: nat, j: nat, k: nat)
    requires k < |ops|
  {
    ops[k].a == (if ops[k].kind == Add then None else Some(i + PosA(ops, k))) &&
    ops[k].b == (if ops[k].kind == Drop then None else Some(j + PosB(ops, k)))
  }

  /** A tail line: no numbers, no kept line, and the same kind to the end. */
  ghost predicate TailAt(ops: seq<DiffOp>, k: nat)
    requires k < |ops|
  {
    ops[k].kind != Keep && ops[k].kind == ops[|ops| - 1].kind && ops[k].a.None? && ops[k].b.None?
  }

  /** `walked` numbered lines, then an unnumbered tail. */
  ghost predicate NumberedFrom(ops: seq<DiffOp>, i: nat, j: nat, walked: nat) {
    walked <= |ops| &&
    (forall k :: 0 <= k < walked ==> NumberedAt(ops, i, j, k)) &&
    (forall k :: walked <= k < |ops| ==> TailAt(ops, k))
  }

  lemma NumberedCons(op: DiffOp, rest: seq<DiffOp>, i: nat, j: nat, walked: nat)
    requires op.a == (if op.kind == Add then None else Some(i)) && op.b == (if op.kind == Drop then None else Some(j))
    requires NumberedFrom(rest, if op.kind == Add then i else i + 1, if op.kind == Drop then j else j + 1, walked)
    ensures NumberedFrom([op] + rest, i, j, walked + 1)
  {
    var ops := [op] + rest;
    var ni, nj := if op.kind == Add then i else i + 1, if op.kind == Drop then j else j + 1;
    forall k | 0 <= k < walked + 1 ensures NumberedAt(ops, i, j, k) {
      if k > 0 {
        assert NumberedAt(rest, ni, nj, k - 1);
        PosShift(op, rest, k - 1);
      }
    }
    forall k | walked + 1 <= k < |ops| ensures TailAt(ops, k) {
      assert TailAt(rest, k - 1);
    }
  }

  lemma {:induction false} WalkNumbered(a: Lines, b: Lines, i: nat, j: nat) returns (walked: nat)
    requires i <= |a| && j <= |b|
    ensures NumberedFrom(Walk(a, b, i, j), i, j, walked)
    decreases |a| - i + |b| - j
  {
    if i == |a| || j == |b| {
      walked := 0;
    } else if a[i] == b[j] {
      walked := WalkNumbered(a, b, i + 1, j + 1);
      NumberedCons(DiffOp(Keep, a[i], Some(i), Some(j)), Walk(a, b, i + 1, j + 1), i, j, walked);
      walked := walked + 1;
    } else if Lcs(a, b, i + 1, j) >= Lcs(a, b, i, j + 1) {
      walked := WalkNumbered(a, b, i + 1, j);
      NumberedCons(DiffOp(Drop, a[i], Some(i), None), Walk(a, b, i + 1, j), i, j, walked);
      walked := walked + 1;
    } else {
      walked := WalkNumbered(a, b, i, j + 1);
      NumberedCons(DiffOp(Add, b[j], None, Some(j)), Walk(a, b, i, j + 1), i, j, walked);
      walked := walked + 1;
    }
  }
}
