// The rotating log file (src/lib/log-file.js): the directory as a map from generation to lines,
// generation 0 being the current file.

module LogFile {
  import opened Text

  type Lines = seq<string>

  type Directory = map<nat, Lines>

  function Get(files: Directory, i: nat): Lines { if i in files then files[i] else [] }

  function Size(lines: Lines): nat {
    if lines == [] then 0 else Size(lines[..|lines| - 1]) + ByteLength(lines[|lines| - 1])
  }

  /** Both directories hold the same at their place, or nothing. */
  predicate SameAt(x: Directory, i: nat, y: Directory, j: nat) { (i in x <==> j in y) && (i in x ==> x[i] == y[j]) }

  /** The file at `j` is the one that was a generation younger. */
  predicate Moved(before: Directory, after: Directory, j: nat) { j >= 1 && SameAt(after, j, before, j - 1) }

  predicate Left(before: Directory, after: Directory, j: nat) { SameAt(after, j, before, j) }

  /** Every file one generation older, the oldest dropped, nothing current. */
  ghost predicate Shifted(before: Directory, after: Directory, keep: nat) {
    && (forall j :: 1 <= j <= keep ==> Moved(before, after, j))
    && (forall j :: j > keep ==> Left(before, after, j))
    && (keep > 0 ==> 0 !in after)
    && (keep == 0 ==> after == before)
  }

  /** The lines of the kept files, oldest file first. */
  function History(files: Directory, keep: nat): Lines {
    Get(files, keep) + (if keep == 0 then [] else History(files, keep - 1))
  }

  /** Nothing but the last line takes the file past the limit. */
  predicate Bounded(lines: Lines, maxBytes: nat) { lines == [] || Size(lines[..|lines| - 1]) < maxBytes }

  /** The file reached the limit with its last line. */
  predicate Filled(lines: Lines, maxBytes: nat) { lines != [] && Bounded(lines, maxBytes) && Size(lines) >= maxBytes }

  datatype Log = Log(files: Directory, bytes: nat)

  datatype Event = Start | Write(line: string)

  function Opened(files: Directory, keep: nat): Directory {
    map j | j in ShiftedKeys(files, keep) :: Younger(files, keep, j)
  }

  function Younger(files: Directory, keep: nat, j: nat): Lines {
    if j == 0 then [] else if j <= keep then Get(files, j - 1) else Get(files, j)
  }

  function ShiftedKeys(files: Directory, keep: nat): set<nat> {
    {0} + (set j | j in files && j < keep :: j + 1) + (set j | j in files && j > keep)
  }

  function Next(l: Log, e: Event, keep: nat, maxBytes: nat): Log {
    match e
    case Start => Log(Opened(l.files, keep), 0)
    case Write(line) =>
      var files := l.files[0 := Get(l.files, 0) + [line]];
      var bytes := l.bytes + ByteLength(line);
      if bytes >= maxBytes then Log(Opened(files, keep), 0) else Log(files, bytes)
  }

  class RotatingLog {
    const keep: nat
    const maxBytes: nat
    var files: Directory
    var bytes: nat

    ghost function State(): Log
      reads this
    {
      Log(files, bytes)
    }

    constructor (found: Directory, keep: nat, maxBytes: nat)
      ensures this.keep == keep && this.maxBytes == maxBytes
      ensures State() == Log(Opened(found, keep), 0)
    {
      this.keep, this.maxBytes, files, bytes := keep, maxBytes, found, 0;
      new;
      Open();
    }

    /** One rotation moves every file exactly one generation, even where the chain has gaps. */
    method Shift()
      modifies this`files
      ensures Shifted(old(files), files, keep)
    {
      var i := keep;
      while i >= 1
        invariant 0 <= i <= keep
        invariant i == keep ==> files == old(files)
        invariant forall j :: i < j <= keep ==> Moved(old(files), files, j)
        invariant forall j :: 0 <= j < i || j > keep ==> Left(old(files), files, j)
        invariant i < keep ==> i !in files
      {
        ghost var start := files;
        assert Left(old(files), files, i - 1);
        if i == keep {
          files := files - {i};
        }
        if i - 1 in files {
          files := (files - {i - 1})[i := files[i - 1]];
        }
        assert Moved(old(files), files, i);
        forall j | i < j <= keep ensures Moved(old(files), files, j) {
          assert Moved(old(files), start, j);
        }
        forall j | 0 <= j < i - 1 || j > keep ensures Left(old(files), files, j) {
          assert Left(old(files), start, j);
        }
        i := i - 1;
      }
    }

    method Open()
      modifies this
      ensures State() == Log(Opened(old(files), keep), 0)
    {
      Shift();
      ShiftedOpens(old(files), files, keep);
      files := files[0 := []];
      bytes := 0;
    }

    method WriteLine(line: string)
      modifies this
      ensures State() == Next(old(State()), Write(line), keep, maxBytes)
    {
      bytes := bytes + ByteLength(line);
      files := files[0 := Get(files, 0) + [line]];
      if bytes >= maxBytes {
        Open();
      }
    }

    /** The files that exist, newest first. */
    method Files() returns (list: seq<nat>)
      ensures forall i :: i in list <==> 0 <= i <= keep && i in files
      ensures forall i, j :: 0 <= i < j < |list| ==> list[i] < list[j]
    {
      list := [];
      for i := 0 to keep + 1
        invariant forall j :: j in list <==> 0 <= j < i && j in files
        invariant forall j :: 0 <= j < |list| ==> list[j] < i
        invariant forall j, k :: 0 <= j < k < |list| ==> list[j] < list[k]
      {
        if i in files {
          list := list + [i];
        }
      }
    }
  }

  lemma ShiftedOpens(before: Directory, shifted: Directory, keep: nat)
    requires Shifted(before, shifted, keep)
    ensures shifted[0 := []] == Opened(before, keep)
  {
    OpenedAt(before, keep);
    var x, y := shifted[0 := []], Opened(before, keep);
    forall j: nat ensures (j in x <==> j in y) && (j in x ==> x[j] == y[j]) {
      if 1 <= j <= keep {
        assert Moved(before, shifted, j) && Moved(before, y, j);
      } else if j > keep {
        assert Left(before, shifted, j) && Left(before, y, j);
      }
    }
    hide Opened;
  }

  lemma GroupLines(x: Lines, y: Lines, z: Lines)
    ensures x + (y + z) == (x + y) + z
  {
  }

  lemma SizeAppend(lines: Lines, line: string)
    ensures Size(lines + [line]) == Size(lines) + ByteLength(line)
  {
  }

  lemma {:induction false} HistoryAppend(files: Directory, line: string, keep: nat)
    requires 0 in files
    ensures History(files[0 := files[0] + [line]], keep) == History(files, keep) + [line]
  {
    var next := files[0 := files[0] + [line]];
    if keep == 0 {
      assert Get(next, 0) + [] == Get(files, 0) + [] + [line];
    } else {
      HistoryAppend(files, line, keep - 1);
      GroupLines(Get(files, keep), History(files, keep - 1), [line]);
    }
  }

  lemma {:induction false} ShiftedHistory(before: Directory, after: Directory, keep: nat, k: nat)
    requires 1 <= k <= keep && after[0 := []] == after && 0 in after
    requires forall j :: 1 <= j <= keep ==> Moved(before, after, j)
    ensures History(after, k) == History(before, k - 1)
  {
    assert Moved(before, after, k);
    if k == 1 {
      assert History(after, 0) == [] + [];
      assert History(before, 0) == Get(before, 0) + [];
      assert History(after, 1) == Get(after, 1) + History(after, 0);
    } else {
      ShiftedHistory(before, after, keep, k - 1);
    }
  }

  // ---------------------------------------------------------------------------
  // Runs, on values
  // ---------------------------------------------------------------------------

  function After(l: Log, events: seq<Event>, keep: nat, maxBytes: nat): Log
    decreases events
  {
    if events == [] then l else After(Next(l, events[0], keep, maxBytes), events[1..], keep, maxBytes)
  }

  function LinesOf(events: seq<Event>): Lines {
    if events == [] then [] else (if events[0].Write? then [events[0].line] else []) + LinesOf(events[1..])
  }

  predicate NoStarts(events: seq<Event>) { forall i :: 0 <= i < |events| ==> events[i].Write? }

  /** What holds of every log from its first start in an empty directory. */
  predicate Inv(l: Log, keep: nat, maxBytes: nat) {
    && 0 in l.files && l.bytes == Size(l.files[0]) && l.bytes < maxBytes
    && (forall j :: j in l.files ==> j <= keep && Bounded(l.files[j], maxBytes))
  }

  predicate AllFilled(l: Log, maxBytes: nat) { forall j :: j in l.files && j > 0 ==> Filled(l.files[j], maxBytes) }

  lemma OpenedAt(files: Directory, keep: nat)
    ensures var after := Opened(files, keep);
            && 0 in after && after[0] == []
            && (forall j :: 1 <= j <= keep ==> Moved(files, after, j))
            && (forall j :: j > keep ==> Left(files, after, j))
  {
  }

  lemma OpenedKeeps(files: Directory, keep: nat)
    ensures History(files, keep) == Get(files, keep) + History(Opened(files, keep), keep)
  {
    var after := Opened(files, keep);
    OpenedAt(files, keep);
    assert after[0 := []] == after;
    if keep > 0 {
      ShiftedHistory(files, after, keep, keep);
    } else {
      assert History(after, 0) == [];
    }
    hide Opened;
  }

  lemma OpenedInv(files: Directory, keep: nat, maxBytes: nat)
    requires maxBytes > 0 && forall j :: j in files ==> j <= keep && Bounded(files[j], maxBytes)
    ensures Inv(Log(Opened(files, keep), 0), keep, maxBytes)
    ensures (forall j :: j in files && j < keep ==> Filled(files[j], maxBytes)) ==>
              AllFilled(Log(Opened(files, keep), 0), maxBytes)
  {
    OpenedAt(files, keep);
    var after := Opened(files, keep);
    forall j | j in after && j > 0 ensures j <= keep && j - 1 in files && after[j] == files[j - 1] {
      assert j > keep ==> Left(files, after, j);
      assert j <= keep ==> Moved(files, after, j);
    }
    hide Opened, Filled, Bounded;
    assert Bounded([], maxBytes) by {
      EmptyBounded(maxBytes);
    }
  }

  lemma EmptyBounded(maxBytes: nat)
    ensures Bounded([], maxBytes)
  {
  }

  lemma StepKeeps(l: Log, e: Event, keep: nat, maxBytes: nat)
    requires Inv(l, keep, maxBytes)
    ensures Inv(Next(l, e, keep, maxBytes), keep, maxBytes)
    ensures e.Write? && AllFilled(l, maxBytes) ==> AllFilled(Next(l, e, keep, maxBytes), maxBytes)
  {
    match e {
      case Start => OpenedInv(l.files, keep, maxBytes);
      case Write(line) =>
        var lines := l.files[0] + [line];
        var files := l.files[0 := lines];
        SizeAppend(l.files[0], line);
        assert lines[..|l.files[0]|] == l.files[0];
        assert Bounded(lines, maxBytes);
        OpenedInv(files, keep, maxBytes);
    }
    hide Opened;
  }

  /** Each step drops lines only from the oldest end. */
  lemma StepConserves(l: Log, e: Event, keep: nat, maxBytes: nat) returns (gone: Lines)
    requires Inv(l, keep, maxBytes)
    ensures History(l.files, keep) + (if e.Write? then [e.line] else []) ==
            gone + History(Next(l, e, keep, maxBytes).files, keep)
  {
    match e {
      case Start =>
        OpenedKeeps(l.files, keep);
        gone := Get(l.files, keep);
        assert History(l.files, keep) + [] == History(l.files, keep);
      case Write(line) =>
        HistoryAppend(l.files, line, keep);
        var files := l.files[0 := l.files[0] + [line]];
        if l.bytes + ByteLength(line) >= maxBytes {
          OpenedKeeps(files, keep);
          gone := Get(files, keep);
        } else {
          gone := [];
          assert [] + History(files, keep) == History(files, keep);
        }
    }
    hide Opened, History;
  }

  /** Over every run the kept files, oldest first, are a suffix of the lines written. */
  lemma {:induction false} RunConserves(l: Log, events: seq<Event>, keep: nat, maxBytes: nat) returns (gone: Lines)
    requires Inv(l, keep, maxBytes)
    ensures History(l.files, keep) + LinesOf(events) == gone + History(After(l, events, keep, maxBytes).files, keep)
    ensures Inv(After(l, events, keep, maxBytes), keep, maxBytes)
    ensures NoStarts(events) && AllFilled(l, maxBytes) ==> AllFilled(After(l, events, keep, maxBytes), maxBytes)
    decreases events
  {
    if events == [] {
      gone := [];
      assert History(l.files, keep) + [] == [] + History(l.files, keep);
    } else {
      var next := Next(l, events[0], keep, maxBytes);
      var first := StepConserves(l, events[0], keep, maxBytes);
      StepKeeps(l, events[0], keep, maxBytes);
      var later := RunConserves(next, events[1..], keep, maxBytes);
      gone := first + later;
      var own := if events[0].Write? then [events[0].line] else [];
      GroupLines(History(l.files, keep), own, LinesOf(events[1..]));
      GroupLines(first, History(next.files, keep), LinesOf(events[1..]));
      GroupLines(first, later, History(After(l, events, keep, maxBytes).files, keep));
      assert NoStarts(events) ==> NoStarts(events[1..]);
    }
    hide Next, Inv, AllFilled, History;
  }

  predicate Suffix(x: Lines, y: Lines) { |x| <= |y| && y[|y| - |x|..] == x }

  function UpTo(n: nat): (s: set<nat>)
    ensures |s| == n + 1 && forall j :: j in s <==> 0 <= j <= n
  {
    if n == 0 then {0} else UpTo(n - 1) + {n}
  }

  lemma FilesWithin(files: Directory, keep: nat)
    requires forall j :: j in files ==> j <= keep
    ensures |files| <= keep + 1
  {
    assert files.Keys <= UpTo(keep);
    SubsetSize(files.Keys, UpTo(keep));
    assert |files| == |files.Keys|;
  }

  lemma {:induction false} SubsetSize(x: set<nat>, y: set<nat>)
    requires x <= y
    ensures |x| <= |y|
    decreases x
  {
    if x != {} {
      var e :| e in x;
      SubsetSize(x - {e}, y - {e});
    }
  }

  /**
   * From an empty directory, after any writes and restarts: the files read oldest first are a
   * suffix of all lines written, there are at most keep + 1, the current one is below the limit,
   * and no file passes it by as much as its last line; without restarts every rotated file has
   * reached it.
   */
  lemma RotationOverEveryRun(events: seq<Event>, keep: nat, maxBytes: nat)
    requires maxBytes > 0
    ensures var l := After(Log(map[0 := []], 0), events, keep, maxBytes);
            && Suffix(History(l.files, keep), LinesOf(events))
            && |l.files| <= keep + 1 && Inv(l, keep, maxBytes)
            && (NoStarts(events) ==> AllFilled(l, maxBytes))
  {
    var start := Log(map[0 := []], 0);
    EmptyBounded(maxBytes);
    assert Inv(start, keep, maxBytes) && AllFilled(start, maxBytes);
    EmptyHistory(keep);
    var gone := RunConserves(start, events, keep, maxBytes);
    var l := After(start, events, keep, maxBytes);
    assert [] + LinesOf(events) == LinesOf(events);
    assert LinesOf(events)[|gone|..] == History(l.files, keep);
    FilesWithin(l.files, keep);
    hide After, History, AllFilled, LinesOf;
  }

  lemma {:induction false} EmptyHistory(keep: nat)
    ensures History(map[0 := []], keep) == []
  {
    if keep > 0 {
      EmptyHistory(keep - 1);
    }
  }
}
