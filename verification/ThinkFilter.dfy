// The streaming <think> filter of src/web/ai-context.js against one pass over the whole text.

module ThinkFilter {
  import opened Text

  const OPEN := "<think>"
  const CLOSE := "</think>"

  // ---------------------------------------------------------------------------
  // Searching
  // ---------------------------------------------------------------------------

  predicate At(s: string, tag: string, i: nat) {
    i + |tag| <= |s| && forall k :: 0 <= k < |tag| ==> tag[k] == s[i + k]
  }

  /** `s.indexOf(tag)`, with None for -1. */
  function IndexOf(s: string, tag: string): (r: Option<nat>)
    ensures r.Some? ==> r.value + |tag| <= |s|
  {
    IndexFrom(s, tag, 0)
  }

  function IndexFrom(s: string, tag: string, start: nat): (r: Option<nat>)
    requires start <= |s|
    ensures r.Some? ==> r.value + |tag| <= |s|
    decreases |s| - start
  {
    if At(s, tag, start) then Some(start)
    else if start == |s| then None
    else IndexFrom(s, tag, start + 1)
  }

  /** The first occurrence, or none at all. */
  ghost predicate Finds(s: string, tag: string, r: Option<nat>) {
    match r
    case Some(n) => At(s, tag, n) && forall i :: 0 <= i < n ==> !At(s, tag, i)
    case None => forall i :: 0 <= i <= |s| ==> !At(s, tag, i)
  }

  lemma {:induction false} IndexFromFinds(s: string, tag: string, start: nat)
    requires start <= |s| && forall i :: 0 <= i < start ==> !At(s, tag, i)
    ensures Finds(s, tag, IndexFrom(s, tag, start))
    decreases |s| - start
  {
    if !At(s, tag, start) && start < |s| {
      IndexFromFinds(s, tag, start + 1);
    }
  }

  lemma IndexFinds(s: string, tag: string)
    ensures Finds(s, tag, IndexOf(s, tag))
  {
    IndexFromFinds(s, tag, 0);
  }

  lemma FindsOnce(s: string, tag: string, r: Option<nat>)
    requires Finds(s, tag, r)
    ensures IndexOf(s, tag) == r
  {
    IndexFinds(s, tag);
  }

  /** `s.lastIndexOf('<')` */
  function LastAngle(s: string): (r: Option<nat>)
    ensures r.Some? ==> r.value < |s| && s[r.value] == '<' && forall i :: r.value < i < |s| ==> s[i] != '<'
    ensures r.None? ==> forall i :: 0 <= i < |s| ==> s[i] != '<'
  {
    if s == "" then None
    else if s[|s| - 1] == '<' then Some(|s| - 1)
    else LastAngle(s[..|s| - 1])
  }

  /** A text without its white space. */
  function Solid(s: string): string {
    if s == "" then "" else (if IsSpace(s[0]) then "" else [s[0]]) + Solid(s[1..])
  }

  lemma {:induction false} SolidAppend(s: string, t: string)
    ensures Solid(s + t) == Solid(s) + Solid(t)
  {
    if s == "" {
      assert s + t == t;
    } else {
      assert (s + t)[1..] == s[1..] + t;
      SolidAppend(s[1..], t);
    }
  }

  // ---------------------------------------------------------------------------
  // One pass over a whole text
  // ---------------------------------------------------------------------------

  /**
   * The text without its think spans: everything from an opening tag to the next closing tag, that
   * tag and the white space behind it; an unclosed span takes the rest.
   */
  function OnePass(s: string): string
    decreases |s|
  {
    match IndexOf(s, OPEN)
    case None => s
    case Some(i) =>
      match IndexOf(s[i + 7..], CLOSE)
      case None => s[..i]
      case Some(j) =>
        TrimStartShorter(s[i + 7..][j + 8..]);
        s[..i] + OnePass(TrimStart(s[i + 7..][j + 8..]))
  }

  lemma {:induction false} TrimStartShorter(s: string)
    ensures |TrimStart(s)| <= |s| && Solid(TrimStart(s)) == Solid(s)
  {
    if s != "" && IsSpace(s[0]) {
      TrimStartShorter(s[1..]);
    }
  }

  /**
   * The same automaton started inside or outside a span, leaving the white space behind closing
   * tags alone.
   */
  function Visible(inside: bool, s: string): string
    decreases |s|
  {
    if inside then
      match IndexOf(s, CLOSE)
      case None => ""
      case Some(j) => Visible(false, s[j + 8..])
    else
      match IndexOf(s, OPEN)
      case None => s
      case Some(i) => s[..i] + Visible(true, s[i + 7..])
  }

  /** Leading white space cannot hold an opening tag. */
  lemma VisibleTrim(s: string)
    ensures Solid(Visible(false, TrimStart(s))) == Solid(Visible(false, s))
  {
    VisibleTrimmed(s, "");
    assert s + "" == s && TrimStart(s) + "" == TrimStart(s);
    hide Visible, Solid, TrimStart;
  }

  /** A first occurrence moves with what is put in front, if it cannot start there. */
  lemma IndexShift(p: string, s: string, tag: string)
    requires forall i :: 0 <= i < |p| ==> !At(p + s, tag, i)
    ensures IndexOf(p + s, tag) == (match IndexOf(s, tag) case None => None case Some(i) => Some(|p| + i))
  {
    forall i | 0 <= i <= |s| ensures At(p + s, tag, |p| + i) <==> At(s, tag, i) {
      AtShift(p, s, tag, i);
    }
    IndexFinds(s, tag);
    var r := match IndexOf(s, tag) case None => None case Some(i) => Some(|p| + i);
    assert Finds(p + s, tag, r) by {
      forall i | |p| <= i <= |p + s| ensures At(p + s, tag, i) <==> At(s, tag, i - |p|) {
        AtShift(p, s, tag, i - |p|);
      }
    }
    FindsOnce(p + s, tag, r);
  }

  lemma AtShift(p: string, s: string, tag: string, i: nat)
    ensures At(p + s, tag, |p| + i) <==> At(s, tag, i)
  {
  }

  lemma AtPrefix(s: string, future: string, tag: string, i: nat)
    requires i + |tag| <= |s|
    ensures At(s + future, tag, i) <==> At(s, tag, i)
  {
  }

  /** The text from its first opening tag on, at some place `i`. */
  lemma SplitAtTag(p: string, s: string, i: nat)
    requires i + 7 <= |s|
    ensures (p + s)[..|p| + i] == p + s[..i] && (p + s)[|p| + i + 7..] == s[i + 7..]
  {
  }

  lemma Regroup(p: string, x: string, v: string)
    ensures (p + x) + v == p + (x + v)
  {
  }

  /** Text in which no opening tag can start is visible as it is. */
  lemma VisiblePrefix(p: string, s: string)
    requires forall i :: 0 <= i < |p| ==> !At(p + s, OPEN, i)
    ensures Visible(false, p + s) == p + Visible(false, s)
  {
    IndexShift(p, s, OPEN);
    if IndexOf(s, OPEN).Some? {
      var i := IndexOf(s, OPEN).value;
      SplitAtTag(p, s, i);
      var v := Visible(true, s[i + 7..]);
      assert Visible(false, s) == s[..i] + v;
      assert Visible(false, p + s) == (p + s[..i]) + v;
      Regroup(p, s[..i], v);
    }
  }

  lemma VisibleSkip(p: string, s: string)
    requires |p| == 1 && IsSpace(p[0])
    ensures Visible(false, p + s) == p + Visible(false, s)
  {
    assert !At(p + s, OPEN, 0) by {
      assert OPEN[0] == '<' && (p + s)[0 + 0] == p[0];
    }
    VisiblePrefix(p, s);
  }

  /** Where the text holds a whole span, both readings pass over it. */
  lemma OverSpan(s: string, i: nat, j: nat)
    requires IndexOf(s, OPEN) == Some(i) && IndexOf(s[i + 7..], CLOSE) == Some(j)
    ensures OnePass(s) == s[..i] + OnePass(TrimStart(s[i + 7..][j + 8..]))
    ensures Visible(false, s) == s[..i] + Visible(false, s[i + 7..][j + 8..])
    ensures |TrimStart(s[i + 7..][j + 8..])| < |s|
  {
    hide IndexOf, IsSpace, At, Solid, TrimStart;
    TrimStartShorter(s[i + 7..][j + 8..]);
  }

  /** Both readings of a whole text agree up to white space. */
  lemma {:induction false} OnePassVisible(s: string)
    ensures Solid(OnePass(s)) == Solid(Visible(false, s))
    decreases |s|
  {
    match IndexOf(s, OPEN) {
      case None =>
      case Some(i) =>
        var body := s[i + 7..];
        match IndexOf(body, CLOSE) {
          case None =>
            assert Visible(true, body) == "";
            assert s[..i] + "" == s[..i];
          case Some(j) =>
            hide OnePass, Visible, IndexOf, Solid;
            var rest := body[j + 8..];
            OverSpan(s, i, j);
            OnePassVisible(TrimStart(rest));
            VisibleTrim(rest);
            SolidAppend(s[..i], OnePass(TrimStart(rest)));
            SolidAppend(s[..i], Visible(false, rest));
        }
    }
  }

  // ---------------------------------------------------------------------------
  // What the filter may hold back
  // ---------------------------------------------------------------------------

  /** Outside a span, without an opening tag in the buffer: how much of it is emitted. */
  function SafeLength(buf: string): (n: nat)
    ensures n <= |buf| && |buf| - n <= 7
  {
    match LastAngle(buf)
    case None => |buf|
    case Some(keep) => if |buf| - keep > 7 then |buf| else keep
  }

  /** An opening tag that starts in the buffer and is not complete there starts in the held part. */
  lemma PartialTag(buf: string, future: string, i: nat)
    requires IndexOf(buf, OPEN).None? && i < |buf| && At(buf + future, OPEN, i)
    ensures SafeLength(buf) <= i
  {
    var whole := buf + future;
    assert forall k :: 0 <= k < |buf| ==> whole[k] == buf[k];
    IndexFinds(buf, OPEN);
    if i + 7 <= |buf| {
      AtPrefix(buf, future, OPEN, i);
    }
    assert OPEN[0] == whole[i + 0];
    var keep := LastAngle(buf).value;
    var d := keep - i;
    assert OPEN[d] == whole[i + d];
  }

  /** Whatever follows, no opening tag starts in the emitted part. */
  lemma SafePart(buf: string, future: string)
    requires IndexOf(buf, OPEN).None?
    ensures var n := SafeLength(buf);
            Visible(false, buf + future) == buf[..n] + Visible(false, buf[n..] + future)
  {
    var n := SafeLength(buf);
    assert buf + future == buf[..n] + (buf[n..] + future);
    forall i | 0 <= i < n ensures !At(buf + future, OPEN, i) {
      if At(buf + future, OPEN, i) {
        PartialTag(buf, future, i);
      }
    }
    VisiblePrefix(buf[..n], buf[n..] + future);
  }

  /** `buf.slice(-8)` */
  function Last8(buf: string): string { if |buf| <= 8 then buf else buf[|buf| - 8..] }

  /** Inside a span, without a closing tag in the buffer: its last characters are all that matters. */
  lemma TailPart(buf: string, future: string)
    requires IndexOf(buf, CLOSE).None?
    ensures Visible(true, buf + future) == Visible(true, Last8(buf) + future)
  {
    if |buf| > 8 {
      var p, t := buf[..|buf| - 8], buf[|buf| - 8..];
      assert p + (t + future) == buf + future;
      IndexFinds(buf, CLOSE);
      forall i | 0 <= i < |p| ensures !At(p + (t + future), CLOSE, i) {
        AtPrefix(buf, future, CLOSE, i);
      }
      IndexShift(p, t + future, CLOSE);
      match IndexOf(t + future, CLOSE) {
        case None =>
        case Some(j) =>
          assert (buf + future)[|p| + j + 8..] == (t + future)[j + 8..];
      }
    }
  }

  /** With `future` still to come: what was emitted and what will be visible make up the visible text. */
  ghost predicate Balance(inside: bool, emitted: string, fed: string, buf: string, future: string) {
    Solid(emitted) + Solid(Visible(inside, buf + future)) == Solid(Visible(false, fed + future))
  }

  ghost predicate Balanced(inside: bool, emitted: string, fed: string, buf: string) {
    forall future :: Balance(inside, emitted, fed, buf, future)
  }

  lemma FeedKeeps(inside: bool, emitted: string, fed: string, buf: string, token: string)
    requires Balanced(inside, emitted, fed, buf)
    ensures Balanced(inside, emitted, fed + token, buf + token)
  {
    forall future ensures Balance(inside, emitted, fed + token, buf + token, future) {
      assert Balance(inside, emitted, fed, buf, token + future);
      Regroup(buf, token, future);
      Regroup(fed, token, future);
    }
  }

  /** Emitting the safe part keeps the balance. */
  lemma EmitKeeps(emitted: string, fed: string, buf: string, n: nat)
    requires IndexOf(buf, OPEN).None? && n == SafeLength(buf)
    requires Balanced(false, emitted, fed, buf)
    ensures Balanced(false, emitted + buf[..n], fed, buf[n..])
  {
    forall future ensures Balance(false, emitted + buf[..n], fed, buf[n..], future) {
      assert Balance(false, emitted, fed, buf, future);
      var rest := Visible(false, buf[n..] + future);
      SafePart(buf, future);
      SolidAppend(buf[..n], rest);
      SolidAppend(emitted, buf[..n]);
      Regroup(Solid(emitted), Solid(buf[..n]), Solid(rest));
    }
  }

  /** So does dropping all but the last characters inside a span. */
  lemma TailKeeps(emitted: string, fed: string, buf: string)
    requires IndexOf(buf, CLOSE).None? && Balanced(true, emitted, fed, buf)
    ensures Balanced(true, emitted, fed, Last8(buf))
  {
    forall future ensures Balance(true, emitted, fed, Last8(buf), future) {
      assert Balance(true, emitted, fed, buf, future);
      TailPart(buf, future);
    }
  }

  /** So does leaving a span, trimming what follows in the buffer. */
  lemma CloseKeeps(emitted: string, fed: string, buf: string, end: nat)
    requires IndexOf(buf, CLOSE) == Some(end) && Balanced(true, emitted, fed, buf)
    ensures Balanced(false, emitted, fed, TrimStart(buf[end + 8..]))
  {
    var rest := buf[end + 8..];
    var trimmed := TrimStart(rest);
    forall future ensures Balance(false, emitted, fed, trimmed, future) {
      assert Balance(true, emitted, fed, buf, future);
      IndexExtends(buf, future, CLOSE);
      assert (buf + future)[end + 8..] == rest + future;
      assert Visible(true, buf + future) == Visible(false, rest + future);
      VisibleTrimmed(rest, future);
    }
  }

  /** So does entering one, emitting what stands before it. */
  lemma OpenKeeps(emitted: string, fed: string, buf: string, start: nat)
    requires IndexOf(buf, OPEN) == Some(start) && Balanced(false, emitted, fed, buf)
    ensures Balanced(true, emitted + buf[..start], fed, buf[start + 7..])
  {
    var shown, body := buf[..start], buf[start + 7..];
    forall future ensures Balance(true, emitted + shown, fed, body, future) {
      assert Balance(false, emitted, fed, buf, future);
      var rest := Visible(true, body + future);
      IndexExtends(buf, future, OPEN);
      assert (buf + future)[start + 7..] == body + future;
      assert (buf + future)[..start] == shown;
      SolidAppend(shown, rest);
      SolidAppend(emitted, shown);
      Regroup(Solid(emitted), Solid(shown), Solid(rest));
    }
  }

  /** Between tokens: what was emitted plus the tail held back outside a span is the one-pass text. */
  lemma SettledShows(inside: bool, emitted: string, fed: string, buf: string)
    requires Balanced(inside, emitted, fed, buf)
    requires if inside then IndexOf(buf, CLOSE).None? else IndexOf(buf, OPEN).None?
    ensures Solid(emitted) + Solid(if inside then "" else buf) == Solid(OnePass(fed))
  {
    assert Balance(inside, emitted, fed, buf, "");
    assert buf + "" == buf && fed + "" == fed;
    OnePassVisible(fed);
  }

  // ---------------------------------------------------------------------------
  // The filter
  // ---------------------------------------------------------------------------

  class Filter {
    var inside: bool
    var buf: string
    /** Everything passed to onToken so far. */
    ghost var emitted: string
    /** Everything fed in so far. */
    ghost var fed: string

    /** Whatever is fed next, what was emitted and what is still to come make up the visible text. */
    ghost predicate Valid()
      reads this
    {
      Balanced(inside, emitted, fed, buf)
    }

    /** The buffer between two tokens: a possible partial tag outside, the last characters inside. */
    ghost predicate Settled()
      reads this
    {
      if inside then |buf| <= 8 && IndexOf(buf, CLOSE).None?
      else |buf| <= 7 && IndexOf(buf, OPEN).None?
    }

    constructor ()
      ensures Valid() && Settled() && emitted == "" && fed == "" && !inside
    {
      inside, buf, emitted, fed := false, "", "", "";
    }

    /** One token; the result is what onToken received, call by call. */
    method Feed(token: string) returns (out: seq<string>)
      requires Valid()
      modifies this
      ensures Valid() && Settled()
      ensures fed == old(fed) + token
      ensures emitted == old(emitted) + Concat(out)
      ensures Solid(emitted) + Solid(if inside then "" else buf) == Solid(OnePass(fed))
    {
      out := [];
      FeedKeeps(inside, emitted, fed, buf, token);
      buf := buf + token;
      fed := fed + token;
      var more := true;
      while more
        invariant Valid() && fed == old(fed) + token && emitted == old(emitted) + Concat(out)
        invariant !more ==> Settled()
        decreases more, |buf|
      {
        var shown: string;
        shown, more := Scan();
        if shown != "" {
          ConcatOne(out, shown);
          out := out + [shown];
        }
      }
      SettledShows(inside, emitted, fed, buf);
    }

    /** One turn of the loop: `shown` goes to onToken unless it is empty; the loop goes on if `more`. */
    method Scan() returns (shown: string, more: bool)
      requires Valid()
      modifies this
      ensures Valid() && fed == old(fed) && emitted == old(emitted) + shown
      ensures if more then |buf| < old(|buf|) else Settled()
    {
      shown := "";
      if inside {
        var end := IndexOf(buf, CLOSE);
        if end.None? {
          KeepTail();
          return "", false;
        }
        CloseSpan(end.value);
        return "", true;
      }
      var start := IndexOf(buf, OPEN);
      if start.None? {
        shown := EmitSafe();
        return shown, false;
      }
      shown := OpenSpan(start.value);
      return shown, true;
    }

    method KeepTail()
      requires Valid() && inside && IndexOf(buf, CLOSE).None?
      modifies this`buf
      ensures Valid() && Settled()
    {
      TailKeeps(emitted, fed, buf);
      SuffixFree(buf, if |buf| <= 8 then 0 else |buf| - 8, CLOSE);
      assert buf[0..] == buf;
      buf := Last8(buf);
    }

    method CloseSpan(end: nat)
      requires Valid() && inside && IndexOf(buf, CLOSE) == Some(end)
      modifies this`buf, this`inside
      ensures Valid() && !inside && |buf| < old(|buf|)
    {
      CloseKeeps(emitted, fed, buf, end);
      TrimStartShorter(buf[end + 8..]);
      buf := TrimStart(buf[end + 8..]);
      inside := false;
    }

    method OpenSpan(start: nat) returns (shown: string)
      requires Valid() && !inside && IndexOf(buf, OPEN) == Some(start)
      modifies this
      ensures Valid() && inside && |buf| < old(|buf|) && fed == old(fed)
      ensures emitted == old(emitted) + shown && shown == old(buf)[..start]
    {
      OpenKeeps(emitted, fed, buf, start);
      shown := buf[..start];
      emitted := emitted + shown;
      buf := buf[start + 7..];
      inside := true;
    }

    method EmitSafe() returns (safe: string)
      requires Valid() && !inside && IndexOf(buf, OPEN).None?
      modifies this
      ensures Valid() && Settled() && !inside && fed == old(fed)
      ensures emitted == old(emitted) + safe
    {
      ghost var was := buf;
      var keep := LastAngle(buf);
      safe := if keep.None? || |buf| - keep.value > 7 then buf else buf[..keep.value];
      var n := |safe|;
      assert n == SafeLength(buf) && safe == buf[..n];
      EmitKeeps(emitted, fed, was, n);
      emitted := emitted + safe;
      buf := buf[n..];
      SuffixFree(was, n, OPEN);
    }
  }

  /** A text without the tag has none in any suffix. */
  lemma SuffixFree(s: string, n: nat, tag: string)
    requires n <= |s| && IndexOf(s, tag).None?
    ensures IndexOf(s[n..], tag).None?
  {
    IndexFinds(s, tag);
    assert s[..n] + s[n..] == s;
    forall i | 0 <= i <= |s[n..]| ensures !At(s[n..], tag, i) {
      AtShift(s[..n], s[n..], tag, i);
    }
    FindsOnce(s[n..], tag, None);
  }

  function Concat(out: seq<string>): string {
    if out == [] then "" else Concat(out[..|out| - 1]) + out[|out| - 1]
  }

  lemma ConcatOne(out: seq<string>, s: string)
    ensures Concat(out + [s]) == Concat(out) + s
  {
  }

  /** A first occurrence stays where it is when text is appended. */
  lemma IndexExtends(s: string, future: string, tag: string)
    requires IndexOf(s, tag).Some?
    ensures IndexOf(s + future, tag) == IndexOf(s, tag)
  {
    var i := IndexOf(s, tag).value;
    IndexFinds(s, tag);
    forall k | 0 <= k <= i ensures At(s + future, tag, k) <==> At(s, tag, k) {
      AtPrefix(s, future, tag, k);
    }
    FindsOnce(s + future, tag, Some(i));
  }

  /** Trimming in front of text still to come changes only white space. */
  lemma {:induction false} VisibleTrimmed(rest: string, future: string)
    ensures Solid(Visible(false, TrimStart(rest) + future)) == Solid(Visible(false, rest + future))
    decreases |rest|
  {
    hide Visible, IsSpace;
    if rest != "" && IsSpace(rest[0]) {
      VisibleTrimmed(rest[1..], future);
      VisibleSkip(rest[..1], rest[1..] + future);
      assert rest[..1] + (rest[1..] + future) == rest + future;
      SolidAppend(rest[..1], Visible(false, rest[1..] + future));
      assert Solid(rest[..1]) == "";
    }
  }

  // ---------------------------------------------------------------------------
  // Whole streams
  // ---------------------------------------------------------------------------

  function Flatten(tokens: seq<string>): string {
    if tokens == [] then "" else Flatten(tokens[..|tokens| - 1]) + tokens[|tokens| - 1]
  }

  /**
   * However a text is cut into tokens: what onToken received, with the tail of at most seven
   * characters held back outside a span, is up to white space the text with its think spans
   * removed in one pass. So the cut makes no difference, and nothing solid of a span is emitted.
   */
  method FilterStream(tokens: seq<string>) returns (shown: string, held: string)
    ensures |held| <= 7
    ensures Solid(shown) + Solid(held) == Solid(OnePass(Flatten(tokens)))
  {
    var filter := new Filter();
    shown, held := "", "";
    var i := 0;
    assert tokens[..0] == [];
    while i < |tokens|
      invariant 0 <= i <= |tokens|
      invariant fresh(filter) && filter.Valid() && filter.Settled()
      invariant filter.fed == Flatten(tokens[..i]) && filter.emitted == shown
    {
      assert tokens[..i + 1][..i] == tokens[..i];
      var out := filter.Feed(tokens[i]);
      shown := shown + Concat(out);
      i := i + 1;
    }
    assert tokens[..|tokens|] == tokens;
    SettledShows(filter.inside, filter.emitted, filter.fed, filter.buf);
    held := if filter.inside then "" else filter.buf;
  }
}
