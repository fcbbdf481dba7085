// MQTT topic filters: the matcher with captures (src/lib/mqtt-wildcards.js) against
// section 4.7 of the MQTT 3.1.1 standard.

module Wildcards {
  import opened Text

  const PLUS := "+"
  const HASH := "#"

  // ---------------------------------------------------------------------------
  // What the matcher computes
  // ---------------------------------------------------------------------------

  /** The level loop: captures of `t` against `w`, or None. */
  function CaptureLevels(t: seq<string>, w: seq<string>): Option<seq<string>> {
    if t == [] then
      if w == [] || w == [HASH] then Some([]) else None
    else if w == [] then None
    else if w[0] == PLUS then Prepend(t[0], CaptureLevels(t[1..], w[1..]))
    else if w[0] == HASH then Some([Join(t, '/')])
    else if w[0] != t[0] then None
    else CaptureLevels(t[1..], w[1..])
  }

  function Prepend(c: string, r: Option<seq<string>>): Option<seq<string>> {
    match r
    case None => None
    case Some(cs) => Some([c] + cs)
  }

  function Capture(topic: string, wildcard: string): Option<seq<string>> {
    if topic == wildcard then Some([])
    else if wildcard == HASH then Some([topic])
    else CaptureLevels(Split(topic, '/'), Split(wildcard, '/'))
  }

  predicate Matches(topic: string, wildcard: string) {
    Capture(topic, wildcard).Some?
  }

  /** The matcher itself: an index walks both level lists and pushes captures. */
  method MqttWildcard(topic: string, wildcard: string) returns (r: Option<seq<string>>)
    ensures r == Capture(topic, wildcard)
  {
    if topic == wildcard {
      return Some([]);
    } else if wildcard == HASH {
      return Some([topic]);
    }
    var res: seq<string> := [];
    var t := Split(topic, '/');
    var w := Split(wildcard, '/');
    ghost var want := CaptureLevels(t, w);
    var i := 0;
    assert t[0..] == t && w[0..] == w;
    assert want.Some? ==> res + want.value == want.value;
    while i < |t|
      invariant 0 <= i <= |t| && i <= |w|
      invariant want == Append(res, CaptureLevels(t[i..], w[i..]))
    {
      ghost var rest := CaptureLevels(t[i..], w[i..]);
      assert t[i..][1..] == t[i + 1..];
      if i < |w| && w[i] == PLUS {
        assert w[i..][1..] == w[i + 1..];
        AppendPrepend(res, t[i], CaptureLevels(t[i + 1..], w[i + 1..]));
        res := res + [t[i]];
      } else if i < |w| && w[i] == HASH {
        return Some(res + [Join(t[i..], '/')]);
      } else if i >= |w| || w[i] != t[i] {
        return None;
      } else {
        assert w[i..][1..] == w[i + 1..];
      }
      i := i + 1;
    }
    assert res + [] == res;
    if i < |w| && w[i] == HASH {
      i := i + 1;
    }
    return if i == |w| then Some(res) else None;
  }

  ghost function Append(res: seq<string>, r: Option<seq<string>>): Option<seq<string>> {
    match r
    case None => None
    case Some(cs) => Some(res + cs)
  }

  lemma AppendPrepend(res: seq<string>, c: string, r: Option<seq<string>>)
    ensures Append(res, Prepend(c, r)) == Append(res + [c], r)
  {
    if r.Some? {
      assert res + ([c] + r.value) == (res + [c]) + r.value;
    }
  }

  // ---------------------------------------------------------------------------
  // What the standard says
  // ---------------------------------------------------------------------------

  predicate HasWildcard(s: string) { '+' in s || '#' in s }

  /** Section 4.7.1: a wildcard occupies a whole level, '#' only the last one. */
  predicate ValidFilter(f: string) {
    var w := Split(f, '/');
    f != "" &&
    forall i :: 0 <= i < |w| ==>
      (HasWildcard(w[i]) ==> w[i] == PLUS || (w[i] == HASH && i == |w| - 1))
  }

  /** Section 4.7: a topic name holds no wildcard characters. */
  predicate ValidTopic(topic: string) {
    topic != "" && !HasWildcard(topic)
  }

  predicate LevelMatches(t: string, f: string) { f == PLUS || f == t }

  /**
   * Sections 4.7.1.2 and 4.7.1.3, level by level: '#' stands for the parent level and any number
   * of levels below it, '+' for exactly one level, anything else for itself.
   */
  ghost predicate LevelsMatch(t: seq<string>, w: seq<string>) {
    if |w| > 0 && w[|w| - 1] == HASH then
      |t| >= |w| - 1 && forall i :: 0 <= i < |w| - 1 ==> LevelMatches(t[i], w[i])
    else
      |t| == |w| && forall i :: 0 <= i < |w| ==> LevelMatches(t[i], w[i])
  }

  ghost predicate WildcardRules(topic: string, f: string) {
    LevelsMatch(Split(topic, '/'), Split(f, '/'))
  }

  predicate StartsWithWildcard(f: string) { f != "" && (f[0] == '+' || f[0] == '#') }

  /** Section 4.7 with 4.7.2: a filter starting with a wildcard never matches a '$' topic. */
  ghost predicate StandardMatch(topic: string, f: string) {
    WildcardRules(topic, f) && !(topic != "" && topic[0] == '$' && StartsWithWildcard(f))
  }

  /** Within a valid filter '#' stands only at the end. */
  predicate HashOnlyLast(w: seq<string>) {
    forall i :: 0 <= i < |w| - 1 ==> w[i] != HASH
  }

  lemma {:induction false} CaptureIsLevelsMatch(t: seq<string>, w: seq<string>)
    requires HashOnlyLast(w)
    requires forall i :: 0 <= i < |t| ==> !HasWildcard(t[i])
    ensures CaptureLevels(t, w).Some? <==> LevelsMatch(t, w)
  {
    if t == [] || w == [] || w[0] == HASH {
    } else {
      CaptureIsLevelsMatch(t[1..], w[1..]);
      if LevelsMatch(t, w) {
        assert LevelMatches(t[0], w[0]);
        assert LevelsMatch(t[1..], w[1..]);
      }
      if LevelMatches(t[0], w[0]) && LevelsMatch(t[1..], w[1..]) {
        forall i | 0 <= i < (if w[|w| - 1] == HASH then |w| - 1 else |w|)
          ensures i < |t| && LevelMatches(t[i], w[i])
        {
          if i > 0 {
            assert LevelMatches(t[1..][i - 1], w[1..][i - 1]);
          }
        }
      }
    }
  }

  lemma {:induction false} PiecesWithin(s: string, sep: char)
    ensures forall i, c :: 0 <= i < |Split(s, sep)| && c in Split(s, sep)[i] ==> c in s
  {
    if s != "" {
      PiecesWithin(s[1..], sep);
      assert forall c :: c in s[1..] ==> c in s;
    }
  }

  lemma LevelsOfTopic(topic: string)
    requires ValidTopic(topic)
    ensures forall i :: 0 <= i < |Split(topic, '/')| ==> !HasWildcard(Split(topic, '/')[i])
  {
    PiecesWithin(topic, '/');
    hide Split;
  }

  /**
   * For every valid filter and wildcard-free topic the matcher answers exactly by the wildcard
   * rules 4.7.1.2 and 4.7.1.3, the parent level of '#' included.
   */
  lemma MatchesByWildcardRules(topic: string, f: string)
    requires ValidFilter(f) && ValidTopic(topic)
    ensures Matches(topic, f) <==> WildcardRules(topic, f)
  {
    var t, w := Split(topic, '/'), Split(f, '/');
    LevelsOfTopic(topic);
    assert HashOnlyLast(w) by {
      forall i | 0 <= i < |w| - 1 ensures w[i] != HASH {
        if w[i] == HASH {
          assert HasWildcard(w[i]);
        }
      }
    }
    if topic == f {
      assert !HasWildcard(t[|t| - 1]);
      assert w[|w| - 1] != HASH;
    } else if f == HASH {
      SplitFree(HASH, '/');
    } else {
      CaptureIsLevelsMatch(t, w);
    }
  }

  /** Putting captures back in place of the wildcards, level by level. */
  function Fill(w: seq<string>, captures: seq<string>): seq<string> {
    if w == [] then []
    else if w[0] == HASH then (if captures == [] then [] else Split(captures[0], '/'))
    else if w[0] == PLUS && captures != [] then [captures[0]] + Fill(w[1..], captures[1..])
    else [w[0]] + Fill(w[1..], captures)
  }

  function Rebuild(f: string, captures: seq<string>): string {
    Join(Fill(Split(f, '/'), captures), '/')
  }

  lemma {:induction false} FillCaptured(t: seq<string>, w: seq<string>)
    requires CaptureLevels(t, w).Some?
    requires forall i :: 0 <= i < |t| ==> '/' !in t[i]
    ensures Fill(w, CaptureLevels(t, w).value) == t
  {
    if t != [] {
      if w[0] == PLUS {
        FillCaptured(t[1..], w[1..]);
      } else if w[0] == HASH {
        SplitJoin(t, '/');
      } else {
        FillCaptured(t[1..], w[1..]);
      }
    }
  }

  /** A match's captures, put back, rebuild the topic, whatever the filter. */
  lemma CapturesRebuildTopic(topic: string, f: string)
    requires ValidTopic(topic) && Matches(topic, f)
    ensures Rebuild(f, Capture(topic, f).value) == topic
  {
    var t, w := Split(topic, '/'), Split(f, '/');
    if topic == f {
      LevelsOfTopic(topic);
      FillPlain(w);
    } else if f == HASH {
      SplitFree(HASH, '/');
    } else {
      FillCaptured(t, w);
    }
  }

  lemma {:induction false} FillPlain(w: seq<string>)
    requires forall i :: 0 <= i < |w| ==> !HasWildcard(w[i])
    ensures Fill(w, []) == w
  {
    if w != [] {
      FillPlain(w[1..]);
    }
  }

  // ---------------------------------------------------------------------------
  // Section 4.7.2: topics beginning with '$'
  // ---------------------------------------------------------------------------

  /** A '$' topic that the filter matches by the wildcard rules: every wildcard level becomes "$". */
  function DollarLevels(w: seq<string>): (t: seq<string>)
    ensures |t| == |w|
    ensures forall i :: 0 <= i < |w| ==> t[i] == if w[i] == PLUS || w[i] == HASH then "$" else w[i]
  {
    seq(|w|, i requires 0 <= i < |w| => if w[i] == PLUS || w[i] == HASH then "$" else w[i])
  }

  lemma {:induction false} JoinFree(t: seq<string>)
    requires forall i :: 0 <= i < |t| ==> !HasWildcard(t[i])
    ensures !HasWildcard(Join(t, '/'))
  {
    if |t| > 1 {
      JoinFree(t[1..]);
    }
  }

  lemma FirstLevel(f: string)
    requires ValidFilter(f)
    ensures StartsWithWildcard(f) <==> (Split(f, '/')[0] == PLUS || Split(f, '/')[0] == HASH)
  {
  }

  lemma DollarLevelsPlain(w: seq<string>)
    requires forall i :: 0 <= i < |w| ==> '/' !in w[i]
    requires forall i :: 0 <= i < |w| ==> HasWildcard(w[i]) ==> w[i] == PLUS || (w[i] == HASH && i == |w| - 1)
    ensures forall i :: 0 <= i < |w| ==> !HasWildcard(DollarLevels(w)[i]) && '/' !in DollarLevels(w)[i]
    ensures LevelsMatch(DollarLevels(w), w)
  {
  }

  lemma JoinStart(t: seq<string>)
    requires t != [] && t[0] == "$"
    ensures Join(t, '/') != "" && Join(t, '/')[0] == '$'
  {
  }

  /** Any filter that starts with a wildcard matches some '$' topic against rule 4.7.2. */
  lemma DollarWitness(f: string) returns (topic: string)
    requires ValidFilter(f) && StartsWithWildcard(f)
    ensures ValidTopic(topic) && Matches(topic, f) && !StandardMatch(topic, f)
  {
    var w := Split(f, '/');
    var t := DollarLevels(w);
    topic := Join(t, '/');
    DollarLevelsPlain(w);
    JoinFree(t);
    SplitJoin(t, '/');
    FirstLevel(f);
    JoinStart(t);
    MatchesByWildcardRules(topic, f);
  }

  /**
   * The matcher knows no '$' rule, so it agrees with the whole of section 4.7 on every topic
   * exactly for the filters that do not start with a wildcard.
   */
  lemma AgreesWithStandardExactly(f: string)
    requires ValidFilter(f)
    ensures (forall topic :: ValidTopic(topic) ==> Matches(topic, f) == StandardMatch(topic, f))
            <==> !StartsWithWildcard(f)
  {
    if StartsWithWildcard(f) {
      var topic := DollarWitness(f);
    } else {
      forall topic | ValidTopic(topic)
        ensures Matches(topic, f) == StandardMatch(topic, f)
      {
        MatchesByWildcardRules(topic, f);
      }
    }
  }
}
