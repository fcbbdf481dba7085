// Redacting secret values in a log line (src/lib/secrets.js, redact): every occurrence of every
// listed value becomes three stars, one value after the other.

module Redaction {

  const STARS := "***"

  predicate StartsWith(s: string, v: string) { |v| <= |s| && s[..|v|] == v }

  predicate At(s: string, i: nat, v: string) { i <= |s| && StartsWith(s[i..], v) }

  predicate Includes(s: string, v: string) { exists i :: 0 <= i <= |s| && At(s, i, v) }

  /** `s.split(v).join('***')` for a non-empty value. */
  function Replace(s: string, v: string): string
    requires v != ""
    decreases |s|
  {
    if s == "" then ""
    else if StartsWith(s, v) then STARS + Replace(s[|v|..], v)
    else [s[0]] + Replace(s[1..], v)
  }

  predicate NonEmpty(list: seq<string>) { forall i :: 0 <= i < |list| ==> list[i] != "" }

  function RedactAll(s: string, list: seq<string>): string
    requires NonEmpty(list)
    decreases list
  {
    if list == [] then s else RedactAll(Replace(s, list[0]), list[1..])
  }

  /** The loop over the list, which leaves a line alone that does not hold the value. */
  method Redact(s: string, list: seq<string>) returns (out: string)
    requires NonEmpty(list)
    ensures out == RedactAll(s, list)
  {
    out := s;
    assert list[0..] == list;
    for i := 0 to |list|
      invariant RedactAll(out, list[i..]) == RedactAll(s, list)
    {
      assert list[i..][1..] == list[i + 1..];
      if Includes(out, list[i]) {
        out := Replace(out, list[i]);
      } else {
        ReplaceNone(out, list[i]);
      }
    }
  }

  lemma IncludesStep(s: string, v: string)
    requires s != ""
    ensures Includes(s, v) <==> StartsWith(s, v) || Includes(s[1..], v)
  {
    if StartsWith(s, v) {
      assert s[0..] == s;
      assert At(s, 0, v);
    }
    if i :| 0 <= i <= |s| - 1 && At(s[1..], i, v) {
      assert s[1..][i..] == s[i + 1..];
      assert At(s, i + 1, v);
    }
    if i :| 0 <= i <= |s| && At(s, i, v) {
      if i == 0 {
        assert s[0..] == s;
      } else {
        assert s[1..][i - 1..] == s[i..];
        assert At(s[1..], i - 1, v);
      }
    }
  }

  lemma {:induction false} ReplaceNone(s: string, v: string)
    requires v != "" && !Includes(s, v)
    ensures Replace(s, v) == s
    decreases |s|
  {
    if s != "" {
      IncludesStep(s, v);
      ReplaceNone(s[1..], v);
      assert [s[0]] + s[1..] == s;
    }
  }

  lemma TooShort(s: string, v: string)
    requires |s| < |v|
    ensures !Includes(s, v)
  {
  }

  // ---------------------------------------------------------------------------
  // Values that cannot be put together again by the stars
  // ---------------------------------------------------------------------------

  predicate NoThreeStars(v: string) {
    forall i :: 0 <= i < |v| - 2 ==> !(v[i] == '*' && v[i + 1] == '*' && v[i + 2] == '*')
  }

  /** No star at either end, and nowhere three in a row. */
  predicate Safe(v: string) { v != "" && v[0] != '*' && v[|v| - 1] != '*' && NoThreeStars(v) }

  lemma NoStarStart(w: string, rest: string)
    requires w != "" && w[|w| - 1] != '*' && NoThreeStars(w)
    ensures !StartsWith(STARS + rest, w)
  {
    var r := STARS + rest;
    assert r[0] == '*' && r[1] == '*' && r[2] == '*';
    assert StartsWith(r, w) ==> forall i :: 0 <= i < |w| ==> r[..|w|][i] == r[i];
  }

  /** A start without three stars that does not end in one was there before the replacement. */
  lemma {:induction false} StartWasThere(w: string, t: string, v: string)
    requires v != "" && NoThreeStars(w) && (w != "" ==> w[|w| - 1] != '*')
    requires StartsWith(Replace(t, v), w)
    ensures StartsWith(t, w)
    decreases |t|
  {
    if w != "" && t != "" {
      var r := Replace(t, v);
      assert w == r[..|w|];
      NoStarStart(w, if StartsWith(t, v) then Replace(t[|v|..], v) else "");
      if !StartsWith(t, v) {
        assert w[0] == t[0];
        assert w[1..] == r[1..][..|w| - 1];
        assert NoThreeStars(w[1..]);
        StartWasThere(w[1..], t[1..], v);
        assert t[..|w|] == [t[0]] + t[1..][..|w| - 1];
        assert w == [w[0]] + w[1..];
      }
    }
  }

  lemma NotAtStars(r: string, rest: string, i: nat, u: string)
    requires r == STARS + rest && Safe(u) && At(r, i, u)
    ensures i >= 3 && At(rest, i - 3, u)
  {
  }

  lemma AtNotEmpty(s: string, i: nat, u: string)
    requires u != "" && At(s, i, u)
    ensures s != ""
  {
  }

  /** A safe value that is there after replacing some value was there before, and it is not that value. */
  lemma {:induction false} WasThere(s: string, v: string, u: string)
    requires v != "" && Safe(u) && Includes(Replace(s, v), u)
    ensures Includes(s, u) && u != v
    decreases |s|
  {
    var r := Replace(s, v);
    var i :| 0 <= i <= |r| && At(r, i, u);
    AtNotEmpty(r, i, u);
    if StartsWith(s, v) {
      var rest := s[|v|..];
      NotAtStars(r, Replace(rest, v), i, u);
      WasThere(rest, v, u);
      LaterIncludes(s, |v|, u);
    } else if i > 0 {
      assert r[i..] == Replace(s[1..], v)[i - 1..];
      assert At(Replace(s[1..], v), i - 1, u);
      WasThere(s[1..], v, u);
      LaterIncludes(s, 1, u);
    } else {
      assert r[0..] == r;
      StartWasThere(u, s, v);
      IncludesStep(s, u);
    }
  }

  lemma LaterIncludes(s: string, n: nat, u: string)
    requires n <= |s| && Includes(s[n..], u)
    ensures Includes(s, u)
  {
    var i :| 0 <= i <= |s| - n && At(s[n..], i, u);
    assert s[n..][i..] == s[n + i..];
    assert At(s, n + i, u);
  }

  /** With safe values only, no listed value is left in any line, whatever the replacements join. */
  lemma {:induction false} NothingLeft(s: string, list: seq<string>, u: string)
    requires NonEmpty(list) && Safe(u) && (u in list || !Includes(s, u))
    ensures !Includes(RedactAll(s, list), u)
    decreases list
  {
    if list != [] {
      if Includes(Replace(s, list[0]), u) {
        WasThere(s, list[0], u);
      }
      NothingLeft(Replace(s, list[0]), list[1..], u);
    }
  }

  // ---------------------------------------------------------------------------
  // Values that can
  // ---------------------------------------------------------------------------

  /** Text in front of the value that starts no occurrence itself stays in front of the stars. */
  lemma {:induction false} ReplaceBehind(a: string, v: string, t: string)
    requires v != "" && forall k :: 0 <= k < |a| ==> !At(a + v + t, k, v)
    ensures Replace(a + v + t, v) == a + STARS + Replace(t, v)
    decreases |a|
  {
    var s := a + v + t;
    if a == "" {
      assert s == v + t;
      assert StartsWith(s, v) && s[|v|..] == t;
    } else {
      assert s[0..] == s && !At(s, 0, v);
      assert s[1..] == a[1..] + v + t;
      forall k | 0 <= k < |a| - 1 ensures !At(a[1..] + v + t, k, v) {
        assert s[1..][k..] == s[k + 1..];
        assert !At(s, k + 1, v);
      }
      ReplaceBehind(a[1..], v, t);
      assert [a[0]] + a[1..] == a;
    }
  }

  lemma AtChar(s: string, k: nat, v: string, j: nat)
    requires j < |v|
    ensures At(s, k, v) ==> k + j < |s| && s[k + j] == v[j]
  {
  }

  lemma IncludesAt(s: string, i: nat, v: string)
    requires i + |v| <= |s| && s[i..i + |v|] == v
    ensures Includes(s, v)
  {
    assert s[i..][..|v|] == v;
    assert At(s, i, v);
  }

  /** A value that starts with a star: in front of its own rest, the stars bring it back. */
  lemma StarAtStart(v: string) returns (s: string)
    requires v != "" && v[0] == '*'
    ensures Includes(Replace(s, v), v)
  {
    hide Replace, Includes, At;
    var rest := v[1..];
    s := "" + v + rest;
    ReplaceBehind("", v, rest);
    TooShort(rest, v);
    ReplaceNone(rest, v);
    var r := Replace(s, v);
    assert r == STARS + rest;
    assert r[2..2 + |v|] == v;
    IncludesAt(r, 2, v);
  }

  lemma NotBefore(s: string, k: nat, v: string, j: nat)
    requires j < |v| && (k + j < |s| ==> s[k + j] != v[j])
    ensures !At(s, k, v)
  {
    AtChar(s, k, v, j);
  }

  lemma StarAtEnd(v: string) returns (s: string)
    requires v != "" && v[0] != '*' && v[|v| - 1] == '*'
    ensures Includes(Replace(s, v), v)
  {
    hide Replace, Includes, At;
    var n := |v| - 1;
    var front := v[..n];
    s := front + v + "";
    forall k | 0 <= k < n ensures !At(s, k, v) {
      assert s[k] == v[k] && s[k + n] == v[k];
      NotBefore(s, k, v, if v[k] == '*' then 0 else n);
    }
    ReplaceBehind(front, v, "");
    var r := Replace(s, v);
    assert r == front + STARS by {
      TooShort("", v);
      ReplaceNone("", v);
    }
    assert r[0..|v|] == v;
    IncludesAt(r, 0, v);
  }

  lemma FirstThree(v: string) returns (i: nat)
    requires !NoThreeStars(v)
    ensures i + 2 < |v| && v[i] == '*' && v[i + 1] == '*' && v[i + 2] == '*'
    ensures forall k :: 0 <= k < i ==> !(v[k] == '*' && v[k + 1] == '*' && v[k + 2] == '*')
  {
    i := 0;
    while !(v[i] == '*' && v[i + 1] == '*' && v[i + 2] == '*')
      invariant i + 2 < |v| && forall k :: 0 <= k < i ==> !(v[k] == '*' && v[k + 1] == '*' && v[k + 2] == '*')
      invariant exists k :: i <= k < |v| - 2 && v[k] == '*' && v[k + 1] == '*' && v[k + 2] == '*'
      decreases |v| - i
    {
      i := i + 1;
    }
  }

  lemma StarsInside(v: string) returns (s: string)
    requires v != "" && v[0] != '*' && v[|v| - 1] != '*' && !NoThreeStars(v)
    ensures Includes(Replace(s, v), v)
  {
    hide Replace, Includes, At;
    var i := FirstThree(v);
    var a, b := v[..i], v[i + 3..];
    assert v == a + STARS + b;
    s := a + v + b;
    forall k | 0 <= k < i ensures !At(s, k, v) {
      assert s[k + i] == v[k] && s[k + i + 1] == v[k + 1] && s[k + i + 2] == v[k + 2];
      NotBefore(s, k, v, if v[k] != '*' then i else if v[k + 1] != '*' then i + 1 else i + 2);
    }
    ReplaceBehind(a, v, b);
    TooShort(b, v);
    ReplaceNone(b, v);
    assert Replace(s, v) == v;
    IncludesAt(v, 0, v);
  }

  lemma UnsafeSurvives(v: string) returns (s: string)
    requires v != "" && !Safe(v)
    ensures Includes(Replace(s, v), v)
  {
    if v[0] == '*' {
      s := StarAtStart(v);
    } else if v[|v| - 1] == '*' {
      s := StarAtEnd(v);
    } else {
      s := StarsInside(v);
    }
  }

  ghost predicate Complete(list: seq<string>)
    requires NonEmpty(list)
  {
    forall s, v :: v in list ==> !Includes(RedactAll(s, list), v)
  }

  predicate From(list: seq<string>, values: set<string>) { forall i :: 0 <= i < |list| ==> list[i] in values }

  /**
   * Redaction with any list of the given values leaves none of them in any line exactly when every
   * value is safe: no star at either end and nowhere three in a row.
   */
  lemma RedactionCompleteExactly(values: set<string>)
    requires "" !in values
    ensures (forall list :: From(list, values) && NonEmpty(list) ==> Complete(list)) <==>
            forall v :: v in values ==> Safe(v)
  {
    if forall v :: v in values ==> Safe(v) {
      forall list | From(list, values) && NonEmpty(list) ensures Complete(list) {
        forall s, v | v in list ensures !Includes(RedactAll(s, list), v) {
          NothingLeft(s, list, v);
        }
      }
    } else {
      var v :| v in values && !Safe(v);
      var s := UnsafeSurvives(v);
      var list := [v];
      assert From(list, values) && NonEmpty(list);
      assert RedactAll(s, list) == Replace(s, v) by {
        assert list[1..] == [];
      }
      assert v in list;
    }
    hide Safe, Replace;
  }

  /** A list of one value redacts completely exactly when the value is safe. */
  lemma AloneExactly(v: string)
    requires v != ""
    ensures Complete([v]) <==> Safe(v)
  {
    assert [v][1..] == [];
    assert forall s :: RedactAll(s, [v]) == Replace(s, v);
    if Safe(v) {
      forall s, u | u in [v] ensures !Includes(RedactAll(s, [v]), u) {
        NothingLeft(s, [v], u);
      }
    } else {
      var s := UnsafeSurvives(v);
      assert v in [v];
    }
    hide Safe, Replace;
  }

  lemma IncludesThrough(s: string, v: string, u: string)
    requires Includes(s, v) && Includes(v, u)
    ensures Includes(s, u)
  {
    var i :| 0 <= i <= |s| && At(s, i, v);
    var k :| 0 <= k <= |v| && At(v, k, u);
    forall x | 0 <= x < |u| ensures s[i + k..][x] == u[x] {
      assert u[x] == v[k..][..|u|][x] == v[k + x] && v[k + x] == s[i..][..|v|][k + x];
    }
    assert At(s, i + k, u);
  }

  predicate HoldsSafe(v: string, list: seq<string>) { exists u :: u in list && Safe(u) && Includes(v, u) }

  lemma NotWithin(s: string, list: seq<string>, v: string)
    requires NonEmpty(list) && HoldsSafe(v, list)
    ensures !Includes(RedactAll(s, list), v)
  {
    hide Safe, Includes, RedactAll, NonEmpty;
    var u :| u in list && Safe(u) && Includes(v, u);
    NothingLeft(s, list, u);
    if Includes(RedactAll(s, list), v) {
      IncludesThrough(RedactAll(s, list), v, u);
    }
  }

  /**
   * In a longer list an unsafe value may still be redacted: it is enough that every value of the
   * list holds a safe value of the list.
   */
  lemma SafeInside(list: seq<string>)
    requires NonEmpty(list)
    requires forall v :: v in list ==> HoldsSafe(v, list)
    ensures Complete(list)
  {
    hide Safe, Includes, RedactAll, NonEmpty, HoldsSafe;
    forall s, v | v in list ensures !Includes(RedactAll(s, list), v) {
      NotWithin(s, list, v);
    }
  }

  // ----- a list of safe values and one that ends in a star -----

  predicate NoStar(a: string) { '*' !in a }

  /** What starts a line after the replacement, up to a star, started it before, or the star is a replaced value. */
  lemma {:induction false} StartSource(t: string, b: string, v: string)
    requires v != "" && NoStar(b) && StartsWith(Replace(t, v), b + "*")
    ensures StartsWith(t, b + "*") || StartsWith(t, b + v)
    decreases |b|
  {
    var r := Replace(t, v);
    assert r[..|b| + 1] == b + "*" && t != "";
    if b == "" {
      assert "" + v == v && "" + "*" == "*" && r[0] == '*';
      if !StartsWith(t, v) {
        assert t[..1] == "*";
      }
    } else {
      assert r[0] == b[0] && b[0] in b;
      assert r[1..][..|b|] == b[1..] + "*";
      StartSource(t[1..], b[1..], v);
      assert forall w :: StartsWith(t[1..], b[1..] + w) ==> StartsWith(t, b + w) by {
        StartPrepended(t, b);
      }
    }
  }

  lemma StartPrepended(t: string, b: string)
    requires t != "" && b != "" && t[0] == b[0]
    ensures forall w :: StartsWith(t[1..], b[1..] + w) ==> StartsWith(t, b + w)
  {
    forall w | StartsWith(t[1..], b[1..] + w) ensures StartsWith(t, b + w) {
      assert t == [t[0]] + t[1..] && b + w == [b[0]] + (b[1..] + w);
    }
  }

  /** A value with one star, at its end, is only left where its other characters stood twice in a row. */
  lemma {:induction false} LeftFromDoubled(t: string, a: string)
    requires a != "" && NoStar(a) && Includes(Replace(t, a + "*"), a + "*")
    ensures Includes(t, a + (a + "*"))
    decreases |t|
  {
    var v := a + "*";
    var r := Replace(t, v);
    hide Includes;
    NoneInEmpty(v);
    assert r != "" && a[0] in a && v[0] == a[0];
    IncludesStep(r, v);
    if StartsWith(t, v) {
      var rest := Replace(t[|v|..], v);
      assert r == STARS + rest;
      BehindStars(rest, v);
      LeftFromDoubled(t[|v|..], a);
      IncludedBehind(t, |v|, a + v);
    } else if StartsWith(r, v) {
      StartSource(t, a, v);
      assert t[0..|a + v|] == a + v;
      IncludesAt(t, 0, a + v);
    } else {
      assert r[1..] == Replace(t[1..], v);
      LeftFromDoubled(t[1..], a);
      IncludedBehind(t, 1, a + v);
    }
  }

  lemma NoneInEmpty(v: string)
    requires v != ""
    ensures !Includes("", v)
  {
  }

  lemma BehindStars(rest: string, v: string)
    requires v != "" && v[0] != '*' && Includes(STARS + rest, v)
    ensures Includes(rest, v)
  {
    var r := STARS + rest;
    var i :| 0 <= i <= |r| && At(r, i, v);
    AtChar(r, i, v, 0);
    assert r[i..] == rest[i - 3..];
    assert At(rest, i - 3, v);
  }

  lemma IncludedBehind(t: string, n: nat, u: string)
    requires n <= |t| && Includes(t[n..], u)
    ensures Includes(t, u)
  {
    var i :| 0 <= i <= |t| - n && At(t[n..], i, u);
    assert t[n..][i..] == t[n + i..];
    assert At(t, n + i, u);
  }

  lemma {:induction false} RedactAllLast(s: string, list: seq<string>, v: string)
    requires NonEmpty(list) && v != ""
    ensures NonEmpty(list + [v]) && RedactAll(s, list + [v]) == Replace(RedactAll(s, list), v)
    decreases list
  {
    if list == [] {
      assert [] + [v] == [v] && [v][1..] == [];
    } else {
      assert (list + [v])[1..] == list[1..] + [v];
      RedactAllLast(Replace(s, list[0]), list[1..], v);
    }
  }

  lemma {:induction false} RedactAllNone(s: string, list: seq<string>)
    requires NonEmpty(list) && forall u :: u in list ==> !Includes(s, u)
    ensures RedactAll(s, list) == s
    decreases list
  {
    if list != [] {
      assert list[0] in list;
      ReplaceNone(s, list[0]);
      RedactAllNone(s, list[1..]);
    }
  }

  lemma DoubledSurvives(a: string)
    requires a != "" && NoStar(a)
    ensures Includes(Replace(a + (a + "*"), a + "*"), a + "*")
  {
    hide Includes, Replace, At;
    var v := a + "*";
    var s := a + v + "";
    assert s == a + (a + "*");
    forall k | 0 <= k < |a| ensures !At(s, k, v) {
      assert s[k + |a|] == a[k] && a[k] in a;
      NotBefore(s, k, v, |a|);
    }
    ReplaceBehind(a, v, "");
    TooShort("", v);
    ReplaceNone("", v);
    var r := a + STARS + "";
    assert r[0..|v|] == v;
    IncludesAt(r, 0, v);
  }

  predicate AllSafe(list: seq<string>) { forall u :: u in list ==> Safe(u) }

  /** Some value of the list is in the text. */
  predicate HoldsOne(s: string, list: seq<string>) { exists u :: u in list && Includes(s, u) }

  /**
   * Safe values followed by one whose only star is its last character redact completely exactly
   * when one of them is in the text that has the other characters of that value twice.
   */
  lemma LastStarExactly(list: seq<string>, a: string)
    requires NonEmpty(list) && AllSafe(list) && a != "" && NoStar(a)
    ensures NonEmpty(list + [a + "*"])
    ensures Complete(list + [a + "*"]) <==> HoldsOne(a + (a + "*"), list)
  {
    hide Includes, Replace, RedactAll, Safe, NoStar;
    var v := a + "*";
    var all := list + [v];
    RedactAllLast("", list, v);
    if u :| u in list && Includes(a + v, u) {
      forall s, w | w in all ensures !Includes(RedactAll(s, all), w) {
        if w in list {
          NothingLeft(s, all, w);
        } else {
          RedactAllLast(s, list, v);
          NothingLeft(s, list, u);
          if Includes(RedactAll(s, all), v) {
            LeftFromDoubled(RedactAll(s, list), a);
            IncludesThrough(RedactAll(s, list), a + v, u);
          }
        }
      }
    } else {
      RedactAllNone(a + v, list);
      RedactAllLast(a + v, list, v);
      DoubledSurvives(a);
      assert v in all;
    }
  }

  /** So a list may redact completely although one of its values holds no safe one. */
  lemma CompleteWithoutSafeInside()
    ensures var list := ["eabcde", "abcde*"];
            NonEmpty(list) && Complete(list) && !HoldsSafe("abcde*", list)
  {
    hide Complete, Includes, Safe;
    var u, a := "eabcde", "abcde";
    var v := a + "*";
    assert (a + v)[4..4 + |u|] == u;
    IncludesAt(a + v, 4, u);
    assert u in [u] && Safe(u) by {
      SafeText();
    }
    LastStarExactly([u], a);
    NeitherInside();
    assert v == "abcde*" && [u] + [v] == ["eabcde", "abcde*"];
  }

  lemma SafeText()
    ensures Safe("eabcde")
  {
  }

  lemma NeitherInside()
    ensures !Includes("abcde*", "eabcde") && !Safe("abcde*")
  {
    var u, v := "eabcde", "abcde*";
    assert v[|v| - 1] == '*';
    AtChar(v, 0, u, 0);
  }
}
