// Names on MQTT (src/matter/bridge-templates.js): snake and camel case, the device name made from
// a label, and the unique name found by counting up.

module BridgeNames {
  import opened Text

  predicate IsLower(c: char) { 'a' <= c <= 'z' }

  predicate IsUpper(c: char) { 'A' <= c <= 'Z' }

  predicate IsLowerOrDigit(c: char) { IsLower(c) || IsDigit(c) }

  function ToLower(c: char): char { if IsUpper(c) then c - 'A' + 'a' else c }

  function ToUpper(c: char): char { if IsLower(c) then c - 'a' + 'A' else c }

  // ---------------------------------------------------------------------------
  // Snake and camel case
  // ---------------------------------------------------------------------------

  /**
   * Both replacements of `snake` put an underscore in front of a capital: after a lower-case
   * letter or digit, and in front of the last capital of a run that a lower-case letter follows.
   */
  predicate Breaks(prev: Option<char>, c: char, rest: string) {
    IsUpper(c) && prev.Some? &&
    (IsLowerOrDigit(prev.value) || (IsUpper(prev.value) && rest != "" && IsLower(rest[0])))
  }

  function SnakeFrom(prev: Option<char>, s: string): string
    decreases s
  {
    if s == "" then ""
    else (if Breaks(prev, s[0], s[1..]) then "_" else "") + [ToLower(s[0])] + SnakeFrom(Some(s[0]), s[1..])
  }

  function Snake(name: string): string { SnakeFrom(None, name) }

  /** An underscore in front of a lower-case letter or digit goes, and the letter becomes a capital. */
  function Camel(name: string): string {
    if name == "" then ""
    else if name[0] == '_' && |name| > 1 && IsLowerOrDigit(name[1]) then [ToUpper(name[1])] + Camel(name[2..])
    else [name[0]] + Camel(name[1..])
  }

  /** Every capital gets an underscore, and no underscore of the name's own stands before a letter or digit. */
  predicate RestorableFrom(prev: Option<char>, s: string)
    decreases s
  {
    s == "" ||
    ((IsUpper(s[0]) ==> Breaks(prev, s[0], s[1..]))
     && (s[0] == '_' && |s| > 1 ==> !IsLowerOrDigit(ToLower(s[1])))
     && RestorableFrom(Some(s[0]), s[1..]))
  }

  predicate Restorable(name: string) { RestorableFrom(None, name) }

  lemma CamelSkips(c: char, rest: string)
    requires IsLowerOrDigit(c)
    ensures Camel("_" + [c] + rest) == [ToUpper(c)] + Camel(rest)
  {
  }

  lemma CamelKeeps(c: char, rest: string)
    requires c == '_' ==> rest == "" || !IsLowerOrDigit(rest[0])
    ensures Camel([c] + rest) == [c] + Camel(rest)
  {
  }

  lemma SnakeStep(prev: Option<char>, s: string)
    requires s != "" && !Breaks(prev, s[0], s[1..])
    ensures SnakeFrom(prev, s) == [ToLower(s[0])] + SnakeFrom(Some(s[0]), s[1..])
  {
  }

  /** Camel after snake never lengthens, and gives the name back exactly when it is restorable. */
  lemma {:induction false} CamelSnakeFrom(prev: Option<char>, s: string)
    ensures |Camel(SnakeFrom(prev, s))| <= |s|
    ensures Camel(SnakeFrom(prev, s)) == s <==> RestorableFrom(prev, s)
    decreases |s|
  {
    if s != "" {
      var rest := s[1..];
      var later := SnakeFrom(Some(s[0]), rest);
      assert [s[0]] + rest == s;
      if Breaks(prev, s[0], rest) {
        CamelSkips(ToLower(s[0]), later);
        CamelSnakeFrom(Some(s[0]), rest);
        assert SnakeFrom(prev, s) == "_" + [ToLower(s[0])] + later;
      } else {
        SnakeStep(prev, s);
        if s[0] == '_' && rest != "" {
          SnakeStep(Some('_'), rest);
          if IsLowerOrDigit(ToLower(rest[0])) {
            CamelSkips(ToLower(rest[0]), SnakeFrom(Some(rest[0]), rest[1..]));
            CamelSnakeFrom(Some(rest[0]), rest[1..]);
            assert SnakeFrom(prev, s) == "_" + [ToLower(rest[0])] + SnakeFrom(Some(rest[0]), rest[1..]);
          } else {
            CamelKeeps('_', later);
            CamelSnakeFrom(Some('_'), rest);
          }
        } else {
          CamelKeeps(ToLower(s[0]), later);
          CamelSnakeFrom(Some(s[0]), rest);
        }
      }
    }
  }

  /** Reading a name back from MQTT gives it back exactly when it is restorable. */
  lemma CamelSnakeExactly(name: string)
    ensures Camel(Snake(name)) == name <==> Restorable(name)
  {
    CamelSnakeFrom(None, name);
  }

  /** Snake case brings in nothing MQTT minds, and is empty only for the empty name. */
  lemma {:induction false} SnakeText(prev: Option<char>, s: string, c: char)
    ensures c in SnakeFrom(prev, s) ==> c == '_' || exists k :: 0 <= k < |s| && ToLower(s[k]) == c
    ensures SnakeFrom(prev, s) == "" <==> s == ""
    decreases s
  {
    if s != "" {
      SnakeText(Some(s[0]), s[1..], c);
      if k :| 0 <= k < |s| - 1 && ToLower(s[1..][k]) == c {
        assert s[k + 1] == s[1..][k];
      }
      if c == ToLower(s[0]) {
        assert ToLower(s[0]) == c;
      }
    }
  }

  // ---------------------------------------------------------------------------
  // Device names
  // ---------------------------------------------------------------------------

  /**
   * Lower case, with the umlauts spelled out. The Kelvin sign, the dotted capital I and the
   * capital sharp s are the other characters whose lower case holds a letter that counts.
   */
  function FoldChar(c: char): string {
    if IsUpper(c) then [ToLower(c)]
    else if c == '\U{e4}' || c == '\U{c4}' then "ae"
    else if c == '\U{f6}' || c == '\U{d6}' then "oe"
    else if c == '\U{fc}' || c == '\U{dc}' then "ue"
    else if c == '\U{df}' || c == '\U{1e9e}' then "ss"
    else if c == '\U{212a}' then "k"
    else if c == '\U{130}' then "i\U{307}"
    else [c]
  }

  function Fold(s: string): string { if s == "" then "" else FoldChar(s[0]) + Fold(s[1..]) }

  /** Runs of anything but lower-case letters and digits become one underscore. */
  function Squeeze(s: string, inRun: bool): string
    decreases s
  {
    if s == "" then ""
    else if IsLowerOrDigit(s[0]) then [s[0]] + Squeeze(s[1..], false)
    else (if inRun then "" else "_") + Squeeze(s[1..], true)
  }

  function StripStart(s: string): string { if s != "" && s[0] == '_' then StripStart(s[1..]) else s }

  function StripEnd(s: string): string { if s != "" && s[|s| - 1] == '_' then StripEnd(s[..|s| - 1]) else s }

  function MqttName(name: string): string {
    var s := StripEnd(StripStart(Squeeze(Fold(Trim(name)), false)));
    if s == "" then "device" else s
  }

  predicate NameChar(c: char) { IsLowerOrDigit(c) || c == '_' }

  predicate NoDouble(n: string) { forall i :: 0 <= i < |n| - 1 ==> !(n[i] == '_' && n[i + 1] == '_') }

  predicate NameText(n: string) { (forall i :: 0 <= i < |n| ==> NameChar(n[i])) && NoDouble(n) }

  /** Lower-case letters and digits with single underscores between them. */
  predicate SlugForm(n: string) {
    n != "" && NameText(n) && n[0] != '_' && n[|n| - 1] != '_'
  }

  lemma {:induction false} SqueezeText(s: string, inRun: bool)
    ensures NameText(Squeeze(s, inRun))
    ensures inRun && Squeeze(s, inRun) != "" ==> Squeeze(s, inRun)[0] != '_'
    decreases s
  {
    if s != "" {
      var next := !IsLowerOrDigit(s[0]);
      SqueezeText(s[1..], next);
    }
  }

  lemma {:induction false} StripStartText(s: string)
    requires NameText(s)
    ensures NameText(StripStart(s)) && (StripStart(s) != "" ==> StripStart(s)[0] != '_')
  {
    if s != "" && s[0] == '_' {
      assert NameText(s[1..]);
      StripStartText(s[1..]);
    }
  }

  lemma {:induction false} StripEndText(s: string)
    requires NameText(s) && (s != "" ==> s[0] != '_')
    ensures StripEnd(s) == "" || SlugForm(StripEnd(s))
  {
    if s != "" && s[|s| - 1] == '_' {
      assert NameText(s[..|s| - 1]);
      StripEndText(s[..|s| - 1]);
    }
  }

  /** Whatever the label, the device name has the form. */
  lemma MqttNameForm(name: string)
    ensures SlugForm(MqttName(name))
  {
    var squeezed := Squeeze(Fold(Trim(name)), false);
    SqueezeText(Fold(Trim(name)), false);
    StripStartText(squeezed);
    StripEndText(StripStart(squeezed));
    DeviceForm();
  }

  lemma DeviceForm()
    ensures SlugForm("device")
  {
  }

  lemma {:induction false} FoldSame(n: string)
    requires forall i :: 0 <= i < |n| ==> NameChar(n[i])
    ensures Fold(n) == n
  {
    if n != "" {
      FoldSame(n[1..]);
      assert [n[0]] + n[1..] == n;
    }
  }

  lemma {:induction false} SqueezeSame(n: string, inRun: bool)
    requires NameText(n) && (inRun && n != "" ==> n[0] != '_') && (n != "" ==> n[|n| - 1] != '_')
    ensures Squeeze(n, inRun) == n
    decreases n
  {
    if n != "" {
      assert NameText(n[1..]) by {
        forall i | 0 <= i < |n| - 2 ensures !(n[1..][i] == '_' && n[1..][i + 1] == '_') {
          assert n[i + 1] == n[1..][i] && n[i + 2] == n[1..][i + 1];
        }
      }
      assert |n| > 1 ==> n[1..][|n| - 2] == n[|n| - 1];
      SqueezeSame(n[1..], !IsLowerOrDigit(n[0]));
      assert [n[0]] + n[1..] == n;
    }
  }

  lemma SlugClean(n: string)
    requires SlugForm(n)
    ensures Clean(n)
  {
  }

  /** A name is kept as it is exactly when it has the form already: making a name twice changes nothing. */
  lemma MqttNameKeepsExactly(n: string)
    ensures MqttName(n) == n <==> SlugForm(n)
  {
    MqttNameForm(n);
    if SlugForm(n) {
      SlugClean(n);
      CleanTrims(n);
      FoldSame(n);
      SqueezeSame(n, false);
    }
  }

  // ---------------------------------------------------------------------------
  // Unique names
  // ---------------------------------------------------------------------------

  function Suffixed(name: string, i: nat): string { name + "_" + Dec(i) }

  lemma SuffixedInjective(name: string, i: nat, j: nat)
    requires Suffixed(name, i) == Suffixed(name, j)
    ensures i == j
  {
    var n := |name| + 1;
    assert Suffixed(name, i)[n..] == Dec(i) && Suffixed(name, j)[n..] == Dec(j);
    DecInjective(i, j);
  }

  function Tried(name: string, i: nat): set<string> { set k | 2 <= k < i :: Suffixed(name, k) }

  /** A taken candidate that was not tried before: one taken name less is left. */
  lemma FewerLeft(name: string, taken: set<string>, i: nat)
    requires i >= 2 && Suffixed(name, i) in taken
    ensures |taken - Tried(name, i + 1)| < |taken - Tried(name, i)|
  {
    forall k | 2 <= k < i ensures Suffixed(name, k) != Suffixed(name, i) {
      if Suffixed(name, k) == Suffixed(name, i) {
        SuffixedInjective(name, k, i);
      }
    }
    assert Tried(name, i + 1) == Tried(name, i) + {Suffixed(name, i)};
    var left, later := taken - Tried(name, i), taken - Tried(name, i + 1);
    assert later == left - {Suffixed(name, i)} && Suffixed(name, i) in left;
  }

  /** The first free suffix from `i` up: there is one, since only finitely many names are taken. */
  function FreeFrom(name: string, taken: set<string>, i: nat): nat
    requires i >= 2
    decreases |taken - Tried(name, i)|
  {
    if Suffixed(name, i) !in taken then i
    else
      FewerLeft(name, taken, i);
      FreeFrom(name, taken, i + 1)
  }

  function UniqueName(name: string, taken: set<string>): string {
    if name !in taken then name else Suffixed(name, FreeFrom(name, taken, 2))
  }

  lemma {:induction false} FreeFromIs(name: string, taken: set<string>, i: nat)
    requires i >= 2
    ensures var n := FreeFrom(name, taken, i);
            n >= i && Suffixed(name, n) !in taken && forall k :: i <= k < n ==> Suffixed(name, k) in taken
    decreases |taken - Tried(name, i)|
  {
    hide Suffixed, Tried;
    if Suffixed(name, i) in taken {
      FewerLeft(name, taken, i);
      FreeFromIs(name, taken, i + 1);
    }
  }

  /** The unique name is free, and is the name itself or the name with the smallest free suffix. */
  lemma UniqueNameFree(name: string, taken: set<string>)
    ensures UniqueName(name, taken) !in taken
    ensures name !in taken ==> UniqueName(name, taken) == name
    ensures name in taken ==>
              exists n :: n >= 2 && UniqueName(name, taken) == Suffixed(name, n)
                          && forall k :: 2 <= k < n ==> Suffixed(name, k) in taken
  {
    FreeFromIs(name, taken, 2);
  }

  /** The open-ended loop: it ends after at most as many rounds as names are taken. */
  method FindUniqueName(name: string, taken: set<string>) returns (r: string)
    ensures r == UniqueName(name, taken)
  {
    if name !in taken {
      return name;
    }
    var i := 2;
    while Suffixed(name, i) in taken
      invariant i >= 2 && FreeFrom(name, taken, i) == FreeFrom(name, taken, 2)
      invariant |taken - Tried(name, i)| + (i - 2) <= |taken|
      decreases |taken - Tried(name, i)|
    {
      FewerLeft(name, taken, i);
      i := i + 1;
    }
    assert i - 2 <= |taken|;
    r := Suffixed(name, i);
  }

  lemma UniqueNameForm(name: string, taken: set<string>)
    requires SlugForm(name)
    ensures SlugForm(UniqueName(name, taken))
  {
  }
}
