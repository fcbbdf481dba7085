// Addresses on MQTT (src/matter/bridge-templates.js and src/matter/mqtt-bridge.js): templates that
// are filled outbound and matched inbound, the device table, and the way back to a Matter address.

module BridgeTopics {
  import opened Text
  import opened BridgeNames
  import Wildcards

  // ---------------------------------------------------------------------------
  // Templates
  // ---------------------------------------------------------------------------

  predicate IsLetter(c: char) { IsLower(c) || IsUpper(c) }

  function Letters(s: string): (key: string)
    ensures |key| <= |s| && s[..|key|] == key
    ensures forall i :: 0 <= i < |key| ==> IsLetter(key[i])
    ensures |key| < |s| ==> !IsLetter(s[|key|])
  {
    if s == "" || !IsLetter(s[0]) then "" else [s[0]] + Letters(s[1..])
  }

  /** The key of the placeholder `${key}` the text starts with. */
  function KeyAt(s: string): (key: Option<string>)
    ensures key.Some? ==> key.value != "" && |key.value| + 3 <= |s|
                          && (forall i :: 0 <= i < |key.value| ==> IsLetter(key.value[i]))
                          && s[..|key.value| + 3] == Placeholder(key.value)
  {
    if |s| < 2 || s[0] != '$' || s[1] != '{' then None
    else
      var key := Letters(s[2..]);
      if key != "" && |key| + 2 < |s| && s[|key| + 2] == '}' then
        assert s[2..][..|key|] == key;
        assert s[..|key| + 3] == Placeholder(key);
        Some(key)
      else None
  }

  function Placeholder(key: string): string { "${" + key + "}" }

  predicate KeyName(key: string) { key != "" && forall i :: 0 <= i < |key| ==> IsLetter(key[i]) }

  function ValueIn(vars: map<string, string>, key: string): string { if key in vars then vars[key] else "" }

  /** Every placeholder replaced by its value, a missing one by nothing. */
  function FillText(s: string, vars: map<string, string>): string {
    if s == "" then ""
    else
      match KeyAt(s)
      case Some(key) => ValueIn(vars, key) + FillText(s[|key| + 3..], vars)
      case None => [s[0]] + FillText(s[1..], vars)
  }

  function FirstKey(s: string): Option<string> {
    if s == "" then None else if KeyAt(s).Some? then KeyAt(s) else FirstKey(s[1..])
  }

  /** A segment that is one placeholder and nothing else. */
  predicate IsWhole(seg: string) { KeyAt(seg).Some? && |seg| == |KeyAt(seg).value| + 3 }

  function PatternOf(parts: seq<string>): seq<string> {
    if parts == [] then []
    else
      [if FirstKey(parts[0]).None? then parts[0]
       else if |parts| == 1 && IsWhole(parts[0]) then Wildcards.HASH else Wildcards.PLUS]
      + PatternOf(parts[1..])
  }

  function ToPattern(template: string): string { Join(PatternOf(Split(template, '/')), '/') }

  /** The captures handed out to the segments that hold a placeholder, in order. */
  function Assign(parts: seq<string>, captured: seq<string>, vars: map<string, string>): map<string, string>
    decreases parts
  {
    if parts == [] then vars
    else
      match FirstKey(parts[0])
      case None => Assign(parts[1..], captured, vars)
      case Some(key) =>
        if captured == [] then Assign(parts[1..], captured, vars - {key})
        else Assign(parts[1..], captured[1..], vars[key := captured[0]])
  }

  function Match(template: string, topic: string): Option<map<string, string>> {
    match Wildcards.Capture(topic, ToPattern(template))
    case None => None
    case Some(captured) => Some(Assign(Split(template, '/'), captured, map[]))
  }

  method MatchTopic(template: string, topic: string) returns (r: Option<map<string, string>>)
    ensures r == Match(template, topic)
  {
    var parts := Split(template, '/');
    var captured := Wildcards.MqttWildcard(topic, ToPattern(template));
    if captured.None? {
      return None;
    }
    var vars: map<string, string> := map[];
    var c := 0;
    assert parts[0..] == parts && captured.value[0..] == captured.value;
    for i := 0 to |parts|
      invariant 0 <= c <= |captured.value|
      invariant Assign(parts[i..], captured.value[c..], vars) == Assign(parts, captured.value, map[])
    {
      assert parts[i..][1..] == parts[i + 1..];
      var key := FirstKey(parts[i]);
      if key.Some? {
        if c < |captured.value| {
          assert captured.value[c..][1..] == captured.value[c + 1..];
          vars := vars[key.value := captured.value[c]];
          c := c + 1;
        } else {
          vars := vars - {key.value};
        }
      }
    }
    r := Some(vars);
  }

  // ----- filling segment by segment -----

  function FillParts(parts: seq<string>, vars: map<string, string>): (r: seq<string>)
    ensures |r| == |parts| && forall i :: 0 <= i < |parts| ==> r[i] == FillText(parts[i], vars)
  {
    if parts == [] then [] else [FillText(parts[0], vars)] + FillParts(parts[1..], vars)
  }

  lemma {:induction false} LettersStop(s: string, t: string)
    requires '/' !in s && t != "" && t[0] == '/'
    ensures Letters(s + t) == Letters(s)
  {
    if s == "" {
      assert s + t == t;
    } else {
      assert (s + t)[1..] == s[1..] + t;
      LettersStop(s[1..], t);
    }
  }

  /** A placeholder does not reach over a slash. */
  lemma KeyWithinSegment(s: string, t: string)
    requires s != "" && '/' !in s && t != "" && t[0] == '/'
    ensures KeyAt(s + t) == KeyAt(s)
  {
    if |s| >= 2 && s[0] == '$' && s[1] == '{' {
      assert (s + t)[2..] == s[2..] + t;
      LettersStop(s[2..], t);
      var key := Letters(s[2..]);
      if |key| + 2 == |s| {
        assert (s + t)[|key| + 2] == '/';
      }
    } else if |s| == 1 {
      assert (s + t)[1] == '/';
    }
  }

  function HeadLength(s: string): (n: nat)
    requires s != ""
    ensures 1 <= n <= |s|
  {
    if KeyAt(s).Some? then |KeyAt(s).value| + 3 else 1
  }

  function HeadText(s: string, vars: map<string, string>): string
    requires s != ""
  {
    if KeyAt(s).Some? then ValueIn(vars, KeyAt(s).value) else [s[0]]
  }

  lemma FillStep(s: string, vars: map<string, string>)
    requires s != ""
    ensures FillText(s, vars) == HeadText(s, vars) + FillText(s[HeadLength(s)..], vars)
  {
  }

  lemma HeadAcross(s: string, t: string, vars: map<string, string>)
    requires s != "" && '/' !in s && t != "" && t[0] == '/'
    ensures HeadLength(s + t) == HeadLength(s) && HeadText(s + t, vars) == HeadText(s, vars)
  {
    KeyWithinSegment(s, t);
    hide KeyAt, ValueIn;
  }

  lemma Regroup(a: string, b: string, c: string)
    ensures (a + b) + c == a + (b + c)
  {
  }

  lemma DropAcross(s: string, t: string, n: nat)
    requires n <= |s|
    ensures (s + t)[n..] == s[n..] + t
  {
  }

  lemma FillEmpty(vars: map<string, string>)
    ensures FillText("", vars) == ""
  {
  }

  lemma {:induction false} FillAcross(s: string, t: string, vars: map<string, string>)
    requires '/' !in s && t != "" && t[0] == '/'
    ensures FillText(s + t, vars) == FillText(s, vars) + FillText(t, vars)
    decreases |s|
  {
    if s == "" {
      hide KeyAt, FillText;
      FillEmpty(vars);
      assert s + t == t && "" + FillText(t, vars) == FillText(t, vars);
    } else {
      hide *;
      var n := HeadLength(s);
      HeadAcross(s, t, vars);
      FillStep(s, vars);
      FillStep(s + t, vars);
      DropAcross(s, t, n);
      FillAcross(s[n..], t, vars);
      Regroup(HeadText(s, vars), FillText(s[n..], vars), FillText(t, vars));
    }
  }

  lemma SlashFirst(t: string, vars: map<string, string>)
    ensures FillText(['/'] + t, vars) == ['/'] + FillText(t, vars)
  {
  }

  lemma FillSlash(s: string, t: string, vars: map<string, string>)
    requires '/' !in s
    ensures FillText(s + ['/'] + t, vars) == FillText(s, vars) + ['/'] + FillText(t, vars)
  {
    hide FillText;
    SlashFirst(t, vars);
    Regroup(s, ['/'], t);
    FillAcross(s, ['/'] + t, vars);
    Regroup(FillText(s, vars), ['/'], FillText(t, vars));
  }

  /** Filling a template fills its segments. */
  lemma {:induction false} FillJoined(parts: seq<string>, vars: map<string, string>)
    requires parts != [] && forall i :: 0 <= i < |parts| ==> '/' !in parts[i]
    ensures FillText(Join(parts, '/'), vars) == Join(FillParts(parts, vars), '/')
  {
    hide FillText;
    if |parts| > 1 {
      FillJoined(parts[1..], vars);
      FillSlash(parts[0], Join(parts[1..], '/'), vars);
      assert FillParts(parts, vars)[1..] == FillParts(parts[1..], vars);
    }
  }

  lemma {:induction false} FillPlain(seg: string, vars: map<string, string>)
    requires FirstKey(seg).None?
    ensures FillText(seg, vars) == seg
  {
    if seg != "" {
      FillPlain(seg[1..], vars);
    }
  }

  lemma FillWhole(seg: string, vars: map<string, string>)
    requires IsWhole(seg)
    ensures FillText(seg, vars) == ValueIn(vars, KeyAt(seg).value) && FirstKey(seg) == KeyAt(seg)
  {
  }

  // ---------------------------------------------------------------------------
  // Matching what was filled
  // ---------------------------------------------------------------------------

  /** Every segment is plain text or one placeholder, and no plain text holds a wildcard. */
  predicate WholeParts(parts: seq<string>) {
    forall i :: 0 <= i < |parts| ==>
      '/' !in parts[i] && (IsWhole(parts[i]) || (FirstKey(parts[i]).None? && !Wildcards.HasWildcard(parts[i])))
  }

  predicate WholeTemplate(template: string) { WholeParts(Split(template, '/')) }

  /** A value that can stand for a topic level. */
  predicate LevelText(v: string) { '/' !in v && !Wildcards.HasWildcard(v) }

  predicate GoodValues(parts: seq<string>, vars: map<string, string>) {
    forall i :: 0 <= i < |parts| && FirstKey(parts[i]).Some? ==>
      FirstKey(parts[i]).value in vars && LevelText(vars[FirstKey(parts[i]).value])
  }

  /** The values of the placeholders, in order. */
  function Values(parts: seq<string>, vars: map<string, string>): seq<string> {
    if parts == [] then []
    else (match FirstKey(parts[0]) case None => [] case Some(key) => [ValueIn(vars, key)]) + Values(parts[1..], vars)
  }

  lemma {:induction false} CaptureFilled(parts: seq<string>, vars: map<string, string>)
    requires WholeParts(parts) && GoodValues(parts, vars)
    ensures Wildcards.CaptureLevels(FillParts(parts, vars), PatternOf(parts)) == Some(Values(parts, vars))
  {
    if parts != [] {
      var seg, rest := parts[0], parts[1..];
      var t, w := FillParts(parts, vars), PatternOf(parts);
      assert t[0] == FillText(seg, vars) && t[1..] == FillParts(rest, vars) && w[1..] == PatternOf(rest);
      assert WholeParts(rest) && GoodValues(rest, vars);
      CaptureFilled(rest, vars);
      if IsWhole(seg) {
        FillWhole(seg, vars);
        assert Values(parts, vars) == [t[0]] + Values(rest, vars);
        if rest == [] {
          CaptureLast(t, w);
          assert Values(rest, vars) == [] && [t[0]] + [] == [t[0]];
        } else {
          CaptureOne(t, w);
        }
      } else {
        FillPlain(seg, vars);
        assert Values(parts, vars) == Values(rest, vars);
        NotWildcards(seg);
      }
    }
  }

  lemma CaptureLast(t: seq<string>, w: seq<string>)
    requires |t| == 1 && w != [] && w[0] == Wildcards.HASH
    ensures Wildcards.CaptureLevels(t, w) == Some([t[0]])
  {
  }

  lemma CaptureOne(t: seq<string>, w: seq<string>)
    requires t != [] && w != [] && w[0] == Wildcards.PLUS && Wildcards.CaptureLevels(t[1..], w[1..]).Some?
    ensures Wildcards.CaptureLevels(t, w) == Some([t[0]] + Wildcards.CaptureLevels(t[1..], w[1..]).value)
  {
  }

  lemma NotWildcards(seg: string)
    requires !Wildcards.HasWildcard(seg)
    ensures seg != Wildcards.PLUS && seg != Wildcards.HASH
  {
  }

  /** Handing the values out again gives each key of the template its value. */
  lemma {:induction false} AssignValues(parts: seq<string>, vars: map<string, string>, got: map<string, string>)
    requires GoodValues(parts, vars)
    ensures var r := Assign(parts, Values(parts, vars), got);
            forall key :: (key in r <==> key in got || HasKey(parts, key))
                          && (key in r ==> r[key] == if HasKey(parts, key) then ValueIn(vars, key) else got[key])
    decreases parts
  {
    if parts != [] {
      assert GoodValues(parts[1..], vars);
      var key0 := FirstKey(parts[0]);
      assert Values(parts, vars)[(if key0.Some? then 1 else 0)..] == Values(parts[1..], vars);
      AssignValues(parts[1..], vars, if key0.Some? then got[key0.value := ValueIn(vars, key0.value)] else got);
      forall key ensures HasKey(parts, key) <==> key0 == Some(key) || HasKey(parts[1..], key) {
        HasKeyStep(parts, key);
      }
    }
  }

  predicate HasKey(parts: seq<string>, key: string) { exists i :: 0 <= i < |parts| && FirstKey(parts[i]) == Some(key) }

  lemma HasKeyStep(parts: seq<string>, key: string)
    requires parts != []
    ensures HasKey(parts, key) <==> FirstKey(parts[0]) == Some(key) || HasKey(parts[1..], key)
  {
  }

  lemma {:induction false} PatternParts(parts: seq<string>)
    requires WholeParts(parts)
    ensures |PatternOf(parts)| == |parts| && forall i :: 0 <= i < |parts| ==> '/' !in PatternOf(parts)[i]
  {
    if parts != [] {
      assert WholeParts(parts[1..]);
      PatternParts(parts[1..]);
    }
  }

  lemma {:induction false} FilledLevels(parts: seq<string>, vars: map<string, string>)
    requires WholeParts(parts) && GoodValues(parts, vars)
    ensures forall i :: 0 <= i < |parts| ==> LevelText(FillParts(parts, vars)[i])
  {
    forall i | 0 <= i < |parts| ensures LevelText(FillParts(parts, vars)[i]) {
      if IsWhole(parts[i]) {
        FillWhole(parts[i], vars);
      } else {
        FillPlain(parts[i], vars);
      }
    }
  }

  /** Filled parts equal the pattern only where there is no placeholder: then nothing is captured either way. */
  lemma {:induction false} PlainCaptures(parts: seq<string>, vars: map<string, string>)
    requires WholeParts(parts) && GoodValues(parts, vars) && PatternOf(parts) == FillParts(parts, vars)
    ensures Values(parts, vars) == []
  {
    if parts != [] {
      var t, w := FillParts(parts, vars), PatternOf(parts);
      assert t[1..] == FillParts(parts[1..], vars) && w[1..] == PatternOf(parts[1..]) && t[0] == w[0];
      assert WholeParts(parts[1..]) && GoodValues(parts[1..], vars);
      FilledLevels(parts, vars);
      NotWildcards(t[0]);
      PlainCaptures(parts[1..], vars);
    }
  }

  lemma CaptureWhole(parts: seq<string>, vars: map<string, string>)
    requires parts != [] && WholeParts(parts) && GoodValues(parts, vars)
    ensures Wildcards.Capture(Join(FillParts(parts, vars), '/'), Join(PatternOf(parts), '/')) ==
            Some(Values(parts, vars))
  {
    var t, w := FillParts(parts, vars), PatternOf(parts);
    PatternParts(parts);
    FilledLevels(parts, vars);
    CaptureFilled(parts, vars);
    SplitJoin(t, '/');
    SplitJoin(w, '/');
    if Join(t, '/') == Join(w, '/') {
      PlainCaptures(parts, vars);
    } else if Join(w, '/') == Wildcards.HASH {
      OneHash(w);
      assert |t| == 1;
    }
    hide Values, FillParts, PatternOf, WholeParts, GoodValues;
  }

  lemma JoinSlash(w: seq<string>)
    ensures |w| > 1 ==> '/' in Join(w, '/')
  {
    assert |w| > 1 ==> Join(w, '/')[|w[0]|] == '/';
  }

  lemma OneHash(w: seq<string>)
    requires w != [] && (forall i :: 0 <= i < |w| ==> '/' !in w[i]) && Join(w, '/') == Wildcards.HASH
    ensures w == [Wildcards.HASH]
  {
    JoinSlash(w);
    assert '/' !in Wildcards.HASH;
  }

  /**
   * Matching what a template of plain and whole-placeholder segments was filled with gives back
   * exactly the values of the template's placeholders.
   */
  lemma MatchFilled(template: string, vars: map<string, string>)
    requires WholeTemplate(template) && GoodValues(Split(template, '/'), vars)
    ensures var got := Match(template, FillText(template, vars));
            got.Some? && forall key :: (key in got.value <==> HasKey(Split(template, '/'), key))
                                        && (key in got.value ==> got.value[key] == ValueIn(vars, key))
  {
    var parts := Split(template, '/');
    FillJoined(parts, vars);
    CaptureWhole(parts, vars);
    AssignValues(parts, vars, map[]);
    hide FillText, FillParts, PatternOf, Values, Assign;
  }

  // ---------------------------------------------------------------------------
  // The device table
  // ---------------------------------------------------------------------------

  /** A node's name on MQTT; the node id is a decimal text. */
  datatype Device = Device(node: string, name: string, publish: bool)

  datatype Paired = Paired(node: string, title: Option<string>)

  type Devices = seq<Device>

  function Names(devices: Devices): set<string> { set i | 0 <= i < |devices| :: devices[i].name }

  predicate Listed(devices: Devices, node: string) { exists i :: 0 <= i < |devices| && devices[i].node == node }

  function IndexOfNode(devices: Devices, node: string): (r: Option<nat>)
    ensures r.Some? ==> r.value < |devices| && devices[r.value].node == node
    ensures r.None? <==> !Listed(devices, node)
  {
    if devices == [] then None
    else if devices[0].node == node then Some(0)
    else
      var r := IndexOfNode(devices[1..], node);
      assert r.None? ==> !Listed(devices, node) by {
        if i :| 0 <= i < |devices| && devices[i].node == node {
          assert devices[1..][i - 1].node == node;
        }
      }
      if r.Some? then Some(r.value + 1) else None
  }

  function IndexOfName(devices: Devices, name: string): (r: Option<nat>)
    ensures r.Some? ==> r.value < |devices| && devices[r.value].name == name
    ensures r.None? ==> forall i :: 0 <= i < |devices| ==> devices[i].name != name
  {
    if devices == [] then None
    else if devices[0].name == name then Some(0)
    else
      var r := IndexOfName(devices[1..], name);
      if r.Some? then Some(r.value + 1) else None
  }

  /** Node ids are distinct decimal texts; names are distinct and have the form of a device name. */
  predicate ValidDevices(devices: Devices) {
    && (forall i :: 0 <= i < |devices| ==>
          SlugForm(devices[i].name) && devices[i].node != "" && AllDigits(devices[i].node))
    && (forall i, j :: 0 <= i < j < |devices| ==>
          devices[i].node != devices[j].node && devices[i].name != devices[j].name)
  }

  function LabelOf(p: Paired): string { if p.title.Some? then p.title.value else "node_" + p.node }

  /** A name for a paired node that has none yet; names once given are kept. */
  function Named(devices: Devices, p: Paired): Devices {
    if Listed(devices, p.node) then devices
    else devices + [Device(p.node, UniqueName(MqttName(LabelOf(p)), Names(devices)), true)]
  }

  function NamedAll(devices: Devices, paired: seq<Paired>): Devices
    decreases paired
  {
    if paired == [] then devices else NamedAll(Named(devices, paired[0]), paired[1..])
  }

  datatype SetError = NodeNotFound | NotAName | NameInUse

  datatype SetResult = Changed(devices: Devices) | Rejected(error: SetError)

  /** Rename a listed node or switch its publishing. */
  function SetEntry(devices: Devices, node: string, name: Option<string>, publish: Option<bool>): SetResult {
    match IndexOfNode(devices, node)
    case None => Rejected(NodeNotFound)
    case Some(i) =>
      var named :=
        if name.None? then Changed(devices)
        else if MqttName(name.value) != Trim(name.value) then Rejected(NotAName)
        else if exists k :: 0 <= k < |devices| && devices[k].node != node && devices[k].name == MqttName(name.value)
        then Rejected(NameInUse)
        else Changed(devices[i := devices[i].(name := MqttName(name.value))]);
      if named.Rejected? || publish.None? then named
      else Changed(named.devices[i := named.devices[i].(publish := publish.value)])
  }

  /** setDevice: every paired node is named first, and stays named when the request is rejected. */
  function SetDevice(devices: Devices, paired: seq<Paired>, node: string, name: Option<string>,
      publish: Option<bool>): SetResult {
    SetEntry(NamedAll(devices, paired), node, name, publish)
  }

  lemma NamedValid(devices: Devices, p: Paired)
    requires ValidDevices(devices) && p.node != "" && AllDigits(p.node)
    ensures ValidDevices(Named(devices, p)) && Listed(Named(devices, p), p.node)
    ensures devices <= Named(devices, p)
  {
    if !Listed(devices, p.node) {
      MqttNameForm(LabelOf(p));
      UniqueNameForm(MqttName(LabelOf(p)), Names(devices));
      UniqueNameFree(MqttName(LabelOf(p)), Names(devices));
      var later := Named(devices, p);
      assert later[|devices|].node == p.node;
      forall i | 0 <= i < |devices| ensures devices[i].node != p.node && devices[i].name in Names(devices) {
      }
    }
    hide SlugForm, MqttName, UniqueName;
  }

  /** Node ids are decimal texts. */
  predicate AllPaired(paired: seq<Paired>) {
    forall i :: 0 <= i < |paired| ==> paired[i].node != "" && AllDigits(paired[i].node)
  }

  /** After naming, every paired node has a name, kept ones unchanged, all distinct. */
  lemma {:induction false} NamedAllValid(devices: Devices, paired: seq<Paired>)
    requires ValidDevices(devices) && AllPaired(paired)
    ensures ValidDevices(NamedAll(devices, paired)) && devices <= NamedAll(devices, paired)
    ensures forall i :: 0 <= i < |paired| ==> Listed(NamedAll(devices, paired), paired[i].node)
    decreases paired
  {
    hide ValidDevices, Named, Listed;
    if paired != [] {
      var next := Named(devices, paired[0]);
      assert AllPaired(paired[1..]) && AllPaired(paired);
      NamedValid(devices, paired[0]);
      NamedAllValid(next, paired[1..]);
      ListedOn(next, NamedAll(next, paired[1..]), paired[0].node);
      forall i | 0 <= i < |paired| ensures Listed(NamedAll(devices, paired), paired[i].node) {
        assert i > 0 ==> paired[i] == paired[1..][i - 1];
      }
    }
  }

  lemma ListedOn(devices: Devices, later: Devices, node: string)
    requires devices <= later && Listed(devices, node)
    ensures Listed(later, node)
  {
    var k :| 0 <= k < |devices| && devices[k].node == node;
    assert later[k] == devices[k];
  }

  lemma EntryChanged(devices: Devices, i: nat, d: Device)
    requires ValidDevices(devices) && i < |devices| && d.node == devices[i].node && SlugForm(d.name)
    requires forall k :: 0 <= k < |devices| && devices[k].node != d.node ==> devices[k].name != d.name
    ensures ValidDevices(devices[i := d])
  {
  }

  lemma SetEntryExactly(devices: Devices, node: string, name: Option<string>, publish: Option<bool>)
    requires ValidDevices(devices)
    ensures SetEntry(devices, node, name, publish).Changed? <==>
            Listed(devices, node)
            && (name.Some? ==>
                  SlugForm(Trim(name.value))
                  && forall k :: 0 <= k < |devices| && devices[k].node != node ==> devices[k].name != Trim(name.value))
    ensures SetEntry(devices, node, name, publish).Changed? ==>
              var later := SetEntry(devices, node, name, publish).devices;
              ValidDevices(later) && |later| == |devices|
              && forall k :: 0 <= k < |devices| ==>
                   later[k].node == devices[k].node
                   && later[k].name ==
                      (if devices[k].node == node && name.Some? then Trim(name.value) else devices[k].name)
                   && later[k].publish ==
                      if devices[k].node == node && publish.Some? then publish.value else devices[k].publish
  {
    if name.Some? {
      MqttNameForm(name.value);
      if SlugForm(Trim(name.value)) {
        TrimmedName(name.value);
      }
    }
    if SetEntry(devices, node, name, publish).Changed? {
      var i := IndexOfNode(devices, node).value;
      var d := if name.Some? then devices[i].(name := MqttName(name.value)) else devices[i];
      var later := if publish.Some? then d.(publish := publish.value) else d;
      EntryChanged(devices, i, later);
      assert SetEntry(devices, node, name, publish).devices == devices[i := later];
      OnlyNode(devices, i);
      hide ValidDevices;
    }
    hide SlugForm, MqttName, Trim, AllDigits;
  }

  lemma OnlyNode(devices: Devices, i: nat)
    requires ValidDevices(devices) && i < |devices|
    ensures forall k :: 0 <= k < |devices| ==> (devices[k].node == devices[i].node <==> k == i)
  {
    hide SlugForm, AllDigits;
  }

  predicate IsPaired(paired: seq<Paired>, node: string) { exists i :: 0 <= i < |paired| && paired[i].node == node }

  /** Naming lists the paired nodes, and no others. */
  lemma {:induction false} NamedAllListed(devices: Devices, paired: seq<Paired>, node: string)
    ensures Listed(NamedAll(devices, paired), node) <==> Listed(devices, node) || IsPaired(paired, node)
    decreases paired
  {
    if paired != [] {
      var next := Named(devices, paired[0]);
      NamedListed(devices, paired[0], node);
      NamedAllListed(next, paired[1..], node);
      if IsPaired(paired, node) {
        var i :| 0 <= i < |paired| && paired[i].node == node;
        assert i > 0 ==> paired[1..][i - 1].node == node;
      }
      if IsPaired(paired[1..], node) {
        var i :| 0 <= i < |paired[1..]| && paired[1..][i].node == node;
        assert paired[i + 1].node == node;
      }
    }
    hide Named, Listed;
  }

  lemma NamedListed(devices: Devices, p: Paired, node: string)
    ensures Listed(Named(devices, p), node) <==> Listed(devices, node) || p.node == node
  {
    var later := Named(devices, p);
    assert Listed(devices, node) ==> Listed(later, node) by {
      if i :| 0 <= i < |devices| && devices[i].node == node {
        assert later[i].node == node;
      }
    }
    if !Listed(devices, p.node) {
      assert later[|devices|].node == p.node;
    }
    hide UniqueName, MqttName;
  }

  /**
   * A rename goes through exactly for a node that is paired or has a name, and a name in device
   * form that no other node has once all paired nodes are named; it changes that entry only.
   */
  lemma SetDeviceExactly(devices: Devices, paired: seq<Paired>, node: string, name: Option<string>,
      publish: Option<bool>)
    requires ValidDevices(devices) && AllPaired(paired)
    ensures var named := NamedAll(devices, paired);
            var r := SetDevice(devices, paired, node, name, publish);
            && (r.Changed? <==>
                (Listed(devices, node) || IsPaired(paired, node))
                && (name.Some? ==>
                      SlugForm(Trim(name.value))
                      && forall k :: 0 <= k < |named| && named[k].node != node ==> named[k].name != Trim(name.value)))
            && (r.Changed? ==>
                  ValidDevices(r.devices) && |r.devices| == |named|
                  && forall k :: 0 <= k < |named| ==>
                       && r.devices[k].node == named[k].node
                       && r.devices[k].name ==
                          (if named[k].node == node && name.Some? then Trim(name.value) else named[k].name)
                       && r.devices[k].publish ==
                          if named[k].node == node && publish.Some? then publish.value else named[k].publish)
  {
    NamedAllValid(devices, paired);
    NamedAllListed(devices, paired, node);
    SetEntryExactly(NamedAll(devices, paired), node, name, publish);
    hide NamedAll, SetEntry, Listed, IsPaired, ValidDevices, SlugForm, Trim;
  }

  lemma TrimmedName(name: string)
    requires SlugForm(Trim(name))
    ensures MqttName(name) == Trim(name)
  {
    SlugClean(Trim(name));
    CleanTrims(Trim(name));
    MqttNameKeepsExactly(Trim(name));
  }

  // ----- runs -----

  datatype NameOp =
    | Ensure(paired: seq<Paired>)
    | Rename(paired: seq<Paired>, node: string, name: Option<string>, publish: Option<bool>)

  predicate OpValid(op: NameOp) { AllPaired(op.paired) }

  function AfterOp(devices: Devices, op: NameOp): Devices {
    match op
    case Ensure(paired) => NamedAll(devices, paired)
    case Rename(paired, node, name, publish) =>
      var r := SetDevice(devices, paired, node, name, publish);
      if r.Changed? then r.devices else NamedAll(devices, paired)
  }

  function AfterOps(devices: Devices, ops: seq<NameOp>): Devices
    decreases ops
  {
    if ops == [] then devices else AfterOps(AfterOp(devices, ops[0]), ops[1..])
  }

  /** Over every run of naming and renaming, the names stay distinct and in device form. */
  lemma {:induction false} NamesDistinctOverEveryRun(devices: Devices, ops: seq<NameOp>)
    requires ValidDevices(devices) && forall i :: 0 <= i < |ops| ==> OpValid(ops[i])
    ensures ValidDevices(AfterOps(devices, ops))
    decreases ops
  {
    if ops != [] {
      assert OpValid(ops[0]);
      match ops[0] {
        case Ensure(paired) => NamedAllValid(devices, paired);
        case Rename(paired, node, name, publish) =>
          NamedAllValid(devices, paired);
          SetDeviceExactly(devices, paired, node, name, publish);
      }
      NamesDistinctOverEveryRun(AfterOp(devices, ops[0]), ops[1..]);
    }
    hide ValidDevices, SetDevice, NamedAll;
  }

  // ---------------------------------------------------------------------------
  // From a topic back to an address
  // ---------------------------------------------------------------------------

  datatype Address = Address(node: string, endpoint: nat, cluster: string, name: string)

  datatype Resolved = Found(address: Address) | UnknownDevice | NoEndpoint | NoCluster | NoName

  function NameOf(devices: Devices, node: string): string {
    match IndexOfNode(devices, node)
    case None => "node_" + node
    case Some(i) => devices[i].name
  }

  /** Names are looked up first, then node ids. */
  function NodeFor(devices: Devices, device: string): Option<string> {
    match IndexOfName(devices, device)
    case Some(i) => Some(devices[i].node)
    case None => if device != "" && AllDigits(device) && Listed(devices, device) then Some(device) else None
  }

  function TopicVars(devices: Devices, a: Address): map<string, string> {
    map["device" := NameOf(devices, a.node),
        "nodeId" := a.node,
        "endpoint" := Dec(a.endpoint),
        "cluster" := Snake(a.cluster),
        "attribute" := Snake(a.name),
        "event" := Snake(a.name),
        "attributeOrCommand" := Snake(a.name)]
  }

  function Get(vars: map<string, string>, key: string): Option<string> { if key in vars then Some(vars[key]) else None }

  function OrEmpty(v: Option<string>): string { if v.Some? then v.value else "" }

  /** The value that names the device: the name if the topic has one, else the node id. */
  function DeviceText(vars: map<string, string>): Option<string> {
    if "device" in vars then Some(vars["device"]) else Get(vars, "nodeId")
  }

  /** `_resolveTarget` and the name behind it: of the placeholder `key`, as the set or the get handler reads it. */
  function Resolve(devices: Devices, vars: map<string, string>, key: string): Resolved {
    var node := if DeviceText(vars).Some? then NodeFor(devices, DeviceText(vars).value) else None;
    var endpoint := Get(vars, "endpoint");
    var cluster := Camel(OrEmpty(Get(vars, "cluster")));
    var name := Camel(OrEmpty(Get(vars, key)));
    if node.None? then UnknownDevice
    else if endpoint.None? || !AllDigits(endpoint.value) then NoEndpoint
    else if cluster == "" then NoCluster
    else if name == "" then NoName
    else Found(Address(node.value, Value(endpoint.value), cluster, name))
  }

  /** The names of the bridge: the table behind `_ensureNames`, `setDevice` and `_nodeIdForDevice`. */
  class Bridge {
    var devices: Devices

    constructor ()
      ensures devices == []
    {
      devices := [];
    }

    method EnsureNames(paired: seq<Paired>)
      modifies this
      ensures devices == NamedAll(old(devices), paired)
    {
      var taken := Names(devices);
      assert paired[0..] == paired;
      for i := 0 to |paired|
        invariant taken == Names(devices)
        invariant NamedAll(devices, paired[i..]) == NamedAll(old(devices), paired)
      {
        assert paired[i..][1..] == paired[i + 1..];
        if !Listed(devices, paired[i].node) {
          var name := FindUniqueName(MqttName(LabelOf(paired[i])), taken);
          NamesAppend(devices, Device(paired[i].node, name, true));
          taken := taken + {name};
          devices := devices + [Device(paired[i].node, name, true)];
        }
      }
    }

    method Rename(paired: seq<Paired>, node: string, name: Option<string>, publish: Option<bool>)
      returns (error: Option<SetError>)
      modifies this
      ensures match SetDevice(old(devices), paired, node, name, publish)
              case Changed(later) => error.None? && devices == later
              case Rejected(e) => error == Some(e) && devices == NamedAll(old(devices), paired)
    {
      EnsureNames(paired);
      var i := IndexOfNode(devices, node);
      if i.None? {
        return Some(NodeNotFound);
      }
      var entry := devices[i.value];
      if name.Some? {
        var clean := MqttName(name.value);
        if clean != Trim(name.value) {
          return Some(NotAName);
        }
        if exists k :: 0 <= k < |devices| && devices[k].node != node && devices[k].name == clean {
          return Some(NameInUse);
        }
        entry := entry.(name := clean);
      }
      if publish.Some? {
        entry := entry.(publish := publish.value);
      }
      ghost var before := devices;
      devices := devices[i.value := entry];
      assert name.None? && publish.None? ==> devices == before;
      error := None;
    }

    method NodeIdForDevice(device: string) returns (node: Option<string>)
      ensures node == NodeFor(devices, device)
    {
      assert devices[0..] == devices;
      for i := 0 to |devices|
        invariant match IndexOfName(devices[i..], device)
                  case None => IndexOfName(devices, device).None?
                  case Some(k) => IndexOfName(devices, device) == Some(k + i)
      {
        assert devices[i..][1..] == devices[i + 1..];
        if devices[i].name == device {
          return Some(devices[i].node);
        }
      }
      if device != "" && AllDigits(device) && Listed(devices, device) {
        return Some(device);
      }
      node := None;
    }
  }

  lemma NamesAppend(devices: Devices, d: Device)
    ensures Names(devices + [d]) == Names(devices) + {d.name}
  {
    var later := devices + [d];
    assert later[|devices|] == d;
    forall i | 0 <= i < |devices| ensures later[i] == devices[i] {
    }
    forall n | n in Names(devices) ensures n in Names(later) {
      var i :| 0 <= i < |devices| && devices[i].name == n;
      assert later[i].name == n;
    }
    assert d.name in Names(later);
  }

  // ----- the round trip -----

  const DEVICE := "device"
  const NODE_ID := "nodeId"
  const ENDPOINT := "endpoint"
  const CLUSTER := "cluster"
  const ATTRIBUTE := "attribute"
  const EVENT := "event"
  const TARGET_NAME := "attributeOrCommand"

  lemma VarsAt(devices: Devices, a: Address)
    ensures var vars := TopicVars(devices, a);
            && vars[DEVICE] == NameOf(devices, a.node) && vars[NODE_ID] == a.node && vars[ENDPOINT] == Dec(a.endpoint)
            && vars[CLUSTER] == Snake(a.cluster) && vars[TARGET_NAME] == Snake(a.name)
            && vars[ATTRIBUTE] == Snake(a.name) && vars[EVENT] == Snake(a.name)
            && vars.Keys == {DEVICE, NODE_ID, ENDPOINT, CLUSTER, ATTRIBUTE, EVENT, TARGET_NAME}
  {
  }

  /** A name without the characters that structure a topic. */
  predicate IdText(x: string) { x != "" && LevelText(x) }

  lemma SnakeLevel(x: string)
    requires LevelText(x)
    ensures LevelText(Snake(x))
  {
    SnakeText(None, x, '/');
    SnakeText(None, x, '+');
    SnakeText(None, x, '#');
  }

  lemma PlainLevel(x: string)
    requires (forall i :: 0 <= i < |x| ==> NameChar(x[i]))
    ensures LevelText(x)
  {
  }

  /** Every value that is filled in can stand for a topic level. */
  lemma VarsLevel(devices: Devices, a: Address)
    requires ValidDevices(devices) && Listed(devices, a.node) && IdText(a.cluster) && IdText(a.name)
    ensures forall key :: key in TopicVars(devices, a) ==> LevelText(TopicVars(devices, a)[key])
  {
    VarsAt(devices, a);
    var i := IndexOfNode(devices, a.node).value;
    PlainLevel(devices[i].name);
    PlainLevel(a.node);
    PlainLevel(Dec(a.endpoint));
    SnakeLevel(a.cluster);
    SnakeLevel(a.name);
    hide TopicVars, LevelText, NameOf;
    assert NameOf(devices, a.node) == devices[i].name by {
      NameOfIs(devices, a.node);
    }
  }

  lemma NameOfIs(devices: Devices, node: string)
    requires Listed(devices, node)
    ensures NameOf(devices, node) == devices[IndexOfNode(devices, node).value].name
  {
  }

  /** The name of a listed node leads back to that node. */
  lemma NodeForName(devices: Devices, node: string)
    requires ValidDevices(devices) && Listed(devices, node)
    ensures NodeFor(devices, NameOf(devices, node)) == Some(node)
  {
  }

  /** No other node is named by this node's id. */
  predicate IdUnshadowed(devices: Devices, node: string) {
    forall i :: 0 <= i < |devices| && devices[i].name == node ==> devices[i].node == node
  }

  lemma NodeForId(devices: Devices, node: string)
    requires ValidDevices(devices) && Listed(devices, node)
    ensures NodeFor(devices, node) == Some(node) <==> IdUnshadowed(devices, node)
  {
  }

  /** The placeholder that carries the name: of a set topic, or of a get topic. */
  predicate NameKey(key: string) { key == TARGET_NAME || key == ATTRIBUTE }

  /**
   * The template names the device (by name or id), the endpoint, the cluster and, under `key`, the
   * attribute or command.
   */
  predicate Addresses(parts: seq<string>, vars: map<string, string>, key: string) {
    && (HasKey(parts, DEVICE) || HasKey(parts, NODE_ID))
    && HasKey(parts, ENDPOINT) && HasKey(parts, CLUSTER) && HasKey(parts, key)
    && forall i :: 0 <= i < |parts| && FirstKey(parts[i]).Some? ==> FirstKey(parts[i]).value in vars
  }

  lemma ResolveGot(devices: Devices, a: Address, parts: seq<string>, got: map<string, string>, key: string)
    requires ValidDevices(devices) && Listed(devices, a.node) && a.cluster != "" && a.name != ""
    requires NameKey(key) && Addresses(parts, TopicVars(devices, a), key)
    requires forall k :: k in got <==> HasKey(parts, k)
    requires forall k :: k in got ==> got[k] == ValueIn(TopicVars(devices, a), k)
    ensures Resolve(devices, got, key) == Found(a) <==>
            Restorable(a.cluster) && Restorable(a.name) && (HasKey(parts, DEVICE) || IdUnshadowed(devices, a.node))
  {
    VarsAt(devices, a);
    CamelSnakeExactly(a.cluster);
    CamelSnakeExactly(a.name);
    ValueDec(a.endpoint);
    NodeForName(devices, a.node);
    NodeForId(devices, a.node);
    hide TopicVars, HasKey, NodeFor, NameOf, ValidDevices, Listed, Snake, Camel, Restorable, IdUnshadowed;
    assert got[ENDPOINT] == Dec(a.endpoint) && got[CLUSTER] == Snake(a.cluster) && got[key] == Snake(a.name);
    if HasKey(parts, DEVICE) {
      assert DeviceText(got) == Some(NameOf(devices, a.node));
    } else {
      assert DEVICE !in got && got[NODE_ID] == a.node;
      assert DeviceText(got) == Some(a.node);
    }
  }

  /**
   * Resolving the topic filled for an address gives back exactly that node, endpoint, cluster and
   * attribute if and only if both names survive the change of case and, where the template names
   * the node only by its id, no other device is named by that id.
   */
  lemma AddressRoundTripExactly(devices: Devices, template: string, a: Address, key: string)
    requires ValidDevices(devices) && Listed(devices, a.node) && IdText(a.cluster) && IdText(a.name)
    requires WholeTemplate(template) && NameKey(key) && Addresses(Split(template, '/'), TopicVars(devices, a), key)
    ensures var got := Match(template, FillText(template, TopicVars(devices, a)));
            got.Some? &&
            (Resolve(devices, got.value, key) == Found(a) <==>
             Restorable(a.cluster) && Restorable(a.name)
             && (HasKey(Split(template, '/'), DEVICE) || IdUnshadowed(devices, a.node)))
  {
    var vars := TopicVars(devices, a);
    var parts := Split(template, '/');
    VarsLevel(devices, a);
    assert GoodValues(parts, vars);
    MatchFilled(template, vars);
    ResolveGot(devices, a, parts, Match(template, FillText(template, vars)).value, key);
    hide *;
  }

  // ----- the default template -----

  lemma {:induction false} LettersAll(key: string, rest: string)
    requires (forall i :: 0 <= i < |key| ==> IsLetter(key[i])) && rest != "" && !IsLetter(rest[0])
    ensures Letters(key + rest) == key
  {
    if key == "" {
      assert key + rest == rest;
    } else {
      assert (key + rest)[1..] == key[1..] + rest;
      LettersAll(key[1..], rest);
      assert [key[0]] + key[1..] == key;
    }
  }

  lemma PlaceholderIsWhole(key: string)
    requires KeyName(key)
    ensures IsWhole(Placeholder(key)) && FirstKey(Placeholder(key)) == Some(key)
            && ('/' !in key ==> '/' !in Placeholder(key))
  {
    var seg := Placeholder(key);
    assert seg[2..] == key + "}";
    LettersAll(key, "}");
    assert seg[|key| + 2] == '}';
  }

  lemma {:induction false} NoDollarPlain(seg: string)
    requires '$' !in seg
    ensures FirstKey(seg).None?
  {
    if seg != "" {
      NoDollarPlain(seg[1..]);
    }
  }

  lemma KeyNames()
    ensures KeyName(DEVICE) && KeyName(NODE_ID) && KeyName(ENDPOINT) && KeyName(CLUSTER) && KeyName(TARGET_NAME)
            && KeyName(ATTRIBUTE)
  {
  }

  predicate IsWholeFor(seg: string, key: string) { IsWhole(seg) && FirstKey(seg) == Some(key) && '/' !in seg }

  lemma SixParts(parts: seq<string>, vars: map<string, string>, key: string)
    requires |parts| == 6 && forall i :: 0 <= i < 2 ==> FirstKey(parts[i]).None? && LevelText(parts[i])
    requires IsWholeFor(parts[2], DEVICE) && IsWholeFor(parts[3], ENDPOINT) && IsWholeFor(parts[4], CLUSTER)
    requires IsWholeFor(parts[5], key)
    requires DEVICE in vars && ENDPOINT in vars && CLUSTER in vars && key in vars
    ensures WholeParts(parts) && Addresses(parts, vars, key) && HasKey(parts, DEVICE)
  {
    hide FirstKey, IsWhole;
  }

  lemma FourPlaceholders(plain: seq<string>, vars: map<string, string>, key: string)
    requires |plain| == 2 && forall i :: 0 <= i < 2 ==> FirstKey(plain[i]).None? && LevelText(plain[i])
    requires DEVICE in vars && ENDPOINT in vars && CLUSTER in vars && NameKey(key) && key in vars
    ensures var parts := plain + [Placeholder(DEVICE), Placeholder(ENDPOINT), Placeholder(CLUSTER), Placeholder(key)];
            var template := Join(parts, '/');
            && WholeTemplate(template) && Addresses(Split(template, '/'), vars, key)
            && HasKey(Split(template, '/'), DEVICE)
  {
    hide KeyAt, FirstKey, Placeholder, IsWhole, Split, Join, Addresses, HasKey, WholeParts;
    var parts := plain + [Placeholder(DEVICE), Placeholder(ENDPOINT), Placeholder(CLUSTER), Placeholder(key)];
    KeyNames();
    PlaceholderIsWhole(DEVICE);
    PlaceholderIsWhole(ENDPOINT);
    PlaceholderIsWhole(CLUSTER);
    PlaceholderIsWhole(key);
    assert IsWholeFor(parts[2], DEVICE) && IsWholeFor(parts[3], ENDPOINT);
    assert IsWholeFor(parts[4], CLUSTER) && IsWholeFor(parts[5], key);
    SixParts(parts, vars, key);
    SplitJoin(parts, '/');
  }

  /** The default templates for setting and for getting. */
  function DefaultTemplate(verb: string, key: string): string {
    Join(["matter", verb] + [Placeholder(DEVICE), Placeholder(ENDPOINT), Placeholder(CLUSTER), Placeholder(key)], '/')
  }

  lemma DefaultTemplateCovered(devices: Devices, a: Address, verb: string, key: string)
    requires NameKey(key) && '$' !in verb && LevelText(verb)
    ensures var parts := Split(DefaultTemplate(verb, key), '/');
            && WholeTemplate(DefaultTemplate(verb, key)) && Addresses(parts, TopicVars(devices, a), key)
            && HasKey(parts, DEVICE)
  {
    var plain := ["matter", verb];
    NoDollarPlain(plain[0]);
    NoDollarPlain(plain[1]);
    VarsAt(devices, a);
    assert LevelText(plain[0]) && LevelText(plain[1]);
    FourPlaceholders(plain, TopicVars(devices, a), key);
    hide *;
  }

  /**
   * With the default templates, what is filled for setting and for getting leads back to its address
   * exactly when both names survive the change of case.
   */
  lemma DefaultTemplatesRoundTrip(devices: Devices, a: Address)
    requires ValidDevices(devices) && Listed(devices, a.node) && IdText(a.cluster) && IdText(a.name)
    ensures var vars := TopicVars(devices, a);
            var set_, get := DefaultTemplate("set", TARGET_NAME), DefaultTemplate("get", ATTRIBUTE);
            var gotSet, gotGet := Match(set_, FillText(set_, vars)), Match(get, FillText(get, vars));
            && gotSet.Some? && gotGet.Some?
            && (Resolve(devices, gotSet.value, TARGET_NAME) == Found(a) <==>
                Restorable(a.cluster) && Restorable(a.name))
            && (Resolve(devices, gotGet.value, ATTRIBUTE) == Found(a) <==> Restorable(a.cluster) && Restorable(a.name))
  {
    assert NameKey(TARGET_NAME) && NameKey(ATTRIBUTE) && LevelText("set") && LevelText("get");
    DefaultTemplateCovered(devices, a, "set", TARGET_NAME);
    DefaultTemplateCovered(devices, a, "get", ATTRIBUTE);
    AddressRoundTripExactly(devices, DefaultTemplate("set", TARGET_NAME), a, TARGET_NAME);
    AddressRoundTripExactly(devices, DefaultTemplate("get", ATTRIBUTE), a, ATTRIBUTE);
    hide *;
  }

  /** A template of the four placeholders that names the node by its id only. */
  lemma IdTemplate(vars: map<string, string>) returns (template: string)
    requires NODE_ID in vars && ENDPOINT in vars && CLUSTER in vars && TARGET_NAME in vars
    ensures template == Join([Placeholder(NODE_ID), Placeholder(ENDPOINT), Placeholder(CLUSTER),
            Placeholder(TARGET_NAME)], '/')
    ensures WholeTemplate(template) && Addresses(Split(template, '/'), vars, TARGET_NAME)
            && !HasKey(Split(template, '/'), DEVICE)
  {
    var parts := [Placeholder(NODE_ID), Placeholder(ENDPOINT), Placeholder(CLUSTER), Placeholder(TARGET_NAME)];
    KeyNames();
    PlaceholderIsWhole(NODE_ID);
    PlaceholderIsWhole(ENDPOINT);
    PlaceholderIsWhole(CLUSTER);
    PlaceholderIsWhole(TARGET_NAME);
    hide KeyAt, FirstKey, Placeholder, IsWhole;
    SplitJoin(parts, '/');
    template := Join(parts, '/');
    assert FirstKey(parts[0]) == Some(NODE_ID) && FirstKey(parts[1]) == Some(ENDPOINT);
    assert FirstKey(parts[2]) == Some(CLUSTER) && FirstKey(parts[3]) == Some(TARGET_NAME);
  }

  /** Node 1 is named "2": addressed by its id only, node 2 is not found again. */
  lemma ShadowedByName(a: Address) returns (template: string)
    requires a.node == "2" && IdText(a.cluster) && IdText(a.name)
    ensures var devices := [Device("1", "2", true), Device("2", "lamp", true)];
            && ValidDevices(devices) && Listed(devices, "2") && WholeTemplate(template)
            && var got := Match(template, FillText(template, TopicVars(devices, a)));
               got.Some? && Resolve(devices, got.value, TARGET_NAME) != Found(a)
  {
    var devices := [Device("1", "2", true), Device("2", "lamp", true)];
    ShadowingDevices();
    VarsAt(devices, a);
    template := IdTemplate(TopicVars(devices, a));
    assert NameKey(TARGET_NAME);
    AddressRoundTripExactly(devices, template, a, TARGET_NAME);
    hide *;
  }

  lemma ShadowingDevices()
    ensures var devices := [Device("1", "2", true), Device("2", "lamp", true)];
            ValidDevices(devices) && Listed(devices, "2") && !IdUnshadowed(devices, "2")
  {
    var devices := [Device("1", "2", true), Device("2", "lamp", true)];
    assert devices[1].node == "2" && devices[0].name == "2" && devices[0].node != "2";
  }
}
