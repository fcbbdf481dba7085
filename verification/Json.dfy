// The JavaScript values that sheDB documents are made of, and the property helpers inlined
// in src/lib/shedb-core.js: getProp, setProp, delProp, deepEqual, deepExtend.
//
// An object is its own enumerable properties; an array is an object whose keys are its indices
// (that is how Object.keys, and therefore deepEqual, sees it).

module Json {
  type Props = map<string, Json>

  datatype Json =
    | Undefined
    | Null
    | Bool(b: bool)
    | Num(n: real)
    | Str(s: string)
    | Obj(isArray: bool, props: Props)

  /** `obj[k]`: a missing property reads as undefined. */
  function Get(props: Props, k: string): Json {
    if k in props then props[k] else Undefined
  }

  // ---------------------------------------------------------------------------
  // deepEqual
  // ---------------------------------------------------------------------------

  predicate DeepEqual(a: Json, b: Json) {
    if !a.Obj? || !b.Obj? then a == b
    else
      a.props.Keys == b.props.Keys &&
      forall k :: k in a.props ==> DeepEqual(a.props[k], b.props[k])
  }

  lemma {:induction false} DeepEqualReflexive(a: Json)
    ensures DeepEqual(a, a)
  {
    if a.Obj? {
      forall k | k in a.props ensures DeepEqual(a.props[k], a.props[k]) {
        DeepEqualReflexive(a.props[k]);
      }
    }
  }

  lemma {:induction false} DeepEqualSymmetric(a: Json, b: Json)
    ensures DeepEqual(a, b) == DeepEqual(b, a)
  {
    if a.Obj? && b.Obj? && a.props.Keys == b.props.Keys {
      forall k | k in a.props ensures DeepEqual(a.props[k], b.props[k]) == DeepEqual(b.props[k], a.props[k]) {
        DeepEqualSymmetric(a.props[k], b.props[k]);
      }
    }
  }

  lemma {:induction false} DeepEqualTransitive(a: Json, b: Json, c: Json)
    requires DeepEqual(a, b) && DeepEqual(b, c)
    ensures DeepEqual(a, c)
  {
    if a.Obj? && b.Obj? && c.Obj? {
      forall k | k in a.props ensures DeepEqual(a.props[k], c.props[k]) {
        DeepEqualTransitive(a.props[k], b.props[k], c.props[k]);
      }
    }
  }

  // ---------------------------------------------------------------------------
  // deepExtend
  // ---------------------------------------------------------------------------

  predicate PlainObject(j: Json) { j.Obj? && !j.isArray }

  /** One turn of deepExtend's loop: what `target[k]` becomes. */
  function MergeValue(tv: Json, sv: Json): Json
    decreases sv, 1
  {
    if PlainObject(sv) && PlainObject(tv) then Obj(false, Merged(tv.props, sv))
    else if !DeepEqual(tv, sv) then sv
    else tv
  }

  /** ... and whether that turn reports a change. */
  predicate ValueChanges(tv: Json, sv: Json)
    decreases sv, 1
  {
    if PlainObject(sv) && PlainObject(tv) then MergeChanges(tv.props, sv)
    else !DeepEqual(tv, sv)
  }

  /**
   * The target's properties after deepExtend's loop has visited the source keys `on`; a turn that
   * reports no change writes nothing.
   */
  function MergedOn(target: Props, source: Json, on: set<string>): Props
    requires source.Obj? && on <= source.props.Keys
    decreases source, 0, 0
  {
    map k | k in target.Keys + on && (k in target || source.props[k] != Undefined) ::
      if k in on then MergeValue(Get(target, k), source.props[k]) else target[k]
  }

  /** The target's properties after `deepExtend(target, source)`. */
  function Merged(target: Props, source: Json): Props
    requires source.Obj?
    decreases source, 0, 1
  {
    MergedOn(target, source, source.props.Keys)
  }

  /** What `deepExtend(target, source)` returns. */
  predicate MergeChanges(target: Props, source: Json)
    requires source.Obj?
    decreases source, 0
  {
    exists k :: k in source.props && ValueChanges(Get(target, k), source.props[k])
  }

  lemma MergedAt(target: Props, source: Json, k: string)
    requires source.Obj?
    ensures Get(Merged(target, source), k) ==
            if k in source.props then MergeValue(Get(target, k), source.props[k]) else Get(target, k)
    ensures k in Merged(target, source) <==> k in target || (k in source.props && source.props[k] != Undefined)
  {
  }

  lemma MergeTurn(target: Props, source: Json, on: set<string>, k: string)
    requires source.Obj? && on <= source.props.Keys && k in source.props && k !in on
    ensures Get(MergedOn(target, source, on), k) == Get(target, k)
    ensures MergedOn(target, source, on + {k}) ==
            if ValueChanges(Get(target, k), source.props[k]) || PlainObject(Get(target, k))
            then MergedOn(target, source, on)[k := MergeValue(Get(target, k), source.props[k])]
            else MergedOn(target, source, on)
  {
  }

  /** deepExtend itself: the loop over the source's keys, recursing where both sides are plain objects. */
  method DeepExtend(target: Props, source: Json) returns (merged: Props, changed: bool)
    requires source.Obj?
    ensures merged == Merged(target, source)
    ensures changed == MergeChanges(target, source)
    decreases source
  {
    hide DeepEqual;
    var keys := KeyOrder(source.props.Keys);
    ghost var done: set<string> := {};
    merged, changed := target, false;
    for i := 0 to |keys|
      invariant done <= source.props.Keys
      invariant forall k :: k in done <==> k in keys[..i]
      invariant merged == MergedOn(target, source, done)
      invariant changed <==> exists k :: k in done && ValueChanges(Get(target, k), source.props[k])
    {
      var k := keys[i];
      assert keys[..i + 1] == keys[..i] + [k];
      MergeTurn(target, source, done, k);
      var sv, tv := source.props[k], Get(merged, k);
      if PlainObject(sv) && PlainObject(tv) {
        var child, childChanged := DeepExtend(tv.props, sv);
        merged := merged[k := Obj(false, child)];
        if childChanged {
          changed := true;
        }
      } else if !DeepEqual(tv, sv) {
        merged := merged[k := sv];
        changed := true;
      }
      done := done + {k};
    }
    assert keys[..|keys|] == keys;
    assert done == source.props.Keys;
  }

  /** Object.keys of an object, in some order: every key once. */
  method KeyOrder(keys: set<string>) returns (order: seq<string>)
    ensures forall k :: k in order <==> k in keys
    ensures forall i, j :: 0 <= i < j < |order| ==> order[i] != order[j]
  {
    order := [];
    var left := keys;
    while left != {}
      invariant forall k :: k in keys <==> k in order || k in left
      invariant forall k :: k in order ==> k !in left
      invariant forall i, j :: 0 <= i < j < |order| ==> order[i] != order[j]
      decreases left
    {
      var k :| k in left;
      order, left := order + [k], left - {k};
    }
  }

  // ---------------------------------------------------------------------------
  // What merging means
  // ---------------------------------------------------------------------------

  /**
   * `merged` is an extension of `target` by `source`: keys the source does not name are as they
   * were; a key it names holds (up to deepEqual) the source's value, except where both sides hold
   * plain objects, which are extended in turn.
   */
  ghost predicate Extends(target: Props, source: Json, merged: Props)
    requires source.Obj?
    decreases source
  {
    (forall k :: k !in source.props ==> Get(merged, k) == Get(target, k) && (k in merged <==> k in target)) &&
    (forall k :: k in source.props ==>
      var sv, tv, mv := source.props[k], Get(target, k), Get(merged, k);
      if PlainObject(sv) && PlainObject(tv) then PlainObject(mv) && Extends(tv.props, sv, mv.props)
      else DeepEqual(mv, sv))
  }

  lemma {:induction false} MergedExtends(target: Props, source: Json)
    requires source.Obj?
    ensures Extends(target, source, Merged(target, source))
    decreases source
  {
    var merged := Merged(target, source);
    forall k | k in source.props
      ensures var sv, tv, mv := source.props[k], Get(target, k), Get(merged, k);
              if PlainObject(sv) && PlainObject(tv) then PlainObject(mv) && Extends(tv.props, sv, mv.props)
              else DeepEqual(mv, sv)
    {
      var sv, tv := source.props[k], Get(target, k);
      MergedAt(target, source, k);
      if PlainObject(sv) && PlainObject(tv) {
        MergedExtends(tv.props, sv);
      } else {
        DeepEqualReflexive(sv);
      }
    }
  }

  /** deepExtend reports a change exactly when the merged object is not deepEqual to the old one. */
  lemma {:induction false} ChangeIffDifferent(target: Props, source: Json)
    requires source.Obj?
    ensures MergeChanges(target, source) <==> !DeepEqual(Obj(false, target), Obj(false, Merged(target, source)))
    decreases source
  {
    var merged := Merged(target, source);
    forall k | k in source.props
      ensures ValueChanges(Get(target, k), source.props[k]) <==>
              (k in target) != (k in merged) || !DeepEqual(Get(target, k), Get(merged, k))
    {
      var sv, tv := source.props[k], Get(target, k);
      MergedAt(target, source, k);
      if PlainObject(sv) && PlainObject(tv) {
        ChangeIffDifferent(tv.props, sv);
      } else {
        DeepEqualReflexive(tv);
      }
    }
    forall k ensures k !in source.props ==> Get(merged, k) == Get(target, k) && (k in merged <==> k in target) {
      MergedAt(target, source, k);
    }
    if MergeChanges(target, source) {
      var k :| k in source.props && ValueChanges(Get(target, k), source.props[k]);
      assert k in target && k in merged ==> !DeepEqual(target[k], merged[k]);
    } else {
      forall k | k in target ensures k in merged && DeepEqual(target[k], merged[k]) {
        DeepEqualReflexive(target[k]);
      }
      assert merged.Keys == target.Keys;
    }
  }

  /** Extending an object by itself changes nothing. */
  lemma {:induction false} SelfExtend(source: Json)
    requires source.Obj?
    ensures Merged(source.props, source) == source.props && !MergeChanges(source.props, source)
  {
    forall k | k in source.props
      ensures MergeValue(source.props[k], source.props[k]) == source.props[k]
      ensures !ValueChanges(source.props[k], source.props[k])
    {
      DeepEqualReflexive(source.props[k]);
      if PlainObject(source.props[k]) {
        SelfExtend(source.props[k]);
      }
    }
  }

  /** deepExtend is idempotent: the same partial a second time changes nothing and says so. */
  lemma {:induction false} ExtendIdempotent(target: Props, source: Json)
    requires source.Obj?
    ensures Merged(Merged(target, source), source) == Merged(target, source)
    ensures !MergeChanges(Merged(target, source), source)
    decreases source
  {
    var merged := Merged(target, source);
    forall k | k in source.props
      ensures MergeValue(Get(merged, k), source.props[k]) == Get(merged, k)
      ensures !ValueChanges(Get(merged, k), source.props[k])
    {
      var sv, tv := source.props[k], Get(target, k);
      MergedAt(target, source, k);
      DeepEqualReflexive(sv);
      if PlainObject(sv) && PlainObject(tv) {
        ExtendIdempotent(tv.props, sv);
      } else if PlainObject(sv) {
        SelfExtend(sv);
      }
    }
  }

  // ---------------------------------------------------------------------------
  // Property paths
  // ---------------------------------------------------------------------------

  /** `getProp` along the split path. */
  function GetPath(j: Json, path: seq<string>): Json
    decreases path
  {
    if path == [] then j
    else if !j.Obj? then Undefined
    else GetPath(Get(j.props, path[0]), path[1..])
  }

  /** The object a path step descends into: what is there, or the `{}` put in its place. */
  function Child(props: Props, k: string): Json {
    if Get(props, k).Obj? then Get(props, k) else Obj(false, map[])
  }

  /** The properties after `setProp(obj, path, val)`, intermediate objects created on the way included. */
  function SetPath(props: Props, path: seq<string>, val: Json): Props
    requires path != []
    decreases path
  {
    if |path| == 1 then
      if DeepEqual(Get(props, path[0]), val) then props else props[path[0] := val]
    else
      var c := Child(props, path[0]);
      props[path[0] := c.(props := SetPath(c.props, path[1..], val))]
  }

  /** What `setProp` returns. */
  predicate SetChanges(props: Props, path: seq<string>, val: Json)
    requires path != []
    decreases path
  {
    if |path| == 1 then !DeepEqual(Get(props, path[0]), val)
    else SetChanges(Child(props, path[0]).props, path[1..], val)
  }

  /** Whether every object on the way to the last step exists, so that setProp has none to create. */
  predicate PathExists(props: Props, path: seq<string>)
    requires path != []
    decreases path
  {
    |path| == 1 || (Get(props, path[0]).Obj? && PathExists(Get(props, path[0]).props, path[1..]))
  }

  function DelPath(props: Props, path: seq<string>): Props
    requires path != []
    decreases path
  {
    if |path| == 1 then
      if Get(props, path[0]) == Undefined then props else props - {path[0]}
    else if !Get(props, path[0]).Obj? then props
    else
      var c := props[path[0]];
      props[path[0] := c.(props := DelPath(c.props, path[1..]))]
  }

  predicate DelChanges(props: Props, path: seq<string>)
    requires path != []
    decreases path
  {
    if |path| == 1 then Get(props, path[0]) != Undefined
    else Get(props, path[0]).Obj? && DelChanges(Get(props, path[0]).props, path[1..])
  }

  /** setProp then getProp reads the value back (up to deepEqual), whatever was in the way. */
  lemma {:induction false} SetThenGet(props: Props, path: seq<string>, val: Json, isArray: bool)
    requires path != []
    ensures DeepEqual(GetPath(Obj(isArray, SetPath(props, path, val)), path), val)
    decreases path
  {
    DeepEqualReflexive(val);
    if |path| > 1 {
      var c := Child(props, path[0]);
      SetThenGet(c.props, path[1..], val, c.isArray);
    }
  }

  /** delProp leaves nothing to read at the path, and says false exactly when nothing was there. */
  lemma {:induction false} DelThenGet(props: Props, path: seq<string>, isArray: bool)
    requires path != []
    ensures GetPath(Obj(isArray, DelPath(props, path)), path) == Undefined
    ensures DelChanges(props, path) <==> GetPath(Obj(isArray, props), path) != Undefined
    ensures !DelChanges(props, path) ==> DelPath(props, path) == props
    decreases path
  {
    if |path| > 1 && Get(props, path[0]).Obj? {
      var c := props[path[0]];
      DelThenGet(c.props, path[1..], c.isArray);
    }
  }

  /**
   * When setProp reports no change it left the object as it was, except that an undefined value on
   * a path with missing objects still creates those objects.
   */
  lemma {:induction false} SilentSetExactly(props: Props, path: seq<string>, val: Json)
    requires path != [] && !SetChanges(props, path, val)
    ensures SetPath(props, path, val) != props <==> !PathExists(props, path)
    ensures !PathExists(props, path) ==> val == Undefined
    decreases path
  {
    if |path| > 1 {
      var c := Child(props, path[0]);
      SilentSetExactly(c.props, path[1..], val);
      if !Get(props, path[0]).Obj? {
        FreshPathUndefined(path[1..], val);
      }
    }
  }

  lemma {:induction false} FreshPathUndefined(path: seq<string>, val: Json)
    requires path != [] && !SetChanges(map[], path, val)
    ensures val == Undefined
  {
    if |path| > 1 {
      FreshPathUndefined(path[1..], val);
    }
  }
}
