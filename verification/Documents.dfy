// The document half of src/lib/shedb-core.js: set, extend, del and prop over the document table,
// the revision counters they keep, and the patch each sends to the view worker.

module Documents {
  import opened Text
  import opened Json
  import opened Tables

  datatype PropMethod = SetProp | CreateProp | DelProp | OtherMethod

  datatype Op =
    | Set(id: string, payload: Json)
    | Extend(id: string, payload: Json)
    | Del(id: string)
    | Prop(id: string, how: PropMethod, path: string, val: Json)

  /** What goes to the worker: nothing, the whole document, or its deletion. */
  datatype Patch = NoPatch | PatchDoc(id: string, doc: Props) | PatchDel(id: string)

  type Docs = Table<Props>

  datatype Core = Core(docs: Docs, rev: int)

  datatype Effect = Effect(core: Core, reported: bool, patch: Patch)

  // ---------------------------------------------------------------------------
  // One operation
  // ---------------------------------------------------------------------------

  /** `_getRev`: -1 for a document without one; the caller goes on with the document stripped of it. */
  function RevOf(doc: Props): real {
    if Get(doc, "_rev").Num? then doc["_rev"].n else -1.0
  }

  function Stripped(doc: Props): Props { doc - {"_rev"} }

  function Content(doc: Props): Props { doc - {"_rev", "_id"} }

  function DocOf(docs: Docs, id: string): Props {
    if Has(docs, id) then Lookup(docs, id).value else map[]
  }

  predicate Truthy(j: Json) {
    match j
    case Undefined => false
    case Null => false
    case Bool(b) => b
    case Num(n) => n != 0.0
    case Str(s) => s != ""
    case Obj(_, _) => true
  }

  predicate Deletes(op: Op) { op.Del? || (op.Set? && op.payload == Str("")) }

  /** Whether the operation gets past its argument checks. */
  predicate Accepted(core: Core, op: Op) {
    match op
    case Set(_, payload) => PlainObject(payload) || payload == Str("")
    case Extend(_, payload) => payload.Obj?
    case Del(_) => true
    case Prop(id, _, path, _) => Has(core.docs, id) && path != ""
  }

  /** The `_id` a merged document carries: `savedId || id`. */
  function IdOr(saved: Json, id: string): Json {
    if Truthy(saved) then saved else Str(id)
  }

  /** What an operation makes of its document, before the revision is put back, and whether it reports a change. */
  datatype Turn = Turn(body: Props, changed: bool)

  function SetTurn(docs: Docs, id: string, payload: Props): Turn {
    var incoming := Content(payload);
    var doc := DocOf(docs, id);
    if Has(docs, id) && DeepEqual(Obj(false, Content(doc)), Obj(false, incoming)) then Turn(Stripped(doc), false)
    else Turn(incoming["_id" := Str(id)], true)
  }

  function ExtendTurn(docs: Docs, id: string, payload: Props): Turn {
    var clean := Obj(false, Content(payload));
    var doc := if Has(docs, id) then DocOf(docs, id) else map["_id" := Str(id)];
    Turn(Merged(Content(doc), clean)["_id" := IdOr(Get(doc, "_id"), id)], MergeChanges(Content(doc), clean))
  }

  function PropTurn(doc: Props, id: string, how: PropMethod, parts: seq<string>, val: Json): Turn
    requires parts != []
  {
    var body := Stripped(doc);
    match how
    case SetProp =>
      var t := SetPath(body, parts, val);
      if SetChanges(body, parts, val) then Turn(t["_id" := Str(id)], true) else Turn(t, false)
    case CreateProp =>
      if GetPath(Obj(false, body), parts) != Undefined then Turn(body, false)
      else Turn(SetPath(body, parts, val)["_id" := Str(id)], true)
    case DelProp =>
      if !DelChanges(body, parts) then Turn(body, false)
      else Turn(DelPath(body, parts)["_id" := Str(id)], true)
    case OtherMethod => Turn(body, false)
  }

  function TurnOf(core: Core, op: Op): Turn
    requires Accepted(core, op) && !Deletes(op)
  {
    match op
    case Set(id, payload) => SetTurn(core.docs, id, payload.props)
    case Extend(id, payload) => ExtendTurn(core.docs, id, payload.props)
    case Prop(id, how, path, val) => PropTurn(DocOf(core.docs, id), id, how, Split(path, '.'), val)
  }

  /**
   * A reported change gives the document its next revision, counts in the store's, and goes to the
   * worker; otherwise the document's revision is put back.
   */
  function Finish(core: Core, id: string, turn: Turn, rev: real): Effect {
    if turn.changed then
      var doc := turn.body["_rev" := Num(rev + 1.0)];
      Effect(Core(Put(core.docs, id, doc), core.rev + 1), true, PatchDoc(id, doc))
    else
      Effect(core.(docs := Put(core.docs, id, turn.body["_rev" := Num(rev)])), false, NoPatch)
  }

  function Ignored(core: Core): Effect { Effect(core, false, NoPatch) }

  function DeleteDoc(core: Core, id: string): Effect {
    Effect(Core(Remove(core.docs, id), core.rev + 1), true, PatchDel(id))
  }

  function Apply(core: Core, op: Op): Effect {
    if !Accepted(core, op) then Ignored(core)
    else if Deletes(op) then DeleteDoc(core, op.id)
    else Finish(core, op.id, TurnOf(core, op), RevOf(DocOf(core.docs, op.id)))
  }

  // ---------------------------------------------------------------------------
  // The store's invariant
  // ---------------------------------------------------------------------------

  predicate ValidDoc(id: string, doc: Props) {
    Get(doc, "_rev").Num? && IdOr(Get(doc, "_id"), id) == Get(doc, "_id")
  }

  /** Every document carries a numeric revision and an `_id` that `savedId || id` keeps. */
  ghost predicate ValidDocs(docs: Docs) {
    Ordered(docs) &&
    forall id :: Has(docs, id) ==> ValidDoc(id, DocOf(docs, id))
  }

  /** Every accepted operation but a deletion writes one document, and only that. */
  lemma WritesOneDoc(core: Core, op: Op) returns (doc: Props)
    requires Accepted(core, op) && !Deletes(op)
    ensures Apply(core, op).core.docs == Put(core.docs, op.id, doc)
    ensures doc == DocOf(Apply(core, op).core.docs, op.id)
    ensures Has(Apply(core, op).core.docs, op.id)
    ensures var turn := TurnOf(core, op);
            doc == turn.body["_rev" := Num(RevOf(DocOf(core.docs, op.id)) + (if turn.changed then 1.0 else 0.0))]
  {
    var e := Apply(core, op);
    var turn, rev := TurnOf(core, op), RevOf(DocOf(core.docs, op.id));
    doc := turn.body["_rev" := Num(if turn.changed then rev + 1.0 else rev)];
    LookupPut(core.docs, op.id, doc, op.id);
  }

  lemma OthersUntouched(core: Core, op: Op, j: string)
    requires j != op.id
    ensures Lookup(Apply(core, op).core.docs, j) == Lookup(core.docs, j)
  {
    if Accepted(core, op) {
      if Deletes(op) {
        LookupRemove(core.docs, op.id, j);
      } else {
        var doc := WritesOneDoc(core, op);
        LookupPut(core.docs, op.id, doc, j);
      }
    }
  }

  /**
   * A reported change adds exactly one to the store's revision and to the document's; an unreported
   * one leaves both; the worker gets a patch exactly when a change is reported, and the patch holds
   * the document as it now is.
   */
  lemma OneRevisionPerChange(core: Core, op: Op)
    requires ValidDocs(core.docs)
    ensures var e := Apply(core, op);
            && e.core.rev == core.rev + (if e.reported then 1 else 0)
            && (!Deletes(op) ==>
                  RevOf(DocOf(e.core.docs, op.id)) == RevOf(DocOf(core.docs, op.id))
                      + (if e.reported then 1.0 else 0.0))
            && e.patch == (if !e.reported then NoPatch
                           else if Deletes(op) then PatchDel(op.id)
                           else PatchDoc(op.id, DocOf(e.core.docs, op.id)))
  {
    if Accepted(core, op) && !Deletes(op) {
      var doc := WritesOneDoc(core, op);
    }
  }

  lemma ApplyValid(core: Core, op: Op)
    requires ValidDocs(core.docs)
    ensures ValidDocs(Apply(core, op).core.docs)
  {
    var docs := Apply(core, op).core.docs;
    if Accepted(core, op) {
      if Deletes(op) {
        RemoveOrdered(core.docs, op.id);
        LookupRemove(core.docs, op.id, op.id);
      } else {
        var doc := WritesOneDoc(core, op);
        PutOrdered(core.docs, op.id, doc);
        if op.Prop? && !Apply(core, op).reported {
          QuietPropKeepsId(core, op);
        }
      }
    }
    forall j | Has(docs, j) ensures ValidDoc(j, DocOf(docs, j)) {
      if j != op.id {
        OthersUntouched(core, op, j);
      }
    }
  }

  /** A property write that reports nothing leaves `_id` alone or replaces it by an empty object. */
  lemma QuietPropKeepsId(core: Core, op: Op)
    requires op.Prop? && Accepted(core, op) && !Apply(core, op).reported && ValidDocs(core.docs)
    ensures ValidDoc(op.id, DocOf(Apply(core, op).core.docs, op.id))
  {
    hide Split, Put, Ordered;
    var doc := WritesOneDoc(core, op);
    var body, parts := Stripped(DocOf(core.docs, op.id)), Split(op.path, '.');
    LookupPut(core.docs, op.id, doc, op.id);
    if op.how.SetProp? {
      SetPathElsewhere(body, parts, op.val);
    }
  }

  /** setProp touches only the first step of its path; a longer path leaves an object there. */
  lemma SetPathElsewhere(props: Props, path: seq<string>, val: Json)
    requires path != []
    ensures forall k :: k != path[0] ==> Get(SetPath(props, path, val), k) == Get(props, k)
    ensures forall k :: k != path[0] ==> (k in SetPath(props, path, val) <==> k in props)
    ensures |path| > 1 ==> Get(SetPath(props, path, val), path[0]).Obj?
    ensures |path| == 1 && !SetChanges(props, path, val) ==> SetPath(props, path, val) == props
  {
  }

  // ---------------------------------------------------------------------------
  // When a document keeps its own id
  // ---------------------------------------------------------------------------

  predicate Identified(docs: Docs, id: string) { Has(docs, id) ==> Get(DocOf(docs, id), "_id") == Str(id) }

  /** A property set of an undefined value somewhere below `_id`. */
  predicate SetsBelowId(op: Op) {
    op.Prop? && op.how.SetProp? && op.val == Undefined
    && var parts := Split(op.path, '.'); |parts| > 1 && parts[0] == "_id"
  }

  /** setProp below a text replaces it by an object, and reports a change exactly for a defined value. */
  lemma SetBelowText(body: Props, parts: seq<string>, val: Json)
    requires |parts| > 1 && Get(body, parts[0]).Str?
    ensures Get(SetPath(body, parts, val), parts[0]).Obj?
    ensures SetChanges(body, parts, val) <==> val != Undefined
  {
    FreshChanges(parts[1..], val);
  }

  lemma {:induction false} FreshChanges(path: seq<string>, val: Json)
    requires path != []
    ensures SetChanges(map[], path, val) <==> val != Undefined
  {
    if |path| > 1 {
      FreshChanges(path[1..], val);
    }
  }

  lemma PropIdentity(core: Core, op: Op)
    requires op.Prop? && Accepted(core, op) && Identified(core.docs, op.id)
    ensures var turn := TurnOf(core, op); Get(turn.body, "_id") == Str(op.id) <==> !SetsBelowId(op)
  {
    hide Split, PathExists, Lookup, Has;
    var body, parts := Stripped(DocOf(core.docs, op.id)), Split(op.path, '.');
    if op.how.SetProp? {
      SetPathElsewhere(body, parts, op.val);
      if parts[0] == "_id" && |parts| > 1 {
        SetBelowText(body, parts, op.val);
      }
    }
  }

  /**
   * A document that carries its own id carries it after any call, and one that is created does,
   * exactly unless the call sets an undefined value below `_id`: that leaves an object in its place.
   */
  lemma IdentityKeptExactly(core: Core, op: Op, id: string)
    requires Identified(core.docs, id)
    ensures var docs := Apply(core, op).core.docs;
            Has(docs, id) ==> (Identified(docs, id) <==> !(op.id == id && SetsBelowId(op)))
  {
    hide Split, Lookup, Has, SetPath, SetChanges, Merged, MergeChanges, DeepEqual;
    if op.id != id {
      OthersUntouched(core, op, id);
      SameDoc(core.docs, Apply(core, op).core.docs, id);
    } else if Accepted(core, op) {
      if Deletes(op) {
        LookupRemove(core.docs, id, id);
      } else {
        var doc := WritesOneDoc(core, op);
        if op.Prop? {
          PropIdentity(core, op);
        }
      }
    } else if op.Prop? {
      assert Has(core.docs, id) ==> op.path == "" && !SetsBelowId(op) by {
        NothingToSplit();
      }
    }
  }

  lemma NothingToSplit()
    ensures Split("", '.') == [""]
  {
  }

  lemma SameDoc(docs: Docs, later: Docs, id: string)
    requires Lookup(later, id) == Lookup(docs, id)
    ensures (Has(later, id) <==> Has(docs, id)) && DocOf(later, id) == DocOf(docs, id)
  {
    assert Lookup(later, id).Some? <==> Has(later, id);
    assert Lookup(docs, id).Some? <==> Has(docs, id);
  }

  /** Over every run without such a call each document carries its own id. */
  lemma {:induction false} IdentityOverEveryRun(core: Core, ops: seq<Op>, id: string)
    requires Identified(core.docs, id) && forall i :: 0 <= i < |ops| ==> !(ops[i].id == id && SetsBelowId(ops[i]))
    ensures Identified(Run(core, ops).docs, id)
    decreases ops
  {
    if ops != [] {
      IdentityKeptExactly(core, ops[0], id);
      IdentityOverEveryRun(Apply(core, ops[0]).core, ops[1..], id);
    }
    hide Apply, SetsBelowId;
  }

  /** Setting `_id.x` to undefined replaces a document's id by an empty object, unreported. */
  lemma IdLost(id: string)
    ensures var core := Core([Entry(id, map["_id" := Str(id), "_rev" := Num(0.0)])], 0);
            var e := Apply(core, Prop(id, SetProp, "_id.x", Undefined));
            !e.reported && e.patch == NoPatch && !Identified(e.core.docs, id)
  {
    var doc: Props := map["_id" := Str(id), "_rev" := Num(0.0)];
    var core := Core([Entry(id, doc)], 0);
    var op := Prop(id, SetProp, "_id.x", Undefined);
    assert core.docs[0].key == id && Lookup(core.docs, id) == Some(doc);
    SplitBelowId();
    SetBelowText(Stripped(doc), ["_id", "x"], Undefined);
    var written := WritesOneDoc(core, op);
    IdentityKeptExactly(core, op, id);
    hide Split, SetPath, SetChanges, Put, Lookup;
  }

  lemma SplitBelowId()
    ensures Split("_id.x", '.') == ["_id", "x"]
  {
    assert Join(["_id", "x"], '.') == "_id" + "." + "x" == "_id.x";
    SplitJoin(["_id", "x"], '.');
  }

  // ---------------------------------------------------------------------------
  // When a call that reports nothing still wrote something
  // ---------------------------------------------------------------------------

  /**
   * Two calls write without saying so: extending a missing document by a partial that changes
   * nothing creates it, and setting an undefined value along a path with missing objects creates
   * those objects.
   */
  predicate SilentWrite(core: Core, op: Op) {
    match op
    case Extend(id, payload) => payload.Obj? && !Has(core.docs, id)
    case Prop(id, how, path, _) =>
      Has(core.docs, id) && path != "" && how.SetProp? &&
      Split(path, '.')[0] != "_rev" && !PathExists(Stripped(DocOf(core.docs, id)), Split(path, '.'))
    case _ => false
  }

  /** An unreported property call leaves its document as it was, unless it is a silent one. */
  lemma QuietProp(core: Core, op: Op, was: Props, doc: Props)
    requires ValidDocs(core.docs) && op.Prop? && Accepted(core, op) && !Apply(core, op).reported
    requires Has(core.docs, op.id) && was == DocOf(core.docs, op.id)
    requires doc == TurnOf(core, op).body["_rev" := Num(RevOf(was))]
    ensures doc != was <==> SilentWrite(core, op)
  {
    hide Ordered, Split;
    var body, parts := Stripped(was), Split(op.path, '.');
    assert body["_rev" := Num(RevOf(was))] == was;
    if op.how.SetProp? {
      SilentSetExactly(body, parts, op.val);
      SetPathElsewhere(body, parts, op.val);
      if parts[0] != "_rev" && SetPath(body, parts, op.val) != body {
        assert Stripped(doc) == SetPath(body, parts, op.val);
      }
    }
  }

  /** An unreported operation leaves the documents exactly as they were, unless it is one of those. */
  lemma SilentExactly(core: Core, op: Op)
    requires ValidDocs(core.docs) && !Apply(core, op).reported
    ensures Apply(core, op).core.docs != core.docs <==> SilentWrite(core, op)
  {
    if Accepted(core, op) {
      var doc := WritesOneDoc(core, op);
      var was := DocOf(core.docs, op.id);
      if Has(core.docs, op.id) {
        var rev := RevOf(was);
        assert Stripped(was)["_rev" := Num(rev)] == was;
        match op {
          case Set(_, _) => assert doc == was;
          case Extend(_, payload) =>
            var clean := Obj(false, Content(payload.props));
            QuietMerge(Content(was), clean);
            assert doc == was;
          case Prop(_, how, path, val) => QuietProp(core, op, was, doc);
        }
        if doc == was {
          PutSame(core.docs, op.id, was);
        }
      } else {
        assert Has(Apply(core, op).core.docs, op.id);
      }
    }
  }

  /** An empty partial creates a document unreported. */
  lemma SilentExtend(id: string)
    ensures var core := Core([], 0);
            var e := Apply(core, Extend(id, Obj(false, map[])));
            !e.reported && e.patch == NoPatch && e.core.docs != core.docs
  {
    SilentExactly(Core([], 0), Extend(id, Obj(false, map[])));
  }

  /** Setting `x.y` to undefined creates `x` unreported. */
  lemma SilentProp(id: string)
    ensures var core := Core([Entry(id, map["_id" := Str(id), "_rev" := Num(0.0)])], 0);
            var e := Apply(core, Prop(id, SetProp, "x.y", Undefined));
            !e.reported && e.patch == NoPatch && e.core.docs != core.docs
  {
    var doc: Props := map["_id" := Str(id), "_rev" := Num(0.0)];
    var core := Core([Entry(id, doc)], 0);
    var op := Prop(id, SetProp, "x.y", Undefined);
    assert "x.y"[1..] == ".y" && ".y"[1..] == "y" && "y"[1..] == "";
    assert Split("y", '.') == ["y"];
    assert Split(".y", '.') == ["", "y"];
    assert Split("x.y", '.') == ["x", "y"] by {
      assert ["", "y"][1..] == ["y"] && ['x'] + "" == "x";
    }
    assert ["x", "y"][1..] == ["y"];
    assert core.docs[0].key == id && Lookup(core.docs, id) == Some(doc);
    assert !PathExists(Stripped(doc), ["x", "y"]);
    assert !SetChanges(Stripped(doc), ["x", "y"], Undefined);
    SilentExactly(core, op);
  }

  /** deepExtend that reports no change writes nothing. */
  lemma {:induction false} QuietMerge(target: Props, source: Json)
    requires source.Obj? && !MergeChanges(target, source)
    ensures Merged(target, source) == target
    decreases source
  {
    forall k | k in source.props ensures MergeValue(Get(target, k), source.props[k]) == Get(target, k) {
      var sv, tv := source.props[k], Get(target, k);
      assert !ValueChanges(tv, sv);
      if PlainObject(sv) && PlainObject(tv) {
        QuietMerge(tv.props, sv);
      }
    }
  }

  /**
   * What `set` promises: afterwards the document's content is the payload's (up to deepEqual),
   * a change is reported exactly when it was not before, and the same call again is a no-op.
   */
  lemma SetTakesContent(core: Core, id: string, payload: Json)
    requires ValidDocs(core.docs) && PlainObject(payload)
    ensures var e := Apply(core, Set(id, payload));
            var want := Obj(false, Content(payload.props));
            && DeepEqual(Obj(false, Content(DocOf(e.core.docs, id))), want)
            && (e.reported <==> !(Has(core.docs, id) && DeepEqual(Obj(false, Content(DocOf(core.docs, id))), want)))
            && Apply(e.core, Set(id, payload)) == Ignored(e.core)
  {
    var op := Set(id, payload);
    var e := Apply(core, op);
    var want := Obj(false, Content(payload.props));
    var doc := WritesOneDoc(core, op);
    DeepEqualReflexive(want);
    assert Content(doc) == if e.reported then want.props else Content(DocOf(core.docs, id));
    ApplyValid(core, op);
    assert !Apply(e.core, op).reported;
    SilentExactly(e.core, op);
  }

  /** What `extend` promises: the content extended by the partial, nothing else, reported iff it differs. */
  lemma ExtendMergesContent(core: Core, id: string, payload: Json)
    requires ValidDocs(core.docs) && payload.Obj?
    ensures var e := Apply(core, Op.Extend(id, payload));
            var was, now := Content(DocOf(core.docs, id)), Content(DocOf(e.core.docs, id));
            && Extends(was, Obj(false, Content(payload.props)), now)
            && (e.reported <==> !DeepEqual(Obj(false, was), Obj(false, now)))
  {
    hide Extends, Merged, MergeChanges, DeepEqual, Ordered, Put;
    var op := Op.Extend(id, payload);
    var doc := WritesOneDoc(core, op);
    var clean := Obj(false, Content(payload.props));
    var was := Content(DocOf(core.docs, id));
    assert Content(map["_id" := Str(id)]) == map[];
    MergedExtends(was, clean);
    ChangeIffDifferent(was, clean);
    assert Content(doc) == Merged(was, clean);
  }

  // ---------------------------------------------------------------------------
  // Whole runs
  // ---------------------------------------------------------------------------

  function Run(core: Core, ops: seq<Op>): Core
    decreases ops
  {
    if ops == [] then core else Run(Apply(core, ops[0]).core, ops[1..])
  }

  /** How many operations of the run reported a change. */
  function Reports(core: Core, ops: seq<Op>): nat
    decreases ops
  {
    if ops == [] then 0
    else (if Apply(core, ops[0]).reported then 1 else 0) + Reports(Apply(core, ops[0]).core, ops[1..])
  }

  /** How many changes of `id` the run reported since `id` was last deleted; `before` counts those before the run. */
  function ChangesOf(core: Core, ops: seq<Op>, id: string, before: nat): nat
    decreases ops
  {
    if ops == [] then before
    else
      var e := Apply(core, ops[0]);
      ChangesOf(e.core, ops[1..], id,
        if ops[0].id != id || !e.reported then before
        else if Deletes(ops[0]) then 0
        else before + 1)
  }

  lemma {:induction false} RevisionsCountChanges(core: Core, ops: seq<Op>, id: string, before: nat)
    requires ValidDocs(core.docs)
    requires RevOf(DocOf(core.docs, id)) == before as real - 1.0
    ensures ValidDocs(Run(core, ops).docs)
    ensures Run(core, ops).rev == core.rev + Reports(core, ops)
    ensures RevOf(DocOf(Run(core, ops).docs, id)) == ChangesOf(core, ops, id, before) as real - 1.0
    decreases ops
  {
    if ops != [] {
      var op := ops[0];
      var e := Apply(core, op);
      ApplyValid(core, op);
      OneRevisionPerChange(core, op);
      if op.id != id {
        OthersUntouched(core, op, id);
      } else if Deletes(op) {
        LookupRemove(core.docs, id, id);
      }
      var now := if op.id != id || !e.reported then before else if Deletes(op) then 0 else before + 1;
      RevisionsCountChanges(e.core, ops[1..], id, now);
    }
  }

  /**
   * Over every run from an empty store: the store's revision is the number of reported changes, and
   * a document's `_rev` is the number of changes reported for it since it was created, less one.
   */
  lemma RevisionsOverEveryRun(ops: seq<Op>, id: string)
    ensures var end := Run(Core([], 0), ops);
            && end.rev == Reports(Core([], 0), ops)
            && (Has(end.docs, id) ==>
                  Get(DocOf(end.docs, id), "_rev") == Num(ChangesOf(Core([], 0), ops, id, 0) as real - 1.0))
  {
    RevisionsCountChanges(Core([], 0), ops, id, 0);
  }

  // ---------------------------------------------------------------------------
  // The store itself
  // ---------------------------------------------------------------------------

  class DocumentStore {
    var docs: Docs
    var rev: int
    /** What was posted to the worker, oldest first. */
    var sent: seq<Patch>

    ghost function Model(): Core
      reads this
    {
      Core(docs, rev)
    }

    constructor ()
      ensures Model() == Core([], 0) && sent == []
    {
      docs, rev, sent := [], 0, [];
    }

    method GetRev(id: string) returns (r: real)
      modifies this`docs
      ensures r == RevOf(DocOf(old(docs), id))
      ensures docs == if Has(old(docs), id) then Put(old(docs), id, Stripped(DocOf(old(docs), id))) else old(docs)
    {
      r := -1.0;
      if Has(docs, id) {
        var doc := Lookup(docs, id).value;
        r := RevOf(doc);
        docs := Put(docs, id, doc - {"_rev"});
      }
    }

    /** `_setRev`, and with `rev + 1` `_incRev`: the document at `id` takes the revision. */
    method SetRev(id: string, r: real)
      requires Has(docs, id)
      modifies this`docs
      ensures docs == Put(old(docs), id, DocOf(old(docs), id)["_rev" := Num(r)])
    {
      docs := Put(docs, id, Lookup(docs, id).value["_rev" := Num(r)]);
    }

    /** The tail every reported change shares. */
    method Commit(id: string, body: Props, r: real)
      modifies this
      ensures var e := Finish(Core(old(docs), old(rev)), id, Turn(body, true), r);
              Model() == e.core && sent == old(sent) + [e.patch]
    {
      docs := Put(docs, id, body);
      LookupPut(old(docs), id, body, id);
      PutPut(old(docs), id, body, body["_rev" := Num(r + 1.0)]);
      SetRev(id, r + 1.0);
      rev := rev + 1;
      LookupPut(old(docs), id, body["_rev" := Num(r + 1.0)], id);
      sent := sent + [PatchDoc(id, Lookup(docs, id).value)];
    }

    /** The tail of a call that changed nothing: the document is stored with the revision it had. */
    method Restore(id: string, body: Props, r: real)
      modifies this`docs
      ensures docs == Put(old(docs), id, body["_rev" := Num(r)])
    {
      docs := Put(docs, id, body);
      LookupPut(old(docs), id, body, id);
      PutPut(old(docs), id, body, body["_rev" := Num(r)]);
      SetRev(id, r);
    }

    method Delete(id: string)
      modifies this
      ensures Model() == DeleteDoc(old(Model()), id).core
      ensures sent == old(sent) + [PatchDel(id)]
    {
      docs := Remove(docs, id);
      rev := rev + 1;
      sent := sent + [PatchDel(id)];
    }

    method Set(id: string, payload: Json) returns (changed: bool)
      modifies this
      ensures var e := Apply(old(Model()), Op.Set(id, payload));
              Model() == e.core && changed == e.reported &&
              sent == old(sent) + (if e.reported then [e.patch] else [])
    {
      if payload == Str("") {
        Delete(id);
        return true;
      }
      if !PlainObject(payload) {
        return false;
      }
      var incoming := payload.props - {"_rev", "_id"};
      var existed, was := Has(docs, id), DocOf(docs, id);
      var r := GetRev(id);
      if existed {
        LookupPut(old(docs), id, Stripped(was), id);
        assert Content(Stripped(was)) == Content(was);
      }
      if !existed || !DeepEqual(Obj(false, Content(DocOf(docs, id))), Obj(false, incoming)) {
        if existed {
          PutPut(old(docs), id, Stripped(was), incoming["_id" := Str(id)]["_rev" := Num(r + 1.0)]);
        }
        Commit(id, incoming["_id" := Str(id)], r);
        return true;
      }
      PutPut(old(docs), id, Stripped(was), Stripped(was)["_rev" := Num(r)]);
      SetRev(id, r);
      return false;
    }

    method Extend(id: string, payload: Json) returns (changed: bool)
      modifies this
      ensures var e := Apply(old(Model()), Op.Extend(id, payload));
              Model() == e.core && changed == e.reported &&
              sent == old(sent) + (if e.reported then [e.patch] else [])
    {
      hide DeepEqual, Merged, MergeChanges, Put, Lookup, Has;
      if !payload.Obj? {
        return false;
      }
      var clean := Obj(false, payload.props - {"_id", "_rev"});
      assert clean.props == Content(payload.props);
      ghost var core := Model();
      ghost var turn := ExtendTurn(docs, id, payload.props);
      ghost var base := if Has(docs, id) then Stripped(DocOf(docs, id)) else map["_id" := Str(id)];
      var r := GetRev(id);
      if !Has(docs, id) {
        docs := Put(docs, id, map["_id" := Str(id)]);
      }
      LookupPut(old(docs), id, base, id);
      assert docs == Put(old(docs), id, base);
      var doc := Lookup(docs, id).value;
      var savedId := Get(doc, "_id");
      assert doc - {"_id"} == Content(if Has(old(docs), id) then DocOf(old(docs), id) else map["_id" := Str(id)]);
      var merged, more := DeepExtend(doc - {"_id"}, clean);
      var body := merged["_id" := if Truthy(savedId) then savedId else Str(id)];
      assert turn == Turn(body, more);
      if more {
        PutPut(old(docs), id, base, body["_rev" := Num(r + 1.0)]);
        Commit(id, body, r);
        return true;
      }
      PutPut(old(docs), id, base, body["_rev" := Num(r)]);
      Restore(id, body, r);
      return false;
    }

    method Prop(id: string, how: PropMethod, path: string, val: Json) returns (changed: bool)
      modifies this
      ensures var e := Apply(old(Model()), Op.Prop(id, how, path, val));
              Model() == e.core && changed == e.reported &&
              sent == old(sent) + (if e.reported then [e.patch] else [])
    {
      if !Has(docs, id) || path == "" {
        return false;
      }
      ghost var was := DocOf(docs, id);
      var r := GetRev(id);
      LookupPut(old(docs), id, Stripped(was), id);
      var body, parts := Lookup(docs, id).value, Split(path, '.');
      changed := false;
      match how {
        case SetProp =>
          changed := SetChanges(body, parts, val);
          body := SetPath(body, parts, val);
        case CreateProp =>
          if GetPath(Obj(false, body), parts) == Undefined {
            body := SetPath(body, parts, val);
            changed := true;
          }
        case DelProp =>
          changed := DelChanges(body, parts);
          body := if changed then DelPath(body, parts) else body;
        case OtherMethod =>
      }
      if changed {
        body := body["_id" := Str(id)];
        PutPut(old(docs), id, Stripped(was), body["_rev" := Num(r + 1.0)]);
        Commit(id, body, r);
      } else {
        PutPut(old(docs), id, Stripped(was), body["_rev" := Num(r)]);
        Restore(id, body, r);
      }
    }
  }
}
