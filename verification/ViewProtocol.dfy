// The sheDB main thread and its view worker as one system (src/lib/shedb-core.js with
// src/lib/shedb-worker.js): document and query calls, two FIFO channels, queue steps, and the
// worker's death, exit event and respawn, interleaved in any order.

module ViewProtocol {
  import opened Text
  import opened Json
  import opened Tables
  import opened Documents
  import opened ViewWorker

  // ---------------------------------------------------------------------------
  // The main thread's views
  // ---------------------------------------------------------------------------

  datatype View = View(rev: int, items: Option<seq<Json>>, length: Option<nat>, error: Option<string>)

  type Views = map<string, View>

  /** deepEqual of two result arrays. */
  predicate SameItems(a: seq<Json>, b: seq<Json>) {
    |a| == |b| && forall i :: 0 <= i < |a| ==> DeepEqual(a[i], b[i])
  }

  lemma SameItemsReflexive(a: seq<Json>)
    ensures SameItems(a, a)
  {
    forall i | 0 <= i < |a| ensures DeepEqual(a[i], a[i]) {
      DeepEqualReflexive(a[i]);
    }
  }

  /** The worker-message handler: a deletion is ignored, an equal result keeps the view as it is. */
  function Receive(views: Views, r: Reply): Views {
    match r
    case DeletedReply(_) => views
    case ViewReply(id, outcome) =>
      var prev := if id in views then views[id] else View(-1, None, None, None);
      match outcome
      case Error(m) => views[id := View(prev.rev, None, None, Some(m))]
      case Result(items) =>
        if prev.items.Some? && SameItems(items, prev.items.value) then views
        else views[id := View(prev.rev + 1, Some(items), Some(|items|), None)]
  }

  /** A view holds either a result with its length or an error. */
  ghost predicate ValidViews(views: Views) {
    forall id :: id in views && views[id].items.Some? ==>
      views[id].error.None? && views[id].length == Some(|views[id].items.value|)
  }

  /** The view shows the outcome: the error, or a result deepEqual to it, with its length. */
  predicate Shows(view: View, outcome: Outcome) {
    match outcome
    case Error(m) => view.error == Some(m) && view.items.None?
    case Result(items) =>
      view.items.Some? && SameItems(items, view.items.value) && view.error.None? && view.length == Some(|items|)
  }

  lemma ReceiveShows(views: Views, id: string, outcome: Outcome)
    requires ValidViews(views)
    ensures var after := Receive(views, ViewReply(id, outcome));
            id in after && Shows(after[id], outcome) && ValidViews(after)
  {
    if outcome.Result? {
      SameItemsReflexive(outcome.items);
    }
  }

  // ---------------------------------------------------------------------------
  // The system
  // ---------------------------------------------------------------------------

  /**
   * Up: the worker runs. Dead: it died but the exit event has not reached the main thread, whose
   * posts go nowhere. Down: exit handled, the respawn timer is running.
   */
  datatype Link = Up | Dead | Down

  datatype System = System(core: Core, queries: Table<Query>, views: Views, link: Link,
                           toWorker: seq<Message>, worker: Worker, toMain: seq<Reply>)

  datatype Action =
    | Write(op: Op)                        // set, extend, del or prop
    | Define(id: string, query: Query)     // query(id, definition)
    | Drop(id: string)                     // query(id, '')
    | DeliverMessage                       // the worker takes its next message
    | RunScheduled                         // the worker's setImmediate callback
    | DeliverReply                         // the main thread takes its next reply
    | Die(delivered: nat)                  // the worker dies; so many of its replies still arrive
    | Exit                                 // the exit event
    | Respawn                              // the restart timer

  /** `postMessage`: only a running worker ever sees it. */
  function Post(s: System, ms: seq<Message>): System {
    if s.link == Up then s.(toWorker := s.toWorker + ms) else s
  }

  function PatchMessages(p: Patch): seq<Message> {
    match p
    case NoPatch => []
    case PatchDoc(id, doc) => [PatchMsg(id, doc)]
    case PatchDel(id) => [DelMsg(id)]
  }

  function QueryMessages(queries: Table<Query>): seq<Message> {
    if queries == [] then [] else [QueryMsg(queries[0].key, queries[0].value)] + QueryMessages(queries[1..])
  }

  /** `_sendInitialState` to a fresh worker. */
  function InitialState(docs: Docs, queries: Table<Query>): seq<Message> {
    [Init(docs)] + QueryMessages(queries)
  }

  /**
   * What may happen next. A write that changes a document without reporting it sends no patch;
   * such calls (SilentWrite) are outside the protocol's promise.
   */
  predicate Enabled(s: System, a: Action) {
    match a
    case Write(op) => Apply(s.core, op).reported || !SilentWrite(s.core, op)
    case DeliverMessage => s.link == Up && s.toWorker != []
    case RunScheduled => s.link == Up && s.worker.scheduled.Some?
    case DeliverReply => s.toMain != []
    case Die(n) => s.link == Up && n <= |s.toMain|
    case Exit => s.link == Dead
    case Respawn => s.link == Down
    case _ => true
  }

  function Next(s: System, a: Action): System
    requires Enabled(s, a)
  {
    match a
    case Write(op) =>
      var e := Apply(s.core, op);
      Post(s.(core := e.core), PatchMessages(e.patch))
    case Define(id, q) => Post(s.(queries := Put(s.queries, id, q)), [QueryMsg(id, q)])
    case Drop(id) =>
      Post(s.(queries := Remove(s.queries, id), views := s.views - {id}), [DelQueryMsg(id)])
    case DeliverMessage =>
      s.(toWorker := s.toWorker[1..], worker := Deliver(s.worker, s.toWorker[0]),
         toMain := s.toMain + DeliverReplies(s.toWorker[0]))
    case RunScheduled => s.(worker := RunStep(s.worker), toMain := s.toMain + RunReplies(s.worker))
    case DeliverReply => s.(views := Receive(s.views, s.toMain[0]), toMain := s.toMain[1..])
    case Die(n) => s.(link := Dead, toWorker := [], worker := FRESH, toMain := s.toMain[..n])
    case Exit => s.(link := Down, toMain := [])
    case Respawn => s.(link := Up, worker := FRESH, toWorker := InitialState(s.core.docs, s.queries))
  }

  ghost predicate Possible(s: System, actions: seq<Action>)
    decreases actions
  {
    actions == [] || (Enabled(s, actions[0]) && Possible(Next(s, actions[0]), actions[1..]))
  }

  function After(s: System, actions: seq<Action>): System
    requires Possible(s, actions)
    decreases actions
  {
    if actions == [] then s else After(Next(s, actions[0]), actions[1..])
  }

  /** Start-up with whatever was loaded from disk: the worker is spawned and sent the whole state. */
  ghost predicate Started(s: System) {
    ValidDocs(s.core.docs) && Ordered(s.queries) && ValidViews(s.views) &&
    s.link == Up && s.worker == FRESH && s.toMain == [] &&
    s.toWorker == InitialState(s.core.docs, s.queries)
  }

  // ---------------------------------------------------------------------------
  // The invariant
  // ---------------------------------------------------------------------------

  /** The worker once it has taken every message in flight. */
  function Drained(w: Worker, ms: seq<Message>): Worker
    decreases ms
  {
    if ms == [] then w else Drained(Deliver(w, ms[0]), ms[1..])
  }

  /** The views once every reply in flight has arrived. */
  function Received(views: Views, rs: seq<Reply>): Views
    decreases rs
  {
    if rs == [] then views else Received(Receive(views, rs[0]), rs[1..])
  }

  /** The live view `id` as the main thread's documents and definition have it. */
  function FromScratch(s: System, id: string): Outcome
    requires Has(s.queries, id)
  {
    Evaluate(Lookup(s.queries, id).value, s.core.docs)
  }

  /**
   * With all messages taken, the worker mirrors documents and definitions, and each live view is
   * pending there, or will show its value once all replies are in.
   */
  ghost predicate Mirrored(s: System) {
    var w, v := Drained(s.worker, s.toWorker), Received(s.views, s.toMain);
    w.docs == s.core.docs &&
    (forall id :: Lookup(w.queries, id) == Lookup(s.queries, id)) &&
    (forall id :: Has(s.queries, id) ==> Pending(w, id) || (id in v && Shows(v[id], FromScratch(s, id))))
  }

  /** The queue holds registered views only. */
  predicate QueueLive(w: Worker) {
    forall x :: x in w.queue ==> Has(w.queries, x)
  }

  ghost predicate Inv(s: System) {
    ValidDocs(s.core.docs) && Ordered(s.queries) && ValidViews(s.views) &&
    ValidWorker(s.worker) && QueueLive(s.worker) &&
    (s.link == Up ==> Mirrored(s))
  }

  // ----- folding over the channels -----

  lemma {:induction false} DrainedAppend(w: Worker, ms: seq<Message>, more: seq<Message>)
    ensures Drained(w, ms + more) == Drained(Drained(w, ms), more)
    decreases ms
  {
    if ms == [] {
      assert ms + more == more;
    } else {
      assert (ms + more)[1..] == ms[1..] + more;
      DrainedAppend(Deliver(w, ms[0]), ms[1..], more);
    }
  }

  lemma {:induction false} DrainedValid(w: Worker, ms: seq<Message>)
    requires ValidWorker(w)
    ensures ValidWorker(Drained(w, ms))
    ensures w.scheduled.Some? ==> Drained(w, ms).scheduled == w.scheduled
    decreases ms
  {
    if ms != [] {
      DeliverValid(w, ms[0]);
      DrainedValid(Deliver(w, ms[0]), ms[1..]);
    }
  }

  lemma {:induction false} ReceivedAppend(views: Views, rs: seq<Reply>, more: seq<Reply>)
    ensures Received(views, rs + more) == Received(Received(views, rs), more)
    decreases rs
  {
    if rs == [] {
      assert rs + more == more;
    } else {
      assert (rs + more)[1..] == rs[1..] + more;
      ReceivedAppend(Receive(views, rs[0]), rs[1..], more);
    }
  }

  lemma {:induction false} ReceivedValid(views: Views, rs: seq<Reply>)
    requires ValidViews(views)
    ensures ValidViews(Received(views, rs))
    decreases rs
  {
    if rs != [] {
      if rs[0].ViewReply? {
        ReceiveShows(views, rs[0].id, rs[0].outcome);
      }
      ReceivedValid(Receive(views, rs[0]), rs[1..]);
    }
  }

  /** The same views, but for `x`. */
  ghost predicate AgreeOff(v0: Views, v1: Views, x: string) {
    forall id :: id != x ==> (id in v0 <==> id in v1) && (id in v0 && id in v1 ==> v0[id] == v1[id])
  }

  lemma ReceiveAgreeOff(v0: Views, v1: Views, r: Reply, x: string)
    requires AgreeOff(v0, v1, x)
    ensures AgreeOff(Receive(v0, r), Receive(v1, r), x)
  {
  }

  /** Replies touch only the view they name, so views that agree elsewhere keep agreeing there. */
  lemma {:induction false} ReceivedAgreeOff(v0: Views, v1: Views, rs: seq<Reply>, x: string)
    requires AgreeOff(v0, v1, x)
    ensures AgreeOff(Received(v0, rs), Received(v1, rs), x)
    decreases rs
  {
    if rs != [] {
      ReceiveAgreeOff(v0, v1, rs[0], x);
      ReceivedAgreeOff(Receive(v0, rs[0]), Receive(v1, rs[0]), rs[1..], x);
    }
  }

  /** Along any messages: a view that ends up registered and not pending was not touched by them. */
  lemma {:induction false} DrainUntouched(w: Worker, ms: seq<Message>, id: string)
    requires ValidWorker(w)
    requires Has(Drained(w, ms).queries, id) && !Pending(Drained(w, ms), id)
    ensures Lookup(w.queries, id) == Lookup(Drained(w, ms).queries, id)
    ensures Has(w.queries, id) && !Pending(w, id)
    ensures Evaluate(Lookup(w.queries, id).value, w.docs) ==
            Evaluate(Lookup(w.queries, id).value, Drained(w, ms).docs)
    decreases ms
  {
    if ms != [] {
      DeliverValid(w, ms[0]);
      DrainUntouched(Deliver(w, ms[0]), ms[1..], id);
      UntouchedUnlessPending(w, ms[0], id);
    }
  }

  /** Two workers that differ only in their queues, `w` having run one step further than `v`. */
  ghost predicate RunAhead(v: Worker, w: Worker) {
    v.docs == w.docs && v.queries == w.queries && v.scheduled.Some? &&
    ValidWorker(v) && ValidWorker(w) &&
    forall id :: id in v.queue ==> Pending(w, id)
  }

  lemma RunAheadEnqueue(v: Worker, w: Worker, ids: seq<string>)
    requires RunAhead(v, w)
    ensures RunAhead(EnqueueAll(v, ids), EnqueueAll(w, ids))
    ensures EnqueueAll(v, ids).scheduled == v.scheduled
  {
    EnqueueAllEffect(v, ids);
    EnqueueAllEffect(w, ids);
    var ev := EnqueueAll(v, ids);
    QueueOnlyGrows(v, ids);
  }

  lemma {:induction false} QueueOnlyGrows(v: Worker, ids: seq<string>)
    requires v.scheduled.Some? && ValidWorker(v)
    ensures forall x :: x in EnqueueAll(v, ids).queue <==> x in v.queue || x in ids
    decreases ids
  {
    if ids != [] {
      EnqueueEffect(v, ids[0]);
      QueueOnlyGrows(Enqueued(v, ids[0]), ids[1..]);
    }
  }

  lemma {:induction false} RunAheadDrained(v: Worker, w: Worker, ms: seq<Message>)
    requires RunAhead(v, w)
    ensures RunAhead(Drained(v, ms), Drained(w, ms))
    ensures Drained(v, ms).scheduled == v.scheduled
    decreases ms
  {
    if ms != [] {
      DeliverValid(v, ms[0]);
      DeliverValid(w, ms[0]);
      match ms[0] {
        case Init(docs) => RunAheadEnqueue(v.(docs := docs), w.(docs := docs), Keys(w.queries));
        case PatchMsg(id, doc) =>
          RunAheadEnqueue(v.(docs := Put(v.docs, id, doc)), w.(docs := Put(w.docs, id, doc)),
              RelevantIds(w.queries, id));
        case DelMsg(id) =>
          RunAheadEnqueue(v.(docs := Remove(v.docs, id)), w.(docs := Remove(w.docs, id)), RelevantIds(w.queries, id));
        case QueryMsg(id, q) =>
          EnqueueEffect(w.(queries := Put(w.queries, id, q)), id);
        case DelQueryMsg(id) =>
      }
      RunAheadDrained(Deliver(v, ms[0]), Deliver(w, ms[0]), ms[1..]);
    }
  }

  // ----- the start -----

  lemma HasFirst<V>(t: Table<V>)
    requires t != []
    ensures forall id :: Has(t, id) <==> id == t[0].key || Has(t[1..], id)
  {
    forall id ensures Has(t, id) <==> id == t[0].key || Has(t[1..], id) {
      if Has(t, id) {
        var i :| 0 <= i < |t| && t[i].key == id;
        assert i > 0 ==> t[1..][i - 1].key == id;
      }
      if Has(t[1..], id) {
        var i :| 0 <= i < |t[1..]| && t[1..][i].key == id;
        assert t[i + 1].key == id;
      }
    }
  }

  lemma {:induction false} DrainedQueries(w: Worker, queries: Table<Query>)
    requires ValidWorker(w) && Ordered(queries)
    ensures var e := Drained(w, QueryMessages(queries));
            && e.docs == w.docs
            && (forall id :: Pending(w, id) || Has(queries, id) ==> Pending(e, id))
            && (forall id ::
                  Lookup(e.queries, id) == if Has(queries, id) then Lookup(queries, id) else Lookup(w.queries, id))
    decreases queries
  {
    if queries != [] {
      var m := QueryMsg(queries[0].key, queries[0].value);
      var w1 := Deliver(w, m);
      EnqueueEffect(w.(queries := Put(w.queries, m.id, m.query)), m.id);
      DrainedQueries(w1, queries[1..]);
      assert QueryMessages(queries)[1..] == QueryMessages(queries[1..]);
      HasFirst(queries);
      assert !Has(queries[1..], queries[0].key);
      forall id { LookupPut(w.queries, m.id, m.query, id); }
    }
  }

  /** A worker fresh from (re)spawn that is sent the whole state mirrors it, with every view pending. */
  lemma FreshMirrors(s: System)
    requires s.link == Up && s.worker == FRESH && Ordered(s.queries)
    requires s.toWorker == InitialState(s.core.docs, s.queries)
    ensures Mirrored(s)
  {
    var w := Deliver(FRESH, Init(s.core.docs));
    assert s.toWorker[1..] == QueryMessages(s.queries);
    DrainedQueries(w, s.queries);
    assert forall id :: !Has(s.queries, id) ==> Lookup(s.queries, id).None?;
  }

  // ----- one step -----

  /**
   * A main-thread call that posts `ms`, and may have dropped the view `x`: if the worker's mirror
   * follows, what stays registered and unscheduled there is still current.
   */
  lemma PostMirrors(s: System, t: System, ms: seq<Message>, x: string)
    requires Inv(s) && s.link == Up
    requires t == s.(core := t.core, queries := t.queries, views := t.views, toWorker := s.toWorker + ms)
    requires var w := Drained(Drained(s.worker, s.toWorker), ms);
             w.docs == t.core.docs && forall id :: Lookup(w.queries, id) == Lookup(t.queries, id)
    requires t.views == s.views || (t.views == s.views - {x} && !Has(t.queries, x))
    ensures Mirrored(t)
  {
    var w := Drained(s.worker, s.toWorker);
    DrainedAppend(s.worker, s.toWorker, ms);
    DrainedValid(s.worker, s.toWorker);
    var e := Drained(w, ms);
    ReceivedAgreeOff(s.views, t.views, s.toMain, x);
    forall id | Has(t.queries, id) && !Pending(e, id)
      ensures id in Received(t.views, t.toMain) && Shows(Received(t.views, t.toMain)[id], FromScratch(t, id))
    {
      assert Lookup(t.queries, id).Some?;
      assert Has(e.queries, id);
      DrainUntouched(w, ms, id);
      assert Lookup(s.queries, id).Some?;
    }
  }

  lemma DrainedOne(w: Worker, m: Message)
    ensures Drained(w, [m]) == Deliver(w, m)
  {
  }

  lemma DeliverMirror(w: Worker, m: Message)
    requires ValidWorker(w)
    ensures Deliver(w, m).docs ==
            match m case Init(docs) => docs
                    case PatchMsg(id, doc) => Put(w.docs, id, doc)
                    case DelMsg(id) => Remove(w.docs, id)
                    case _ => w.docs
    ensures Deliver(w, m).queries ==
            match m case QueryMsg(id, q) => Put(w.queries, id, q)
                    case DelQueryMsg(id) => Remove(w.queries, id)
                    case _ => w.queries
  {
    match m {
      case Init(docs) => EnqueueAllEffect(w.(docs := docs), Keys(w.queries));
      case PatchMsg(id, doc) => EnqueueAllEffect(w.(docs := Put(w.docs, id, doc)), RelevantIds(w.queries, id));
      case DelMsg(id) => EnqueueAllEffect(w.(docs := Remove(w.docs, id)), RelevantIds(w.queries, id));
      case QueryMsg(id, q) =>
      case DelQueryMsg(id) =>
    }
  }

  lemma KeysRegistered(queries: Table<Query>, id: string)
    ensures id in Keys(queries) ==> Has(queries, id)
  {
  }

  lemma {:induction false} RelevantRegistered(queries: Table<Query>, docId: string, id: string)
    ensures id in RelevantIds(queries, docId) ==> Has(queries, id)
  {
    if queries != [] {
      RelevantRegistered(queries[1..], docId, id);
      if Has(queries[1..], id) {
        var i :| 0 <= i < |queries[1..]| && queries[1..][i].key == id;
        assert queries[i + 1].key == id;
      }
    }
  }

  lemma {:induction false} QueueFrom(w: Worker, ids: seq<string>)
    requires ValidWorker(w)
    ensures forall x :: x in EnqueueAll(w, ids).queue ==> x in w.queue || x in ids
    decreases ids
  {
    if ids != [] {
      EnqueueEffect(w, ids[0]);
      QueueFrom(Enqueued(w, ids[0]), ids[1..]);
    }
  }

  lemma DeliverLive(w: Worker, m: Message)
    requires ValidWorker(w) && QueueLive(w)
    ensures QueueLive(Deliver(w, m))
  {
    DeliverMirror(w, m);
    match m {
      case Init(docs) =>
        QueueFrom(w.(docs := docs), Keys(w.queries));
        forall x { KeysRegistered(w.queries, x); }
      case PatchMsg(d, doc) =>
        QueueFrom(w.(docs := Put(w.docs, d, doc)), RelevantIds(w.queries, d));
        forall x { RelevantRegistered(w.queries, d, x); }
      case DelMsg(d) =>
        QueueFrom(w.(docs := Remove(w.docs, d)), RelevantIds(w.queries, d));
        forall x { RelevantRegistered(w.queries, d, x); }
      case QueryMsg(d, q) =>
        forall x | x in Deliver(w, m).queue ensures Has(Deliver(w, m).queries, x) {
          LookupPut(w.queries, d, q, x);
          assert Lookup(Put(w.queries, d, q), x).Some?;
        }
      case DelQueryMsg(d) =>
        forall x | x in Deliver(w, m).queue ensures Has(Deliver(w, m).queries, x) {
          LookupRemove(w.queries, d, x);
          assert Lookup(Remove(w.queries, d), x).Some?;
        }
    }
  }

  lemma WriteStep(s: System, op: Op)
    requires Inv(s) && Enabled(s, Write(op))
    ensures Inv(Next(s, Write(op)))
  {
    var e := Apply(s.core, op);
    var t := Next(s, Write(op));
    ApplyValid(s.core, op);
    OneRevisionPerChange(s.core, op);
    if s.link == Up {
      var w := Drained(s.worker, s.toWorker);
      var ms := PatchMessages(e.patch);
      DrainedValid(s.worker, s.toWorker);
      if !e.reported {
        SilentExactly(s.core, op);
        assert Drained(w, []) == w;
      } else {
        DrainedOne(w, ms[0]);
        DeliverMirror(w, ms[0]);
        if !Deletes(op) {
          var doc := WritesOneDoc(s.core, op);
        }
      }
      PostMirrors(s, t, ms, "");
    }
  }

  lemma DefineStep(s: System, id: string, q: Query)
    requires Inv(s)
    ensures Inv(Next(s, Define(id, q)))
  {
    var t := Next(s, Define(id, q));
    PutOrdered(s.queries, id, q);
    if s.link == Up {
      var w := Drained(s.worker, s.toWorker);
      DrainedValid(s.worker, s.toWorker);
      DrainedOne(w, QueryMsg(id, q));
      DeliverMirror(w, QueryMsg(id, q));
      forall j ensures Lookup(Put(w.queries, id, q), j) == Lookup(Put(s.queries, id, q), j) {
        LookupPut(w.queries, id, q, j);
        LookupPut(s.queries, id, q, j);
      }
      PostMirrors(s, t, [QueryMsg(id, q)], "");
    }
  }

  lemma DropStep(s: System, id: string)
    requires Inv(s)
    ensures Inv(Next(s, Drop(id)))
  {
    var t := Next(s, Drop(id));
    RemoveOrdered(s.queries, id);
    LookupRemove(s.queries, id, id);
    assert !Has(t.queries, id) by { assert Lookup(t.queries, id).None?; }
    if s.link == Up {
      var w := Drained(s.worker, s.toWorker);
      DrainedValid(s.worker, s.toWorker);
      DrainedOne(w, DelQueryMsg(id));
      DeliverMirror(w, DelQueryMsg(id));
      forall j ensures Lookup(Remove(w.queries, id), j) == Lookup(Remove(s.queries, id), j) {
        LookupRemove(w.queries, id, j);
        LookupRemove(s.queries, id, j);
      }
      PostMirrors(s, t, [DelQueryMsg(id)], id);
    }
  }

  lemma DeliverMessageStep(s: System)
    requires Inv(s) && Enabled(s, DeliverMessage)
    ensures Inv(Next(s, DeliverMessage))
  {
    var m := s.toWorker[0];
    DeliverValid(s.worker, m);
    DeliverLive(s.worker, m);
    ReceivedAppend(s.views, s.toMain, DeliverReplies(m));
    ReceivedDeleted(Received(s.views, s.toMain), m);
  }

  lemma ReceivedDeleted(views: Views, m: Message)
    ensures Received(views, DeliverReplies(m)) == views
  {
  }

  lemma RunScheduledStep(s: System)
    requires Inv(s) && Enabled(s, RunScheduled)
    ensures Inv(Next(s, RunScheduled))
  {
    var t := Next(s, RunScheduled);
    var x := s.worker.scheduled.value;
    var rs := RunReplies(s.worker);
    var v, w := Drained(s.worker, s.toWorker), Drained(t.worker, s.toWorker);
    RunAheadDrained(s.worker, t.worker, s.toWorker);
    ReceivedAppend(s.views, s.toMain, rs);
    var before := Received(s.views, s.toMain);
    var after := Received(t.views, t.toMain);
    ReceivedValid(s.views, s.toMain);
    DrainedValid(t.worker, s.toWorker);
    if rs != [] {
      assert rs[1..] == [];
      assert after == Receive(before, rs[0]);
      ReceiveShows(before, rs[0].id, rs[0].outcome);
    }
    forall id | Has(t.queries, id) && !Pending(w, id)
      ensures id in after && Shows(after[id], FromScratch(t, id))
    {
      assert Lookup(t.queries, id).Some?;
      if id == x {
        DrainUntouched(t.worker, s.toWorker, id);
        assert Lookup(s.worker.queries, id) == Lookup(t.queries, id);
        assert rs == [ViewReply(id, FromScratch(t, id))];
      } else {
        assert !Pending(v, id);
      }
    }
  }

  lemma DeliverReplyStep(s: System)
    requires Inv(s) && Enabled(s, DeliverReply)
    ensures Inv(Next(s, DeliverReply))
  {
  }

  lemma RespawnStep(s: System)
    requires Inv(s) && Enabled(s, Respawn)
    ensures Inv(Next(s, Respawn))
  {
    FreshMirrors(Next(s, Respawn));
  }

  /** Every step keeps the invariant. */
  lemma StepKeepsInv(s: System, a: Action)
    requires Inv(s) && Enabled(s, a)
    ensures Inv(Next(s, a))
  {
    match a {
      case Write(op) => WriteStep(s, op);
      case Define(id, q) => DefineStep(s, id, q);
      case Drop(id) => DropStep(s, id);
      case DeliverMessage => DeliverMessageStep(s);
      case RunScheduled => RunScheduledStep(s);
      case DeliverReply => DeliverReplyStep(s);
      case Respawn => RespawnStep(s);
      case Die(_) =>
      case Exit =>
    }
  }

  lemma {:induction false} RunKeepsInv(s: System, actions: seq<Action>)
    requires Inv(s) && Possible(s, actions)
    ensures Inv(After(s, actions))
    decreases actions
  {
    if actions != [] {
      StepKeepsInv(s, actions[0]);
      RunKeepsInv(Next(s, actions[0]), actions[1..]);
    }
  }

  // ---------------------------------------------------------------------------
  // Main results
  // ---------------------------------------------------------------------------

  /** Nothing in flight and nothing left to run. */
  predicate Quiescent(s: System) {
    s.link == Up && s.toWorker == [] && s.toMain == [] && s.worker.scheduled.None?
  }

  /** Every live view shows what filter, map and reduce give over the main thread's documents. */
  ghost predicate Converged(s: System) {
    forall id :: Has(s.queries, id) ==> id in s.views && Shows(s.views[id], FromScratch(s, id))
  }

  /**
   * Whatever calls were made and however deliveries, runs, deaths and respawns interleaved: once
   * the system is quiescent, every live view is the view computed from scratch.
   */
  lemma ConvergesOverEveryRun(s: System, actions: seq<Action>)
    requires Started(s) && Possible(s, actions)
    requires Quiescent(After(s, actions))
    ensures Converged(After(s, actions))
  {
    FreshMirrors(s);
    RunKeepsInv(s, actions);
    var t := After(s, actions);
    assert Drained(t.worker, t.toWorker) == t.worker;
    assert Received(t.views, t.toMain) == t.views;
  }

  /** The message that will make the worker run the view again, once it is delivered. */
  ghost predicate WillEnqueue(s: System, k: nat, id: string)
    requires k < |s.toWorker|
  {
    !Pending(Drained(s.worker, s.toWorker[..k]), id) &&
    Pending(Deliver(Drained(s.worker, s.toWorker[..k]), s.toWorker[k]), id)
  }

  /** The newest outcome the main thread will have seen of a view. */
  ghost predicate Current(s: System, id: string)
    requires Has(s.queries, id)
  {
    var v := Received(s.views, s.toMain);
    id in v && Shows(v[id], FromScratch(s, id))
  }

  /**
   * At every moment of every run in which the worker is up, a live view is current (counting
   * replies in flight), queued or scheduled, or some message in flight will queue it.
   */
  lemma WhereEachViewStands(s: System, actions: seq<Action>, id: string)
    requires Started(s) && Possible(s, actions)
    requires After(s, actions).link == Up && Has(After(s, actions).queries, id)
    ensures var t := After(s, actions);
            Current(t, id) || Pending(t.worker, id) || exists k :: 0 <= k < |t.toWorker| && WillEnqueue(t, k, id)
  {
    FreshMirrors(s);
    RunKeepsInv(s, actions);
    var t := After(s, actions);
    if !Current(t, id) && !Pending(t.worker, id) {
      assert t.toWorker[..|t.toWorker|] == t.toWorker;
      var k := FirstEnqueue(t, |t.toWorker|, id);
    }
  }

  lemma {:induction false} FirstEnqueue(t: System, n: nat, id: string) returns (k: nat)
    requires n <= |t.toWorker| && !Pending(t.worker, id) && Pending(Drained(t.worker, t.toWorker[..n]), id)
    ensures k < n && WillEnqueue(t, k, id)
    decreases n
  {
    assert t.toWorker[..0] == [];
    assert n > 0;
    var before := Drained(t.worker, t.toWorker[..n - 1]);
    assert t.toWorker[..n] == t.toWorker[..n - 1] + [t.toWorker[n - 1]];
    DrainedAppend(t.worker, t.toWorker[..n - 1], [t.toWorker[n - 1]]);
    DrainedOne(before, t.toWorker[n - 1]);
    if Pending(before, id) {
      k := FirstEnqueue(t, n - 1, id);
    } else {
      k := n - 1;
    }
  }

  // ---------------------------------------------------------------------------
  // Quiescence is reached
  // ---------------------------------------------------------------------------

  /** The steps the system takes by itself while the worker lives. */
  predicate Internal(a: Action) { a.DeliverMessage? || a.RunScheduled? || a.DeliverReply? }

  function PendingCount(w: Worker): nat { |w.queue| + if w.scheduled.Some? then 1 else 0 }

  function Registrations(ms: seq<Message>): nat {
    if ms == [] then 0 else (if ms[0].QueryMsg? then 1 else 0) + Registrations(ms[1..])
  }

  /** How many views the worker can come to know from the messages in flight. */
  function ViewBound(s: System): nat { |s.worker.queries| + Registrations(s.toWorker) }

  /**
   * A bound on the steps the system still takes by itself: a reply is delivered, a pending view
   * runs and replies, a message is taken, may reply, and may make every known view pending.
   */
  function Work(s: System): nat {
    |s.toMain| + 2 * PendingCount(s.worker) + 2 * |s.toWorker| * (1 + ViewBound(s))
  }

  lemma {:induction false} EnqueueAllCount(w: Worker, ids: seq<string>)
    ensures PendingCount(EnqueueAll(w, ids)) <= PendingCount(w) + |ids|
    ensures EnqueueAll(w, ids).queries == w.queries
    decreases ids
  {
    if ids != [] {
      EnqueueAllCount(Enqueued(w, ids[0]), ids[1..]);
    }
  }

  lemma {:induction false} RelevantIdsCount(queries: Table<Query>, docId: string)
    ensures |RelevantIds(queries, docId)| <= |queries|
  {
    if queries != [] {
      RelevantIdsCount(queries[1..], docId);
    }
  }

  lemma {:induction false} PutCount<V>(t: Table<V>, k: string, v: V)
    ensures 1 <= |Put(t, k, v)| <= |t| + 1
  {
    if t != [] {
      PutCount(t[1..], k, v);
    }
  }

  lemma {:induction false} RemoveCount<V>(t: Table<V>, k: string)
    ensures |Remove(t, k)| <= |t|
  {
    if t != [] {
      RemoveCount(t[1..], k);
    }
  }

  /** A message makes no more views pending than there are, and a registration adds one at most. */
  lemma DeliverCount(w: Worker, m: Message)
    ensures PendingCount(Deliver(w, m)) <= PendingCount(w) + |Deliver(w, m).queries|
    ensures |Deliver(w, m).queries| <= |w.queries| + Registrations([m])
  {
    match m {
      case Init(docs) => EnqueueAllCount(w.(docs := docs), Keys(w.queries));
      case PatchMsg(id, doc) =>
        EnqueueAllCount(w.(docs := Put(w.docs, id, doc)), RelevantIds(w.queries, id));
        RelevantIdsCount(w.queries, id);
      case DelMsg(id) =>
        EnqueueAllCount(w.(docs := Remove(w.docs, id)), RelevantIds(w.queries, id));
        RelevantIdsCount(w.queries, id);
      case QueryMsg(id, q) => PutCount(w.queries, id, q);
      case DelQueryMsg(id) => RemoveCount(w.queries, id);
    }
  }

  /** Every internal step takes some of the work. */
  lemma InternalStepWorks(s: System, a: Action)
    requires Internal(a) && Enabled(s, a)
    ensures Work(Next(s, a)) < Work(s)
  {
    if a.DeliverMessage? {
      var m := s.toWorker[0];
      var t := Next(s, a);
      DeliverCount(s.worker, m);
      assert [m][1..] == [];
      assert ViewBound(t) <= ViewBound(s);
      Scaled(|t.toWorker|, ViewBound(t), ViewBound(s));
      assert PendingCount(t.worker) <= PendingCount(s.worker) + ViewBound(s);
      hide Deliver, PendingCount, Registrations;
    }
  }

  lemma Scaled(n: nat, small: nat, large: nat)
    requires small <= large
    ensures 2 * n * (1 + small) <= 2 * n * (1 + large)
    ensures 2 * (n + 1) * (1 + large) == 2 * n * (1 + large) + 2 + 2 * large
  {
  }

  predicate AllInternal(actions: seq<Action>) { forall i :: 0 <= i < |actions| ==> Internal(actions[i]) }

  /**
   * Left to itself a running system settles, whatever order its deliveries and runs take: no
   * schedule is longer than its work, one can go on exactly until the system is quiescent, and then
   * every live view is as from scratch.
   */
  lemma {:induction false} SettlesUnderEverySchedule(s: System, actions: seq<Action>)
    requires Inv(s) && s.link == Up && AllInternal(actions) && Possible(s, actions)
    ensures var t := After(s, actions);
            && |actions| + Work(t) <= Work(s)
            && (Quiescent(t) <==> forall a :: Internal(a) ==> !Enabled(t, a))
            && (Quiescent(t) ==> Converged(t))
    decreases actions
  {
    if actions == [] {
      if Quiescent(s) {
        assert Drained(s.worker, s.toWorker) == s.worker && Received(s.views, s.toMain) == s.views;
      } else {
        assert Enabled(s, DeliverMessage) || Enabled(s, RunScheduled) || Enabled(s, DeliverReply);
      }
    } else {
      StepKeepsInv(s, actions[0]);
      InternalStepWorks(s, actions[0]);
      SettlesUnderEverySchedule(Next(s, actions[0]), actions[1..]);
    }
    hide Inv, Converged, Work, Shows, Mirrored;
  }

  /** And some schedule there is. */
  lemma {:induction false} SettlesByItself(s: System) returns (actions: seq<Action>)
    requires Inv(s) && s.link == Up
    ensures AllInternal(actions) && Possible(s, actions) && Quiescent(After(s, actions))
    decreases Work(s)
  {
    if Quiescent(s) {
      actions := [];
    } else {
      var a := if s.toWorker != [] then DeliverMessage else if s.worker.scheduled.Some? then RunScheduled
          else DeliverReply;
      StepKeepsInv(s, a);
      InternalStepWorks(s, a);
      var rest := SettlesByItself(Next(s, a));
      actions := [a] + rest;
      assert actions[1..] == rest;
    }
    hide Inv, Work;
  }

  // ---------------------------------------------------------------------------
  // Outside the promise: writes nobody reports
  // ---------------------------------------------------------------------------

  predicate SameOutcome(a: Outcome, b: Outcome) {
    (a.Error? && b.Error? && a.message == b.message) || (a.Result? && b.Result? && SameItems(a.items, b.items))
  }

  lemma ShowsBoth(view: View, a: Outcome, b: Outcome)
    requires Shows(view, a)
    ensures Shows(view, b) <==> SameOutcome(a, b)
  {
    if a.Result? && b.Result? && |a.items| == |b.items| {
      forall i | 0 <= i < |a.items|
        ensures DeepEqual(b.items[i], view.items.value[i]) <==> DeepEqual(a.items[i], b.items[i])
      {
        var x, y, z := a.items[i], view.items.value[i], b.items[i];
        DeepEqualSymmetric(y, z);
        DeepEqualSymmetric(x, y);
        if DeepEqual(z, y) {
          DeepEqualTransitive(x, y, z);
        }
        if DeepEqual(x, z) {
          DeepEqualTransitive(y, x, z);
        }
      }
    }
  }

  /** Deliveries and runs do not look at the main thread's documents. */
  lemma {:induction false} CoreUnread(s: System, core: Core, actions: seq<Action>)
    requires AllInternal(actions) && Possible(s, actions)
    ensures Possible(s.(core := core), actions)
    ensures After(s.(core := core), actions) == After(s, actions).(core := core)
    ensures After(s, actions).core == s.core && After(s, actions).queries == s.queries
    decreases actions
  {
    if actions != [] {
      assert Next(s.(core := core), actions[0]) == Next(s, actions[0]).(core := core);
      CoreUnread(Next(s, actions[0]), core, actions[1..]);
    }
  }

  /**
   * A silent write while the worker is up: once the system has settled again, its views are right
   * exactly if the write makes no difference to any live view.
   */
  lemma SilentWriteUnseen(s: System, op: Op, actions: seq<Action>)
    requires Inv(s) && s.link == Up && !Apply(s.core, op).reported
    requires AllInternal(actions) && Possible(s, actions) && Quiescent(After(s, actions))
    ensures var t := s.(core := Apply(s.core, op).core);
            && Possible(t, actions) && Quiescent(After(t, actions))
            && (Converged(After(t, actions)) <==>
                forall id :: Has(s.queries, id) ==> SameOutcome(FromScratch(s, id), FromScratch(t, id)))
  {
    var t := s.(core := Apply(s.core, op).core);
    CoreUnread(s, t.core, actions);
    SettlesUnderEverySchedule(s, actions);
    var settled, later := After(s, actions), After(t, actions);
    forall id | Has(s.queries, id)
      ensures (id in later.views && Shows(later.views[id], FromScratch(later, id))) <==>
              SameOutcome(FromScratch(s, id), FromScratch(t, id))
    {
      assert FromScratch(settled, id) == FromScratch(s, id) && FromScratch(later, id) == FromScratch(t, id);
      ShowsBoth(settled.views[id], FromScratch(s, id), FromScratch(t, id));
    }
    hide After, Possible, Inv, Shows, SameOutcome, FromScratch;
  }

  /** A view of all documents that emits one item for each. */
  const COUNTING := Query(None, doc => Emits([Null]), None)

  /** No document, the view settled on no items: an empty extend creates a document, and the view stays empty. */
  lemma SilentWriteMissed(view: string, id: string)
    ensures var worker := Worker([], [Entry(view, COUNTING)], [], None);
            var s := System(Core([], 0), worker.queries, map[view := View(0, Some([]), Some(0), None)], Up, [], worker,
                []);
            var e := Apply(s.core, Extend(id, Obj(false, map[])));
            && Inv(s) && Quiescent(s) && Converged(s) && !e.reported
            && Quiescent(s.(core := e.core)) && !Converged(s.(core := e.core))
  {
    var queries := [Entry(view, COUNTING)];
    var worker := Worker([], queries, [], None);
    var s := System(Core([], 0), queries, map[view := View(0, Some([]), Some(0), None)], Up, [], worker, []);
    var op := Extend(id, Obj(false, map[]));
    var t := s.(core := Apply(s.core, op).core);
    assert queries[0].key == view && Lookup(queries, view) == Some(COUNTING);
    assert FromScratch(s, view) == Result([]);
    assert Inv(s) by {
      assert Drained(worker, []) == worker && Received(s.views, []) == s.views;
      assert forall v :: Has(queries, v) ==> v == view;
    }
    var doc := WritesOneDoc(s.core, op);
    assert t.core.docs == [Entry(id, doc)] && t.core.docs[1..] == [];
    assert FromScratch(t, view) == Result([Null] + []);
    assert After(s, []) == s && Possible(s, []);
    SilentExtend(id);
    SilentWriteUnseen(s, op, []);
    SettlesUnderEverySchedule(s, []);
    hide Apply, FromScratch, Inv, Converged;
    assert !SameOutcome(FromScratch(s, view), FromScratch(t, view));
  }

  // ---------------------------------------------------------------------------
  // Outside the promise: a deleted view that comes back
  // ---------------------------------------------------------------------------

  /** The worker may run `id` now, or after taking some more of the messages in flight. */
  ghost predicate MayRun(w: Worker, ms: seq<Message>, id: string)
    decreases ms
  {
    (Has(w.queries, id) && Pending(w, id)) || (ms != [] && MayRun(Deliver(w, ms[0]), ms[1..], id))
  }

  predicate Carries(rs: seq<Reply>, id: string) {
    exists i :: 0 <= i < |rs| && rs[i].ViewReply? && rs[i].id == id
  }

  /** A result of `id` is on its way to the main thread, or can still be computed. */
  ghost predicate Echo(s: System, id: string) {
    Carries(s.toMain, id) || (s.link == Up && MayRun(s.worker, s.toWorker, id))
  }

  predicate NoDefine(actions: seq<Action>, id: string) {
    forall i :: 0 <= i < |actions| ==> !(actions[i].Define? && actions[i].id == id)
  }

  /** One message either makes the view runnable, or leaves an idle view idle. */
  lemma DeliverIdle(w: Worker, v: Worker, m: Message, id: string)
    requires ValidWorker(w) && ValidWorker(v) && w.docs == v.docs && w.queries == v.queries
    requires !Pending(v, id)
    requires !(Has(Deliver(w, m).queries, id) && Pending(Deliver(w, m), id))
    ensures Deliver(v, m).docs == Deliver(w, m).docs && Deliver(v, m).queries == Deliver(w, m).queries
    ensures !Pending(Deliver(v, m), id)
  {
    DeliverMirror(w, m);
    DeliverMirror(v, m);
    match m {
      case Init(docs) =>
        EnqueueAllEffect(w.(docs := docs), Keys(w.queries));
        EnqueueAllEffect(v.(docs := docs), Keys(w.queries));
        KeysRegistered(w.queries, id);
      case PatchMsg(d, doc) =>
        EnqueueAllEffect(w.(docs := Put(w.docs, d, doc)), RelevantIds(w.queries, d));
        EnqueueAllEffect(v.(docs := Put(w.docs, d, doc)), RelevantIds(w.queries, d));
        RelevantRegistered(w.queries, d, id);
      case DelMsg(d) =>
        EnqueueAllEffect(w.(docs := Remove(w.docs, d)), RelevantIds(w.queries, d));
        EnqueueAllEffect(v.(docs := Remove(w.docs, d)), RelevantIds(w.queries, d));
        RelevantRegistered(w.queries, d, id);
      case QueryMsg(d, q) =>
        EnqueueEffect(w.(queries := Put(w.queries, d, q)), d);
        EnqueueEffect(v.(queries := Put(w.queries, d, q)), d);
        LookupPut(w.queries, d, q, d);
        assert Has(Put(w.queries, d, q), d) by { assert Lookup(Put(w.queries, d, q), d).Some?; }
      case DelQueryMsg(d) =>
    }
  }

  /** An idle view that no message in flight makes runnable stays so when the worker moves on. */
  lemma {:induction false} MayRunIdle(w: Worker, v: Worker, ms: seq<Message>, id: string)
    requires ValidWorker(w) && ValidWorker(v) && w.docs == v.docs && w.queries == v.queries
    requires !MayRun(w, ms, id) && !Pending(v, id)
    ensures !MayRun(v, ms, id)
    decreases ms
  {
    if ms != [] {
      assert !MayRun(Deliver(w, ms[0]), ms[1..], id);
      DeliverIdle(w, v, ms[0], id);
      DeliverValid(w, ms[0]);
      DeliverValid(v, ms[0]);
      MayRunIdle(Deliver(w, ms[0]), Deliver(v, ms[0]), ms[1..], id);
    }
  }

  /** Posting a message that does not register the view cannot make it runnable. */
  lemma {:induction false} MayRunPost(w: Worker, ms: seq<Message>, more: seq<Message>, id: string)
    requires ValidWorker(w) && !MayRun(w, ms, id) && !Has(Drained(w, ms).queries, id)
    requires forall i :: 0 <= i < |more| ==> !(more[i].QueryMsg? && more[i].id == id)
    ensures !MayRun(w, ms + more, id)
    decreases |ms| + |more|
  {
    if ms == [] {
      assert ms + more == more;
      if more != [] {
        DeliverValid(w, more[0]);
        DeliverMirror(w, more[0]);
        assert !Has(Deliver(w, more[0]).queries, id) by {
          assert Lookup(w.queries, id).None?;
          if more[0].QueryMsg? {
            LookupPut(w.queries, more[0].id, more[0].query, id);
          } else if more[0].DelQueryMsg? {
            LookupRemove(w.queries, more[0].id, id);
          }
          assert Lookup(Deliver(w, more[0]).queries, id).None?;
        }
        assert Drained(Deliver(w, more[0]), []) == Deliver(w, more[0]);
        MayRunPost(Deliver(w, more[0]), [], more[1..], id);
        assert [] + more[1..] == more[1..];
      }
    } else {
      assert (ms + more)[1..] == ms[1..] + more;
      DeliverValid(w, ms[0]);
      MayRunPost(Deliver(w, ms[0]), ms[1..], more, id);
    }
  }

  /** A system that holds no trace of a view: not defined, not shown, no echo. */
  ghost predicate Forgotten(s: System, id: string) {
    Inv(s) && !Has(s.queries, id) && id !in s.views && !Echo(s, id)
  }

  lemma ForgottenPost(s: System, a: Action, id: string)
    requires Forgotten(s, id) && (a.Write? || a.Define? || a.Drop?) && Enabled(s, a) && NoDefine([a], id)
    ensures Forgotten(Next(s, a), id)
  {
    StepKeepsInv(s, a);
    var t := Next(s, a);
    assert NoDefine([a], id) ==> !([a][0].Define? && [a][0].id == id);
    assert !Has(t.queries, id) by {
      assert Lookup(s.queries, id).None?;
      if a.Define? {
        LookupPut(s.queries, a.id, a.query, id);
      } else if a.Drop? {
        LookupRemove(s.queries, a.id, id);
      }
      assert Lookup(t.queries, id).None?;
    }
    if s.link == Up {
      assert Lookup(Drained(s.worker, s.toWorker).queries, id).None?;
      var more: seq<Message> :| t.toWorker == s.toWorker + more &&
        (forall i :: 0 <= i < |more| ==> !(more[i].QueryMsg? && more[i].id == id));
      MayRunPost(s.worker, s.toWorker, more, id);
    }
  }

  lemma {:induction false} MayRunQueries(w: Worker, queries: Table<Query>, id: string)
    requires ValidWorker(w) && !Has(w.queries, id) && !Has(queries, id)
    ensures !MayRun(w, QueryMessages(queries), id)
    decreases queries
  {
    if queries != [] {
      var m := QueryMsg(queries[0].key, queries[0].value);
      assert QueryMessages(queries)[1..] == QueryMessages(queries[1..]);
      LookupPut(w.queries, m.id, m.query, id);
      assert Lookup(w.queries, id).None?;
      assert Lookup(Deliver(w, m).queries, id).None?;
      DeliverValid(w, m);
      assert Lookup(queries, id).None? && Lookup(queries[1..], id).None?;
      MayRunQueries(Deliver(w, m), queries[1..], id);
    }
  }

  lemma ForgottenRun(s: System, id: string)
    requires Forgotten(s, id) && Enabled(s, RunScheduled)
    ensures Forgotten(Next(s, RunScheduled), id)
  {
    StepKeepsInv(s, RunScheduled);
    var t := Next(s, RunScheduled);
    assert !(Has(s.worker.queries, id) && Pending(s.worker, id));
    assert id !in s.worker.queue;
    MayRunIdle(s.worker, t.worker, s.toWorker, id);
    assert !Carries(RunReplies(s.worker), id);
    assert forall i :: 0 <= i < |t.toMain| ==>
      t.toMain[i] == if i < |s.toMain| then s.toMain[i] else RunReplies(s.worker)[i - |s.toMain|];
  }

  lemma ForgottenStep(s: System, a: Action, id: string)
    requires Forgotten(s, id) && Enabled(s, a) && NoDefine([a], id)
    ensures Forgotten(Next(s, a), id)
  {
    var t := Next(s, a);
    match a {
      case Write(_) => ForgottenPost(s, a, id);
      case Define(_, _) => ForgottenPost(s, a, id);
      case Drop(_) => ForgottenPost(s, a, id);
      case RunScheduled => ForgottenRun(s, id);
      case DeliverMessage =>
        StepKeepsInv(s, a);
        var rs := DeliverReplies(s.toWorker[0]);
        assert forall i :: 0 <= i < |t.toMain| ==>
          t.toMain[i] == if i < |s.toMain| then s.toMain[i] else rs[i - |s.toMain|];
      case DeliverReply =>
        StepKeepsInv(s, a);
        assert !(s.toMain[0].ViewReply? && s.toMain[0].id == id);
        assert forall i :: 0 <= i < |t.toMain| ==> t.toMain[i] == s.toMain[i + 1];
      case Respawn =>
        StepKeepsInv(s, a);
        var w := Deliver(FRESH, Init(s.core.docs));
        assert t.toWorker[1..] == QueryMessages(s.queries);
        MayRunQueries(w, s.queries, id);
      case Die(n) => StepKeepsInv(s, a);
      case Exit => StepKeepsInv(s, a);
    }
  }

  lemma {:induction false} ForgottenStays(s: System, actions: seq<Action>, id: string)
    requires Forgotten(s, id) && Possible(s, actions) && NoDefine(actions, id)
    ensures id !in After(s, actions).views
    decreases actions
  {
    if actions != [] {
      assert NoDefine([actions[0]], id);
      ForgottenStep(s, actions[0], id);
      ForgottenStays(Next(s, actions[0]), actions[1..], id);
    }
  }

  /** A reply on its way arrives: deliver up to it. */
  lemma {:induction false} EchoArrives(s: System, id: string) returns (actions: seq<Action>)
    requires Carries(s.toMain, id)
    ensures Possible(s, actions) && NoDefine(actions, id) && id in After(s, actions).views
    decreases |s.toMain|
  {
    var t := Next(s, DeliverReply);
    if s.toMain[0].ViewReply? && s.toMain[0].id == id {
      actions := [DeliverReply];
      assert actions[1..] == [];
      assert id in t.views;
      assert After(t, []) == t;
    } else {
      var i :| 0 <= i < |s.toMain| && s.toMain[i].ViewReply? && s.toMain[i].id == id;
      assert t.toMain[i - 1] == s.toMain[i];
      var rest := EchoArrives(t, id);
      actions := [DeliverReply] + rest;
      assert actions[1..] == rest;
    }
  }

  /** A runnable view runs: let the queue advance to it, then its result arrives. */
  lemma {:induction false} RunnableEchoes(s: System, id: string) returns (actions: seq<Action>)
    requires s.link == Up && ValidWorker(s.worker) && Has(s.worker.queries, id) && Pending(s.worker, id)
    ensures Possible(s, actions) && NoDefine(actions, id) && id in After(s, actions).views
    decreases PendingCount(s.worker)
  {
    var t := Next(s, RunScheduled);
    var rest: seq<Action>;
    if s.worker.scheduled == Some(id) {
      assert Lookup(s.worker.queries, id).Some?;
      assert t.toMain[|s.toMain|] == RunReplies(s.worker)[0];
      rest := EchoArrives(t, id);
    } else {
      rest := RunnableEchoes(t, id);
    }
    actions := [RunScheduled] + rest;
    assert actions[1..] == rest;
  }

  lemma {:induction false} MayRunEchoes(s: System, id: string) returns (actions: seq<Action>)
    requires s.link == Up && ValidWorker(s.worker) && MayRun(s.worker, s.toWorker, id)
    ensures Possible(s, actions) && NoDefine(actions, id) && id in After(s, actions).views
    decreases |s.toWorker|
  {
    if Has(s.worker.queries, id) && Pending(s.worker, id) {
      actions := RunnableEchoes(s, id);
    } else {
      DeliverValid(s.worker, s.toWorker[0]);
      var rest := MayRunEchoes(Next(s, DeliverMessage), id);
      actions := [DeliverMessage] + rest;
      assert actions[1..] == rest;
    }
  }

  /**
   * On every run: a view deleted now can come back without being defined again exactly when one of
   * its results is in flight or the worker can still compute one before it learns of the deletion.
   */
  lemma DeletedViewReturnsExactly(start: System, before: seq<Action>, id: string)
    requires Started(start) && Possible(start, before)
    ensures var s := Next(After(start, before), Drop(id));
            (exists actions :: Possible(s, actions) && NoDefine(actions, id) && id in After(s, actions).views)
            <==> Echo(s, id)
  {
    FreshMirrors(start);
    RunKeepsInv(start, before);
    var was := After(start, before);
    var s := Next(was, Drop(id));
    StepKeepsInv(was, Drop(id));
    LookupRemove(was.queries, id, id);
    assert Lookup(s.queries, id).None?;
    if Echo(s, id) {
      if Carries(s.toMain, id) {
        var actions := EchoArrives(s, id);
      } else {
        var actions := MayRunEchoes(s, id);
      }
    } else {
      forall actions | Possible(s, actions) && NoDefine(actions, id) ensures id !in After(s, actions).views {
        ForgottenStays(s, actions, id);
      }
    }
  }

  /** A view defined and at once deleted comes back. */
  lemma DeletedViewReturns(id: string, q: Query)
    ensures var start := System(Core([], 0), [], map[], Up, InitialState([], []), FRESH, []);
            && Started(start) && Possible(start, [Define(id, q)])
            && var s := Next(After(start, [Define(id, q)]), Drop(id));
               && id !in s.views && !Has(s.queries, id)
               && exists actions :: Possible(s, actions) && NoDefine(actions, id) && id in After(s, actions).views
  {
    var start := System(Core([], 0), [], map[], Up, InitialState([], []), FRESH, []);
    var defined := Next(start, Define(id, q));
    var s := Next(defined, Drop(id));
    assert [Define(id, q)][1..] == [] && After(start, [Define(id, q)]) == defined;
    assert Put([], id, q) == [Entry(id, q)];
    assert s.toWorker == [Init([]), QueryMsg(id, q), DelQueryMsg(id)];
    var w1 := Deliver(FRESH, Init([]));
    var w2 := Deliver(w1, QueryMsg(id, q));
    assert Keys<Query>([]) == [] && w1 == FRESH;
    assert w2.queries == [Entry(id, q)] && w2.queries[0].key == id && w2.scheduled == Some(id);
    var rest := s.toWorker[1..];
    assert MayRun(w2, rest[1..], id) && rest[0] == QueryMsg(id, q);
    assert MayRun(w1, rest, id);
    assert Echo(s, id);
    assert Remove([Entry(id, q)], id) == [];
    DeletedViewReturnsExactly(start, [Define(id, q)], id);
    hide Deliver, MayRun, Echo;
  }

  // ---------------------------------------------------------------------------
  // The main thread's side, as the object that holds it
  // ---------------------------------------------------------------------------

  class ViewRegistry {
    var queries: Table<Query>
    var views: Views
    /** Whether `_worker` is set: cleared by the exit event, set by the respawn. */
    var attached: bool
    /** What was posted to the worker, oldest first. */
    var posted: seq<Message>

    constructor (queries: Table<Query>, views: Views)
      ensures this.queries == queries && this.views == views && attached && posted == []
    {
      this.queries, this.views, attached, posted := queries, views, true, [];
    }

    method PostMessage(m: Message)
      modifies this`posted
      ensures posted == old(posted) + if attached then [m] else []
    {
      if attached {
        posted := posted + [m];
      }
    }

    /** query(id, definition) for a definition that compiles, and query(id, '') for None. */
    method DefineOrDrop(id: string, definition: Option<Query>)
      modifies this
      ensures attached == old(attached)
      ensures definition.Some? ==>
        && queries == Put(old(queries), id, definition.value) && views == old(views)
        && posted == old(posted) + if attached then [QueryMsg(id, definition.value)] else []
      ensures definition.None? ==>
        && queries == Remove(old(queries), id) && views == old(views) - {id}
        && posted == old(posted) + if attached then [DelQueryMsg(id)] else []
    {
      if definition.None? {
        queries := Remove(queries, id);
        views := views - {id};
        PostMessage(DelQueryMsg(id));
        return;
      }
      queries := Put(queries, id, definition.value);
      PostMessage(QueryMsg(id, definition.value));
    }

    method OnWorkerMessage(r: Reply)
      modifies this`views
      ensures views == Receive(old(views), r)
    {
      if r.DeletedReply? {
        return;
      }
      var prev := if r.id in views then views[r.id] else View(-1, None, None, None);
      if r.outcome.Error? {
        views := views[r.id := View(prev.rev, None, None, Some(r.outcome.message))];
        return;
      }
      if prev.items.None? || !SameItems(r.outcome.items, prev.items.value) {
        views := views[r.id := View(prev.rev + 1, Some(r.outcome.items), Some(|r.outcome.items|), None)];
      }
    }

    method SendInitialState(docs: Docs)
      modifies this`posted
      ensures posted == old(posted) + if attached then InitialState(docs, queries) else []
    {
      if !attached {
        return;
      }
      PostMessage(Init(docs));
      assert queries[0..] == queries && queries[|queries|..] == [];
      for i := 0 to |queries|
        invariant posted + QueryMessages(queries[i..]) == old(posted) + InitialState(docs, queries)
      {
        assert queries[i..][1..] == queries[i + 1..];
        PostMessage(QueryMsg(queries[i].key, queries[i].value));
      }
    }
  }
}
