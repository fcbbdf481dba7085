// The view worker (src/lib/shedb-worker.js): a mirror of the documents fed by messages, the
// compiled queries, and the coalescing queue that re-runs the views whose filter matches.

module ViewWorker {
  import opened Text
  import opened Json
  import opened Tables
  import opened Wildcards
  import opened Documents

  // ---------------------------------------------------------------------------
  // Views from scratch
  // ---------------------------------------------------------------------------

  /** What a script call comes to: the items it emitted (or returned), or the exception it threw. */
  datatype ScriptOutcome = Emits(items: seq<Json>) | Throws(message: string)

  /** A compiled view definition: the map script sees one document, the reduce script the emitted items. */
  datatype Query = Query(filter: Option<string>, map_: Props -> ScriptOutcome,
      reduce: Option<seq<Json> -> ScriptOutcome>)

  datatype Outcome = Result(items: seq<Json>) | Error(message: string)

  /** A missing or empty filter lets every document through. */
  predicate Relevant(q: Query, docId: string) {
    q.filter.None? || q.filter.value == "" || Matches(docId, q.filter.value)
  }

  /** The map phase over the documents in key order; the first exception ends it. */
  function MapPhase(q: Query, docs: Docs): ScriptOutcome {
    if docs == [] then Emits([])
    else if !Relevant(q, docs[0].key) then MapPhase(q, docs[1..])
    else
      match q.map_(docs[0].value)
      case Throws(m) => Throws(m)
      case Emits(items) =>
        match MapPhase(q, docs[1..])
        case Throws(m) => Throws(m)
        case Emits(more) => Emits(items + more)
  }

  /** The view computed from scratch over a document table. */
  function Evaluate(q: Query, docs: Docs): Outcome {
    match MapPhase(q, docs)
    case Throws(m) => Error("runtime: " + m)
    case Emits(items) =>
      if q.reduce.None? then Result(items)
      else
        match q.reduce.value(items)
        case Throws(m) => Error("runtime: " + m)
        case Emits(reduced) => Result(reduced)
  }

  /** A document the filter does not let through has no part in the view, wherever its key stands. */
  lemma {:induction false} IrrelevantPut(q: Query, docs: Docs, id: string, doc: Props)
    requires !Relevant(q, id)
    ensures MapPhase(q, Put(docs, id, doc)) == MapPhase(q, docs)
  {
    if docs != [] && docs[0].key != id && !Before(id, docs[0].key) {
      IrrelevantPut(q, docs[1..], id, doc);
      assert ([docs[0]] + Put(docs[1..], id, doc))[1..] == Put(docs[1..], id, doc);
    } else if docs != [] {
      assert ([Entry(id, doc)] + docs)[1..] == docs;
      assert ([Entry(id, doc)] + docs[1..])[1..] == docs[1..];
    }
  }

  lemma {:induction false} IrrelevantRemove(q: Query, docs: Docs, id: string)
    requires !Relevant(q, id)
    ensures MapPhase(q, Remove(docs, id)) == MapPhase(q, docs)
  {
    if docs != [] {
      IrrelevantRemove(q, docs[1..], id);
      assert ([docs[0]] + Remove(docs[1..], id))[1..] == Remove(docs[1..], id);
    }
  }

  // ---------------------------------------------------------------------------
  // The worker's state and its two kinds of step
  // ---------------------------------------------------------------------------

  datatype Message =
    | Init(docs: Docs)
    | PatchMsg(id: string, doc: Props)
    | DelMsg(id: string)
    | QueryMsg(id: string, query: Query)
    | DelQueryMsg(id: string)

  /** What the worker posts back. */
  datatype Reply = ViewReply(id: string, outcome: Outcome) | DeletedReply(id: string)

  /** `scheduled` is the view a pending setImmediate will run; `running` holds exactly while there is one. */
  datatype Worker = Worker(docs: Docs, queries: Table<Query>, queue: seq<string>, scheduled: Option<string>)

  const FRESH := Worker([], [], [], None)

  predicate ValidWorker(w: Worker) {
    (w.scheduled.None? ==> w.queue == []) &&
    forall i, j :: 0 <= i < j < |w.queue| ==> w.queue[i] != w.queue[j]
  }

  /** A view that will run again: queued, or already scheduled. */
  predicate Pending(w: Worker, id: string) {
    id in w.queue || w.scheduled == Some(id)
  }

  /** `queue.delete(id)` */
  function Without(queue: seq<string>, id: string): (r: seq<string>)
    ensures forall x :: x in r <==> x in queue && x != id
    ensures |r| <= |queue|
  {
    if queue == [] then []
    else if queue[0] == id then Without(queue[1..], id)
    else [queue[0]] + Without(queue[1..], id)
  }

  lemma {:induction false} WithoutDistinct(queue: seq<string>, id: string)
    requires forall i, j :: 0 <= i < j < |queue| ==> queue[i] != queue[j]
    ensures forall i, j :: 0 <= i < j < |Without(queue, id)| ==> Without(queue, id)[i] != Without(queue, id)[j]
  {
    if queue != [] {
      WithoutDistinct(queue[1..], id);
      assert queue[0] !in queue[1..];
    }
  }

  function ScheduledNext(w: Worker): Worker {
    if w.queue == [] then w.(scheduled := None)
    else w.(scheduled := Some(w.queue[0]), queue := w.queue[1..])
  }

  function Enqueued(w: Worker, id: string): Worker {
    var added := if id in w.queue then w else w.(queue := w.queue + [id]);
    if w.scheduled.None? then ScheduledNext(added) else added
  }

  function EnqueueAll(w: Worker, ids: seq<string>): Worker
    decreases ids
  {
    if ids == [] then w else EnqueueAll(Enqueued(w, ids[0]), ids[1..])
  }

  function Keys<V>(t: Table<V>): (ids: seq<string>)
    ensures |ids| == |t| && forall i :: 0 <= i < |t| ==> ids[i] == t[i].key
  {
    seq(|t|, i requires 0 <= i < |t| => t[i].key)
  }

  /** The views a change of `docId` touches, in registration order. */
  function RelevantIds(queries: Table<Query>, docId: string): seq<string> {
    if queries == [] then []
    else (if Relevant(queries[0].value, docId) then [queries[0].key] else []) + RelevantIds(queries[1..], docId)
  }

  function Deliver(w: Worker, m: Message): Worker {
    match m
    case Init(docs) => EnqueueAll(w.(docs := docs), Keys(w.queries))
    case PatchMsg(id, doc) => EnqueueAll(w.(docs := Put(w.docs, id, doc)), RelevantIds(w.queries, id))
    case DelMsg(id) => EnqueueAll(w.(docs := Remove(w.docs, id)), RelevantIds(w.queries, id))
    case QueryMsg(id, q) => Enqueued(w.(queries := Put(w.queries, id, q)), id)
    case DelQueryMsg(id) => w.(queries := Remove(w.queries, id), queue := Without(w.queue, id))
  }

  function DeliverReplies(m: Message): seq<Reply> {
    if m.DelQueryMsg? then [DeletedReply(m.id)] else []
  }

  /** The scheduled view runs over the documents as they are now; then the next one is scheduled. */
  function RunStep(w: Worker): Worker
    requires w.scheduled.Some?
  {
    ScheduledNext(w)
  }

  function RunReplies(w: Worker): seq<Reply>
    requires w.scheduled.Some?
  {
    var id := w.scheduled.value;
    match Lookup(w.queries, id)
    case None => []
    case Some(q) => [ViewReply(id, Evaluate(q, w.docs))]
  }

  // ---------------------------------------------------------------------------
  // What the queue guarantees
  // ---------------------------------------------------------------------------

  lemma EnqueueEffect(w: Worker, id: string)
    requires ValidWorker(w)
    ensures var e := Enqueued(w, id);
            && ValidWorker(e) && e.docs == w.docs && e.queries == w.queries && e.scheduled.Some?
            && (w.scheduled.Some? ==> e.scheduled == w.scheduled)
            && forall x :: Pending(e, x) <==> Pending(w, x) || x == id
  {
  }

  lemma {:induction false} EnqueueAllEffect(w: Worker, ids: seq<string>)
    requires ValidWorker(w)
    ensures var e := EnqueueAll(w, ids);
            && ValidWorker(e) && e.docs == w.docs && e.queries == w.queries
            && (w.scheduled.Some? ==> e.scheduled == w.scheduled)
            && forall x :: Pending(e, x) <==> Pending(w, x) || x in ids
    decreases ids
  {
    if ids != [] {
      EnqueueEffect(w, ids[0]);
      EnqueueAllEffect(Enqueued(w, ids[0]), ids[1..]);
      assert forall x :: x in ids <==> x == ids[0] || x in ids[1..];
    }
  }

  lemma {:induction false} RelevantEnqueued(queries: Table<Query>, docId: string, id: string)
    requires Lookup(queries, id).Some? && Relevant(Lookup(queries, id).value, docId)
    ensures id in RelevantIds(queries, docId)
  {
    if queries[0].key != id {
      RelevantEnqueued(queries[1..], docId, id);
    }
  }

  /** The views a changed document enqueues are exactly the registered ones whose filter matches it. */
  lemma {:induction false} RelevantIdsExact(queries: Table<Query>, docId: string, id: string)
    requires forall i, j :: 0 <= i < j < |queries| ==> queries[i].key != queries[j].key
    ensures id in RelevantIds(queries, docId) <==> Has(queries, id) && Relevant(Lookup(queries, id).value, docId)
  {
    assert Lookup(queries, id).Some? <==> Has(queries, id);
    if queries != [] {
      RelevantIdsExact(queries[1..], docId, id);
      if queries[0].key == id {
        assert Lookup(queries[1..], id).None?;
      }
    }
    hide Relevant;
  }

  lemma DeliverValid(w: Worker, m: Message)
    requires ValidWorker(w)
    ensures ValidWorker(Deliver(w, m))
    ensures w.scheduled.Some? ==> Deliver(w, m).scheduled == w.scheduled
  {
    match m {
      case Init(docs) => EnqueueAllEffect(w.(docs := docs), Keys(w.queries));
      case PatchMsg(id, doc) => EnqueueAllEffect(w.(docs := Put(w.docs, id, doc)), RelevantIds(w.queries, id));
      case DelMsg(id) => EnqueueAllEffect(w.(docs := Remove(w.docs, id)), RelevantIds(w.queries, id));
      case QueryMsg(id, q) => EnqueueEffect(w.(queries := Put(w.queries, id, q)), id);
      case DelQueryMsg(id) => WithoutDistinct(w.queue, id);
    }
  }

  /**
   * A message that leaves a registered view unscheduled has not touched it: its definition is the
   * one it had, and evaluating it over the mirror gives what it gave before.
   */
  lemma UntouchedUnlessPending(w: Worker, m: Message, id: string)
    requires ValidWorker(w)
    requires Has(Deliver(w, m).queries, id) && !Pending(Deliver(w, m), id)
    ensures Lookup(w.queries, id) == Lookup(Deliver(w, m).queries, id)
    ensures Has(w.queries, id) && !Pending(w, id)
    ensures Evaluate(Lookup(w.queries, id).value, w.docs) == Evaluate(Lookup(w.queries, id).value, Deliver(w, m).docs)
  {
    match m {
      case Init(docs) =>
        EnqueueAllEffect(w.(docs := docs), Keys(w.queries));
      case PatchMsg(d, doc) =>
        EnqueueAllEffect(w.(docs := Put(w.docs, d, doc)), RelevantIds(w.queries, d));
        var q := Lookup(w.queries, id).value;
        if Relevant(q, d) {
          RelevantEnqueued(w.queries, d, id);
        }
        IrrelevantPut(q, w.docs, d, doc);
      case DelMsg(d) =>
        EnqueueAllEffect(w.(docs := Remove(w.docs, d)), RelevantIds(w.queries, d));
        var q := Lookup(w.queries, id).value;
        if Relevant(q, d) {
          RelevantEnqueued(w.queries, d, id);
        }
        IrrelevantRemove(q, w.docs, d);
      case QueryMsg(d, q) =>
        EnqueueEffect(w.(queries := Put(w.queries, d, q)), d);
        LookupPut(w.queries, d, q, id);
        assert Has(w.queries, id) by { assert Lookup(w.queries, id).Some?; }
      case DelQueryMsg(d) =>
        LookupRemove(w.queries, d, id);
        assert Has(w.queries, id) by { assert Lookup(Deliver(w, m).queries, id).Some?; }
    }
  }

  // ---------------------------------------------------------------------------
  // The worker itself
  // ---------------------------------------------------------------------------

  class Mirror {
    var docs: Docs
    var queries: Table<Query>
    var queue: seq<string>
    var running: bool
    /** The view whose run setImmediate holds. */
    var scheduled: Option<string>
    /** What was posted to the main thread, oldest first. */
    var posted: seq<Reply>

    ghost function Model(): Worker
      reads this
    {
      Worker(docs, queries, queue, scheduled)
    }

    ghost predicate Valid()
      reads this
    {
      running == scheduled.Some? && ValidWorker(Model())
    }

    constructor ()
      ensures Valid() && Model() == FRESH && posted == []
    {
      docs, queries, queue, running, scheduled, posted := [], [], [], false, None, [];
    }

    method ScheduleNext()
      modifies this`running, this`queue, this`scheduled
      ensures Model() == ScheduledNext(old(Model()))
      ensures running == scheduled.Some?
    {
      if |queue| == 0 {
        running := false;
        scheduled := None;
        return;
      }
      running := true;
      var id := queue[0];
      queue := queue[1..];
      scheduled := Some(id);
    }

    method Enqueue(id: string)
      requires Valid()
      modifies this`running, this`queue, this`scheduled
      ensures Valid() && Model() == Enqueued(old(Model()), id)
    {
      if id !in queue {
        queue := queue + [id];
      }
      if !running {
        ScheduleNext();
      }
      EnqueueEffect(old(Model()), id);
    }

    method EnqueueForDoc(docId: string)
      requires Valid()
      modifies this`running, this`queue, this`scheduled
      ensures Valid() && Model() == EnqueueAll(old(Model()), RelevantIds(queries, docId))
    {
      ghost var want := EnqueueAll(Model(), RelevantIds(queries, docId));
      assert queries[0..] == queries;
      for i := 0 to |queries|
        invariant Valid() && queries == old(queries) && docs == old(docs)
        invariant EnqueueAll(Model(), RelevantIds(queries[i..], docId)) == want
      {
        assert queries[i..][1..] == queries[i + 1..];
        var e := queries[i];
        ghost var rest := RelevantIds(queries[i + 1..], docId);
        assert ([e.key] + rest)[1..] == rest && [] + rest == rest;
        if Relevant(e.value, docId) {
          Enqueue(e.key);
        }
      }
    }

    method EnqueueEvery()
      requires Valid()
      modifies this`running, this`queue, this`scheduled
      ensures Valid() && Model() == EnqueueAll(old(Model()), Keys(queries))
    {
      ghost var want := EnqueueAll(Model(), Keys(queries));
      assert Keys(queries[0..]) == Keys(queries);
      for i := 0 to |queries|
        invariant Valid() && queries == old(queries) && docs == old(docs)
        invariant EnqueueAll(Model(), Keys(queries[i..])) == want
      {
        assert Keys(queries[i..])[1..] == Keys(queries[i + 1..]);
        Enqueue(queries[i].key);
      }
    }

    method OnMessage(m: Message)
      requires Valid()
      modifies this
      ensures Valid() && Model() == Deliver(old(Model()), m)
      ensures posted == old(posted) + DeliverReplies(m)
    {
      match m {
        case Init(newDocs) =>
          docs := newDocs;
          EnqueueEvery();
        case PatchMsg(id, doc) =>
          docs := Put(docs, id, doc);
          EnqueueForDoc(id);
        case DelMsg(id) =>
          docs := Remove(docs, id);
          EnqueueForDoc(id);
        case QueryMsg(id, q) =>
          queries := Put(queries, id, q);
          Enqueue(id);
        case DelQueryMsg(id) =>
          queries := Remove(queries, id);
          WithoutDistinct(queue, id);
          queue := Without(queue, id);
          posted := posted + [DeletedReply(id)];
      }
    }

    /** The setImmediate callback. */
    method BuildAndRun()
      requires Valid() && scheduled.Some?
      modifies this
      ensures Valid() && Model() == RunStep(old(Model()))
      ensures posted == old(posted) + RunReplies(old(Model()))
    {
      var id := scheduled.value;
      var q := Lookup(queries, id);
      if q.None? {
        ScheduleNext();
        return;
      }
      posted := posted + [ViewReply(id, Evaluate(q.value, docs))];
      ScheduleNext();
    }
  }
}
