// The dynamic-security request queue (src/lib/dynsec.js): one command in flight, the others waiting,
// a timeout that fails the whole queue, and the connection's events.

module Dynsec {
  import opened Text

  datatype Item = Item(id: nat, command: string)

  /** One entry of a response message; the data it carries is opaque. */
  datatype Response = Response(command: string, error: string, data: nat)

  datatype Settlement =
    | Resolved(entry: Option<Response>)   // None: resolved with an empty object
    | Failed(refusal: Response)
    | TimedOut
    | Aborted

  /**
   * The queue and the connection, with what happened so far: the commands accepted (their index is
   * the request's id), the ids published and the ids settled, in order.
   */
  datatype Client = Client(configured: bool, connected: bool, queue: seq<Item>, inflight: Option<Item>,
                           commands: seq<string>, published: seq<nat>, settled: seq<(nat, Settlement)>)

  datatype Event =
    | Request(command: string)
    | Message(responses: Option<seq<Response>>)   // None: not a list of responses
    | Timeout
    | Subscribed
    | Close

  const PROBE := "getDefaultACLAccess"

  // ---------------------------------------------------------------------------
  // The steps
  // ---------------------------------------------------------------------------

  function Drain(c: Client): Client {
    if c.inflight.Some? || c.queue == [] || !c.connected then c
    else c.(queue := c.queue[1..], inflight := Some(c.queue[0]), published := c.published + [c.queue[0].id])
  }

  function Accept(c: Client, command: string): Client {
    if !c.configured || !c.connected then c
    else Drain(c.(queue := c.queue + [Item(|c.commands|, command)], commands := c.commands + [command]))
  }

  function EntryFor(responses: seq<Response>, command: string): (r: Option<Response>)
    ensures r.Some? ==> r.value in responses && r.value.command == command
    ensures r.None? <==> forall i :: 0 <= i < |responses| ==> responses[i].command != command
  {
    if responses == [] then None
    else if responses[0].command == command then Some(responses[0])
    else
      var r := EntryFor(responses[1..], command);
      assert r.None? ==> forall i :: 0 < i < |responses| ==> responses[i] == responses[1..][i - 1];
      r
  }

  function Answer(responses: seq<Response>, command: string): Settlement {
    var r := EntryFor(responses, command);
    if r.Some? && r.value.error != "" then Failed(r.value) else Resolved(r)
  }

  function Settle(c: Client, id: nat, how: Settlement): Client { c.(settled := c.settled + [(id, how)]) }

  function Flush(c: Client): Client
    decreases |c.queue|
  {
    if c.queue == [] then c else Flush(Settle(c, c.queue[0].id, Aborted).(queue := c.queue[1..]))
  }

  /** A timeout can only happen while a command is in flight. */
  predicate Possible(c: Client, e: Event) { e.Timeout? ==> c.inflight.Some? }

  function Next(c: Client, e: Event): Client
    requires Possible(c, e)
  {
    match e
    case Request(command) => Accept(c, command)
    case Message(responses) =>
      if c.inflight.None? || responses.None? then c
      else Drain(Settle(c, c.inflight.value.id, Answer(responses.value, c.inflight.value.command)).(inflight := None))
    case Timeout => Flush(Settle(c, c.inflight.value.id, TimedOut).(inflight := None))
    case Subscribed => Accept(Drain(c.(connected := true)), PROBE)
    case Close => c.(connected := false)
  }

  // ---------------------------------------------------------------------------
  // The module's variables
  // ---------------------------------------------------------------------------

  class DynsecClient {
    var configured: bool
    var connected: bool
    var queue: seq<Item>
    var inflight: bool
    var inflightResolve: Option<Item>   // the closure that settles the command in flight
    var timer: Option<Item>             // armed while that command waits for its response
    ghost var commands: seq<string>
    ghost var published: seq<nat>
    ghost var settled: seq<(nat, Settlement)>
    var count: nat

    /** The flag, the closure and the timer belong to the same command. */
    ghost predicate Valid()
      reads this
    {
      inflight == inflightResolve.Some? && timer == inflightResolve && count == |commands|
    }

    ghost function State(): Client
      reads this
    {
      Client(configured, connected, queue, inflightResolve, commands, published, settled)
    }

    constructor ()
      ensures Valid() && State() == Client(true, false, [], None, [], [], [])
    {
      configured, connected, queue, inflight, inflightResolve, timer := true, false, [], false, None, None;
      commands, published, settled, count := [], [], [], 0;
    }

    method DrainQueue()
      requires Valid()
      modifies this
      ensures Valid() && State() == Drain(old(State()))
    {
      if inflight || |queue| == 0 || !connected {
        return;
      }
      var item := queue[0];
      queue := queue[1..];
      inflight := true;
      timer := Some(item);
      inflightResolve := Some(item);
      published := published + [item.id];
    }

    method Request(command: string) returns (accepted: bool)
      requires Valid()
      modifies this
      ensures Valid() && State() == Accept(old(State()), command)
      ensures accepted == (old(configured) && old(connected))
    {
      if !configured || !connected {
        return false;
      }
      queue := queue + [Item(count, command)];
      commands := commands + [command];
      count := count + 1;
      DrainQueue();
      accepted := true;
    }

    method OnMessage(responses: Option<seq<Response>>)
      requires Valid()
      modifies this
      ensures Valid() && State() == Next(old(State()), Message(responses))
    {
      if inflightResolve.Some? && responses.Some? {
        var item := inflightResolve.value;
        timer := None;
        inflight := false;
        inflightResolve := None;
        settled := settled + [(item.id, Answer(responses.value, item.command))];
        DrainQueue();
      }
    }

    method OnTimeout()
      requires Valid() && timer.Some?
      modifies this
      ensures Valid() && State() == Next(old(State()), Timeout)
    {
      var item := timer.value;
      timer := None;
      inflight := false;
      inflightResolve := None;
      settled := settled + [(item.id, TimedOut)];
      ghost var start := State();
      while |queue| > 0
        invariant Valid() && Flush(State()) == Flush(start)
        decreases |queue|
      {
        settled := settled + [(queue[0].id, Aborted)];
        queue := queue[1..];
      }
    }

    method OnSubscribed()
      requires Valid()
      modifies this
      ensures Valid() && State() == Next(old(State()), Subscribed)
    {
      connected := true;
      DrainQueue();
      var probed := Request(PROBE);
    }

    method OnClose()
      requires Valid()
      modifies this
      ensures Valid() && State() == Next(old(State()), Close)
    {
      if connected {
        connected := false;
      }
    }
  }

  // ---------------------------------------------------------------------------
  // What every state keeps
  // ---------------------------------------------------------------------------

  function Flying(c: Client): nat { if c.inflight.Some? then 1 else 0 }

  /**
   * Requests are settled one by one in the order they were accepted; the next one is in flight or
   * heads the queue, and the queue holds all the others, in order.
   */
  predicate InOrder(c: Client) {
    && |c.settled| + Flying(c) + |c.queue| == |c.commands|
    && (forall i :: 0 <= i < |c.settled| ==> c.settled[i].0 == i)
    && (c.inflight.Some? ==> c.inflight.value == Item(|c.settled|, c.commands[|c.settled|]))
    && (forall i :: 0 <= i < |c.queue| ==>
          var id := |c.settled| + Flying(c) + i; c.queue[i] == Item(id, c.commands[id]))
  }

  /** Commands are published in request order, and the one in flight was published last. */
  predicate PublishedInOrder(c: Client) {
    && (forall i, j :: 0 <= i < j < |c.published| ==> c.published[i] < c.published[j])
    && (forall i :: 0 <= i < |c.published| ==> c.published[i] < |c.settled| + Flying(c))
    && (c.inflight.Some? ==> c.published != [] && c.published[|c.published| - 1] == |c.settled|)
  }

  /** A waiting request waits for the one in flight, or for the connection. */
  predicate NoneStuck(c: Client) { c.queue != [] ==> c.inflight.Some? || !c.connected }

  /** A request resolves with nothing or with an entry of its own command, and fails only with such an entry. */
  predicate OwnAnswers(c: Client) {
    forall i :: 0 <= i < |c.settled| && c.settled[i].0 < |c.commands| ==>
        Own(c.settled[i].1, c.commands[c.settled[i].0])
  }

  predicate Own(s: Settlement, command: string) {
    match s
    case Resolved(entry) => entry.Some? ==> entry.value.command == command && entry.value.error == ""
    case Failed(refusal) => refusal.command == command && refusal.error != ""
    case _ => true
  }

  predicate Inv(c: Client) { InOrder(c) && PublishedInOrder(c) && NoneStuck(c) && OwnAnswers(c) }

  lemma DrainKeeps(c: Client)
    requires InOrder(c) && PublishedInOrder(c) && OwnAnswers(c)
    ensures Inv(Drain(c))
  {
  }

  lemma AcceptKeeps(c: Client, command: string)
    requires Inv(c)
    ensures Inv(Accept(c, command))
  {
  }

  lemma SettleKeeps(c: Client, how: Settlement)
    requires Inv(c) && c.inflight.Some? && Own(how, c.inflight.value.command)
    ensures var next := Settle(c, c.inflight.value.id, how).(inflight := None);
            InOrder(next) && PublishedInOrder(next) && OwnAnswers(next)
  {
  }

  lemma AnswerIsOwn(responses: seq<Response>, command: string)
    ensures Own(Answer(responses, command), command)
  {
  }

  lemma AbortKeeps(c: Client)
    requires InOrder(c) && PublishedInOrder(c) && OwnAnswers(c) && c.inflight.None? && c.queue != []
    ensures var next := Settle(c, c.queue[0].id, Aborted).(queue := c.queue[1..]);
            InOrder(next) && PublishedInOrder(next) && OwnAnswers(next)
  {
  }

  lemma {:induction false} FlushKeeps(c: Client)
    requires InOrder(c) && PublishedInOrder(c) && OwnAnswers(c) && c.inflight.None?
    ensures Inv(Flush(c)) && Flush(c).queue == [] && Flush(c).inflight.None? && Flush(c).commands == c.commands
    decreases |c.queue|
  {
    if c.queue != [] {
      AbortKeeps(c);
      FlushKeeps(Settle(c, c.queue[0].id, Aborted).(queue := c.queue[1..]));
    }
    hide InOrder, PublishedInOrder, OwnAnswers;
  }

  /** Every event keeps the invariant. */
  lemma StepKeepsInv(c: Client, e: Event)
    requires Inv(c) && Possible(c, e)
    ensures Inv(Next(c, e))
  {
    match e {
      case Request(command) => AcceptKeeps(c, command);
      case Message(responses) =>
        if c.inflight.Some? && responses.Some? {
          var how := Answer(responses.value, c.inflight.value.command);
          SettleKeeps(c, how);
          DrainKeeps(Settle(c, c.inflight.value.id, how).(inflight := None));
        }
      case Timeout =>
        SettleKeeps(c, TimedOut);
        FlushKeeps(Settle(c, c.inflight.value.id, TimedOut).(inflight := None));
      case Subscribed =>
        DrainKeeps(c.(connected := true));
        AcceptKeeps(Drain(c.(connected := true)), PROBE);
      case Close =>
    }
    hide Drain, Flush, Accept, Answer, Own;
  }

  predicate AllPossible(c: Client, events: seq<Event>)
    decreases events
  {
    events == [] || (Possible(c, events[0]) && AllPossible(Next(c, events[0]), events[1..]))
  }

  function AfterAll(c: Client, events: seq<Event>): Client
    requires AllPossible(c, events)
    decreases events
  {
    if events == [] then c else AfterAll(Next(c, events[0]), events[1..])
  }

  const START := Client(true, false, [], None, [], [], [])

  lemma {:induction false} RunKeepsInv(c: Client, events: seq<Event>)
    requires Inv(c) && AllPossible(c, events)
    ensures Inv(AfterAll(c, events))
    decreases events
  {
    if events != [] {
      StepKeepsInv(c, events[0]);
      RunKeepsInv(Next(c, events[0]), events[1..]);
    }
    hide Inv, Next;
  }

  /** Every request was settled exactly once, or is in flight, or waits: one of the three. */
  function Settlements(c: Client, id: nat): nat { |set i | 0 <= i < |c.settled| && c.settled[i].0 == id| }

  function Waiting(c: Client, id: nat): nat { |set i | 0 <= i < |c.queue| && c.queue[i].id == id| }

  lemma PlacedOnce(c: Client, id: nat)
    requires InOrder(c) && id < |c.commands|
    ensures Settlements(c, id) + (if c.inflight.Some? && c.inflight.value.id == id then 1 else 0) + Waiting(c, id) == 1
  {
    var settled := set i | 0 <= i < |c.settled| && c.settled[i].0 == id;
    var waiting := set i | 0 <= i < |c.queue| && c.queue[i].id == id;
    if id < |c.settled| {
      assert settled == {id} && waiting == {};
    } else if id < |c.settled| + Flying(c) {
      assert settled == {} && waiting == {};
    } else {
      var k := id - |c.settled| - Flying(c);
      assert c.queue[k].id == id;
      assert settled == {} && waiting == {k};
    }
  }

  /**
   * Over every run of requests, responses, timeouts, closes and reconnects: commands go out in
   * request order with at most one in flight, every accepted request is settled once or in flight
   * or waiting, and a waiting queue means one is in flight or the connection is down.
   */
  lemma QueueOverEveryRun(events: seq<Event>)
    requires AllPossible(START, events)
    ensures var c := AfterAll(START, events);
            && InOrder(c) && PublishedInOrder(c) && NoneStuck(c) && OwnAnswers(c)
            && forall id :: 0 <= id < |c.commands| ==>
                 Settlements(c, id) + (if c.inflight.Some? && c.inflight.value.id == id then 1 else 0)
                     + Waiting(c, id) == 1
  {
    RunKeepsInv(START, events);
    var c := AfterAll(START, events);
    forall id | 0 <= id < |c.commands| {
      PlacedOnce(c, id);
    }
    hide *;
  }

  /** After a timeout nothing is owed: every request accepted so far is settled. */
  lemma TimeoutSettlesAll(c: Client)
    requires Inv(c) && c.inflight.Some?
    ensures var later := Next(c, Timeout);
            |later.settled| == |c.commands| && later.queue == [] && later.inflight.None?
            && later.published == c.published
  {
    SettleKeeps(c, TimedOut);
    var settled := Settle(c, c.inflight.value.id, TimedOut).(inflight := None);
    FlushKeeps(settled);
    FlushPublishes(settled);
    hide Flush, PublishedInOrder, OwnAnswers;
  }

  lemma {:induction false} FlushPublishes(c: Client)
    ensures Flush(c).published == c.published
    decreases |c.queue|
  {
    if c.queue != [] {
      FlushPublishes(Settle(c, c.queue[0].id, Aborted).(queue := c.queue[1..]));
    }
  }

  // ---------------------------------------------------------------------------
  // Whose answer settles a request
  // ---------------------------------------------------------------------------

  /**
   * The client and the broker. The broker answers the published commands in the order they were
   * published, any of its answers may be lost, and `next` is the first whose answer has not come;
   * `from` records for each request that a response settled to which command that was the answer.
   */
  datatype Link = Link(client: Client, next: nat, from: map<nat, nat>)

  datatype Happening =
    | Local(event: Event)       // anything but a list of responses
    | Reply(publication: nat)   // the answer to that published command arrives

  /** What the broker answers to each command that was published. */
  type Answers = nat -> seq<Response>

  predicate CanHappen(l: Link, h: Happening) {
    match h
    case Local(e) => Possible(l.client, e) && (e.Message? ==> e.responses.None?)
    case Reply(k) => l.next <= k < |l.client.published|
  }

  function Happen(l: Link, h: Happening, answers: Answers): Link
    requires CanHappen(l, h)
  {
    match h
    case Local(e) => l.(client := Next(l.client, e))
    case Reply(k) =>
      var id := l.client.published[k];
      Link(Next(l.client, Message(Some(answers(id)))), k + 1,
           if l.client.inflight.None? then l.from else l.from[l.client.inflight.value.id := id])
  }

  /** The answer to a command that timed out arrives while another one is in flight. */
  predicate LateReply(l: Link, h: Happening)
    requires CanHappen(l, h)
  {
    && h.Reply? && l.client.inflight.Some?
    && (l.client.published[h.publication], TimedOut) in l.client.settled
  }

  predicate AllCanHappen(l: Link, run: seq<Happening>, answers: Answers)
    decreases run
  {
    run == [] || (CanHappen(l, run[0]) && AllCanHappen(Happen(l, run[0], answers), run[1..], answers))
  }

  function AfterRun(l: Link, run: seq<Happening>, answers: Answers): Link
    requires AllCanHappen(l, run, answers)
    decreases run
  {
    if run == [] then l else AfterRun(Happen(l, run[0], answers), run[1..], answers)
  }

  predicate SomeLateReply(l: Link, run: seq<Happening>, answers: Answers)
    requires AllCanHappen(l, run, answers)
    decreases run
  {
    run != [] && (LateReply(l, run[0]) || SomeLateReply(Happen(l, run[0], answers), run[1..], answers))
  }

  predicate Answered(how: Settlement) { how.Resolved? || how.Failed? }

  /** A request resolves or fails exactly by one answer, and with what that answer says. */
  predicate SettledByAnswers(l: Link, answers: Answers) {
    var c := l.client;
    forall id :: 0 <= id < |c.settled| ==>
      && (Answered(c.settled[id].1) <==> id in l.from)
      && (id in l.from ==> id < |c.commands| && c.settled[id].1 == Answer(answers(l.from[id]), c.commands[id]))
  }

  predicate OnlySettled(l: Link) { forall id :: id in l.from ==> id < |l.client.settled| }

  /** Each of those answers was the one to the request's own command. */
  predicate OwnReplies(l: Link) { forall id :: id in l.from ==> l.from[id] == id }

  /** Of a published command that was settled, the answer came or the command timed out. */
  predicate CameOrTimedOut(l: Link) {
    var c := l.client;
    forall k :: l.next <= k < |c.published| && c.published[k] < |c.settled| ==> c.settled[c.published[k]].1 == TimedOut
  }

  predicate Accounted(l: Link, answers: Answers) {
    && InOrder(l.client) && PublishedInOrder(l.client) && l.next <= |l.client.published|
    && SettledByAnswers(l, answers) && OnlySettled(l)
    && (OwnReplies(l) ==> CameOrTimedOut(l))
  }

  predicate LinkInv(l: Link, answers: Answers) { Inv(l.client) && Accounted(l, answers) }

  /** Publishing at most one more, the one then in flight, settling nothing. */
  predicate OnlyPublishes(c: Client, later: Client) {
    && later.settled == c.settled && c.commands <= later.commands
    && (later.published == c.published
        || (later.inflight.Some? && later.published == c.published + [later.inflight.value.id]))
  }

  lemma PublishAccounted(l: Link, later: Client, answers: Answers)
    requires Accounted(l, answers) && OnlyPublishes(l.client, later) && InOrder(later) && PublishedInOrder(later)
    ensures Accounted(l.(client := later), answers)
  {
    hide Answer;
  }

  /** A timeout settles the command in flight; what it aborts was never published. */
  lemma TimeoutKeepsLink(l: Link, answers: Answers)
    requires LinkInv(l, answers) && l.client.inflight.Some? && Inv(Next(l.client, Timeout))
    ensures LinkInv(l.(client := Next(l.client, Timeout)), answers)
  {
    var c := l.client;
    var first := Settle(c, c.inflight.value.id, TimedOut).(inflight := None);
    FlushPublishes(first);
    FlushAborts(first);
    hide Flush, NoneStuck, OwnAnswers, Answer;
  }

  lemma {:induction false} FlushAborts(c: Client)
    ensures Flush(c).commands == c.commands && c.settled <= Flush(c).settled
    ensures forall i :: |c.settled| <= i < |Flush(c).settled| ==> Flush(c).settled[i].1 == Aborted
    decreases |c.queue|
  {
    if c.queue != [] {
      FlushAborts(Settle(c, c.queue[0].id, Aborted).(queue := c.queue[1..]));
    }
  }

  function Replied(l: Link, k: nat, answers: Answers): Link
    requires CanHappen(l, Reply(k)) && l.client.inflight.Some?
  {
    var c := l.client;
    var item := c.inflight.value;
    var id := c.published[k];
    Link(Settle(c, item.id, Answer(answers(id), item.command)).(inflight := None), k + 1, l.from[item.id := id])
  }

  /**
   * The answer that arrives settles the command in flight. It is that command's own, the last one
   * published, unless it answers an earlier command, and while all were settled by their own
   * answers that one can only have timed out.
   */
  lemma RepliedAccounted(l: Link, k: nat, answers: Answers)
    requires LinkInv(l, answers) && CanHappen(l, Reply(k)) && l.client.inflight.Some?
    ensures Accounted(Replied(l, k, answers), answers)
    ensures OwnReplies(Replied(l, k, answers)) <==> OwnReplies(l) && !LateReply(l, Reply(k))
  {
    hide Answer, Own, InOrder, PublishedInOrder, OwnAnswers, NoneStuck, SettledByAnswers, OnlySettled, OwnReplies,
         CameOrTimedOut, LateReply;
    var c := l.client;
    AnswerIsOwn(answers(c.published[k]), c.inflight.value.command);
    SettleKeeps(c, Answer(answers(c.published[k]), c.inflight.value.command));
    RepliedSettled(l, k, answers);
    RepliedOwn(l, k, answers);
    if OwnReplies(l) && c.published[k] == c.inflight.value.id {
      RepliedCame(l, k, answers);
    }
  }

  /** The answer is the command's own, the last one published, or it is a late one. */
  lemma RepliedOwn(l: Link, k: nat, answers: Answers)
    requires LinkInv(l, answers) && CanHappen(l, Reply(k)) && l.client.inflight.Some?
    ensures OwnReplies(Replied(l, k, answers)) <==> OwnReplies(l) && l.client.published[k] == l.client.inflight.value.id
    ensures OwnReplies(l) ==> (LateReply(l, Reply(k)) <==> l.client.published[k] != l.client.inflight.value.id)
  {
    var c := l.client;
    var own, id := c.inflight.value.id, c.published[k];
    RepliedSettled(l, k, answers);
    assert Replied(l, k, answers).from[own] == id;
    assert forall i :: i in l.from ==> Replied(l, k, answers).from[i] == l.from[i];
    if id != own {
      assert k < |c.published| - 1 && id < |c.settled| && c.settled[id].0 == id;
    }
    hide Answer, InOrder, OwnAnswers, NoneStuck, SettledByAnswers;
  }

  lemma RepliedCame(l: Link, k: nat, answers: Answers)
    requires LinkInv(l, answers) && CanHappen(l, Reply(k)) && l.client.inflight.Some?
    requires OwnReplies(l) && l.client.published[k] == l.client.inflight.value.id
    ensures CameOrTimedOut(Replied(l, k, answers))
  {
    assert k == |l.client.published| - 1;
    hide Answer, InOrder, OwnAnswers, NoneStuck, SettledByAnswers;
  }

  lemma RepliedSettled(l: Link, k: nat, answers: Answers)
    requires LinkInv(l, answers) && CanHappen(l, Reply(k)) && l.client.inflight.Some?
    ensures SettledByAnswers(Replied(l, k, answers), answers) && OnlySettled(Replied(l, k, answers))
    ensures l.client.inflight.value.id == |l.client.settled| && l.client.inflight.value.id !in l.from
    ensures forall i :: 0 <= i < |l.client.settled| ==> l.client.settled[i].0 == i
  {
    hide PublishedInOrder, OwnAnswers, NoneStuck, EntryFor;
  }

  lemma ReplyAccounted(l: Link, k: nat, answers: Answers)
    requires LinkInv(l, answers) && CanHappen(l, Reply(k))
    ensures Accounted(Happen(l, Reply(k), answers), answers)
    ensures OwnReplies(Happen(l, Reply(k), answers)) <==> OwnReplies(l) && !LateReply(l, Reply(k))
  {
    if l.client.inflight.Some? {
      RepliedAccounted(l, k, answers);
      var replied := Replied(l, k, answers);
      AccountedOrder(replied, answers);
      DrainPublishes(replied.client);
      PublishAccounted(replied, Drain(replied.client), answers);
    } else {
      SameAccounted(l, k + 1, answers);
    }
    hide Drain, Inv, Accounted, OnlyPublishes, Answer, InOrder, PublishedInOrder;
  }

  lemma AccountedOrder(l: Link, answers: Answers)
    requires Accounted(l, answers)
    ensures InOrder(l.client) && PublishedInOrder(l.client)
  {
    hide InOrder, PublishedInOrder;
  }

  lemma HappenKeepsLink(l: Link, h: Happening, answers: Answers)
    requires LinkInv(l, answers) && CanHappen(l, h)
    ensures LinkInv(Happen(l, h, answers), answers)
    ensures OwnReplies(Happen(l, h, answers)) <==> OwnReplies(l) && !LateReply(l, h)
  {
    match h {
      case Local(e) =>
        StepKeepsInv(l.client, e);
        if e.Timeout? {
          TimeoutKeepsLink(l, answers);
        } else {
          LocalPublishes(l.client, e);
          PublishAccounted(l, Next(l.client, e), answers);
        }
      case Reply(k) =>
        StepKeepsInv(l.client, Message(Some(answers(l.client.published[k]))));
        ReplyAccounted(l, k, answers);
    }
    hide Next, Inv, Accounted, OnlyPublishes, OwnReplies, LateReply;
  }

  lemma SameAccounted(l: Link, next: nat, answers: Answers)
    requires Accounted(l, answers) && l.next <= next <= |l.client.published|
    ensures Accounted(l.(next := next), answers)
  {
  }

  lemma DrainPublishes(c: Client)
    requires InOrder(c) && PublishedInOrder(c)
    ensures OnlyPublishes(c, Drain(c)) && InOrder(Drain(c)) && PublishedInOrder(Drain(c))
  {
  }

  lemma LocalPublishes(c: Client, e: Event)
    requires Inv(c) && !e.Timeout? && (e.Message? ==> e.responses.None?)
    ensures OnlyPublishes(c, Next(c, e))
  {
  }

  lemma {:induction false} OwnAnswersAlong(l: Link, run: seq<Happening>, answers: Answers)
    requires LinkInv(l, answers) && AllCanHappen(l, run, answers)
    ensures LinkInv(AfterRun(l, run, answers), answers)
    ensures OwnReplies(AfterRun(l, run, answers)) <==> OwnReplies(l) && !SomeLateReply(l, run, answers)
    decreases run
  {
    if run != [] {
      HappenKeepsLink(l, run[0], answers);
      OwnAnswersAlong(Happen(l, run[0], answers), run[1..], answers);
    }
    hide LinkInv, Happen, LateReply, OwnReplies, CanHappen;
  }

  const LINK_START := Link(START, 0, map[])

  /**
   * Over every run, whatever is lost: a request resolves or fails by exactly one of the broker's
   * answers, with what that answer says of its command; and all do so by the answers to their own
   * commands exactly when no answer to a command that timed out arrives while another is in flight.
   */
  lemma OwnAnswersExactly(run: seq<Happening>, answers: Answers)
    requires AllCanHappen(LINK_START, run, answers)
    ensures var l := AfterRun(LINK_START, run, answers);
            && SettledByAnswers(l, answers)
            && (OwnReplies(l) <==> !SomeLateReply(LINK_START, run, answers))
  {
    OwnAnswersAlong(LINK_START, run, answers);
    hide AfterRun, SomeLateReply;
  }

  const FIRST_HALF := [Local(Subscribed), Reply(0), Local(Request("getClient")), Local(Timeout)]
  const SECOND_HALF := [Local(Request("getClient")), Reply(1)]

  /** Connected, probed, and one request timed out. */
  function TimedOutOnce(probed: Settlement): Link {
    Link(Client(true, true, [], None, [PROBE, "getClient"], [0, 1], [(0, probed), (1, TimedOut)]), 1, map[0 := 0])
  }

  lemma FirstTimesOut(answers: Answers)
    ensures AllCanHappen(LINK_START, FIRST_HALF, answers)
    ensures AfterRun(LINK_START, FIRST_HALF, answers) == TimedOutOnce(Answer(answers(0), PROBE))
  {
    hide Answer;
    var l1 := Happen(LINK_START, Local(Subscribed), answers);
    assert l1 == Link(Client(true, true, [], Some(Item(0, PROBE)), [PROBE], [0], []), 0, map[]);
    var l2 := Happen(l1, Reply(0), answers);
    var how := Answer(answers(0), PROBE);
    assert l2 == Link(Client(true, true, [], None, [PROBE], [0], [(0, how)]), 1, map[0 := 0]);
    var l3 := Happen(l2, Local(Request("getClient")), answers);
    var item := Item(1, "getClient");
    assert l3 == Link(Client(true, true, [], Some(item), [PROBE, "getClient"], [0, 1], [(0, how)]), 1, map[0 := 0]);
    var l4 := Happen(l3, Local(Timeout), answers);
    assert l4 == TimedOutOnce(how);
    assert FIRST_HALF[1..][1..][1..] == [Local(Timeout)] && [Local(Timeout)][1..] == [];
  }

  lemma SecondTaken(probed: Settlement, answers: Answers, data: nat)
    requires answers(1) == [Response("getClient", "", data)]
    ensures var l := TimedOutOnce(probed);
            && AllCanHappen(l, SECOND_HALF, answers) && SomeLateReply(l, SECOND_HALF, answers)
            && var later := AfterRun(l, SECOND_HALF, answers);
               && later.from == map[0 := 0, 2 := 1]
               && |later.client.settled| == 3
               && later.client.settled[2] == (2, Resolved(Some(Response("getClient", "", data))))
  {
    var l := TimedOutOnce(probed);
    var l5 := Happen(l, Local(Request("getClient")), answers);
    assert l5.client.inflight == Some(Item(2, "getClient")) && l5.client.published == [0, 1, 2];
    assert l5.client.settled[1] == (1, TimedOut);
    var l6 := Happen(l5, Reply(1), answers);
    assert SECOND_HALF[1..] == [Reply(1)] && [Reply(1)][1..] == [];
    assert l6.client.settled[2] == (2, Resolved(Some(Response("getClient", "", data))));
    hide Answer, Drain, Accept;
  }

  /** A second command of the same name gets the answer to the first, which had timed out, data and all. */
  lemma LateAnswerTaken(answers: Answers, data: nat)
    requires answers(1) == [Response("getClient", "", data)]
    ensures AllCanHappen(LINK_START, FIRST_HALF, answers)
    ensures var l := AfterRun(LINK_START, FIRST_HALF, answers);
            && AllCanHappen(l, SECOND_HALF, answers) && SomeLateReply(l, SECOND_HALF, answers)
            && var later := AfterRun(l, SECOND_HALF, answers);
               && later.from == map[0 := 0, 2 := 1]
               && |later.client.settled| == 3
               && later.client.settled[2] == (2, Resolved(Some(Response("getClient", "", data))))
  {
    FirstTimesOut(answers);
    SecondTaken(Answer(answers(0), PROBE), answers, data);
    hide *;
  }
}
