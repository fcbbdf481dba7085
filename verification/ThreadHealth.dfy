// Thread health alerts (src/matter/thread-health.js): one evaluation of a snapshot of the border
// routers and the mesh against what was remembered.

module ThreadHealth {
  import opened Text

  const ROUTER_STALE_MS: int := 15 * 60 * 1000
  const HISTORY_MAX: nat := 100

  // ---------------------------------------------------------------------------
  // Data model
  // ---------------------------------------------------------------------------

  datatype Kind = Partition | RouterOffline | RoleDropped | LinkDegraded | LeaderChanged

  datatype Key = Key(kind: Kind, subject: string)

  datatype Alert = Alert(key: Key, since: int)

  datatype Entry = Entry(alert: Alert, raised: bool, at: int)

  /** A border router as a network lists it; `lastSeen` is 0 when it is not known. */
  datatype Listing = Listing(ext: string, lastSeen: int, leader: bool)

  datatype Network = Network(ext: string, partitions: nat, routers: seq<Listing>)

  datatype Node = Node(nodeId: string, thread: bool, network: Option<string>, partition: Option<nat>,
                       role: Option<nat>, online: bool)

  datatype Link = Link(source: string, target: string, neighbour: bool, lqi: int)

  datatype Snapshot = Snapshot(networks: seq<Network>, nodes: seq<Node>, links: seq<Link>, now: int)

  /** What is remembered between runs; alerts and routers in the order they came. */
  datatype Memory = Memory(leaders: map<string, string>, routers: seq<string>, roles: map<string, nat>,
                           links: map<string, int>, active: seq<Alert>, history: seq<Entry>)

  datatype Result = Result(memory: Memory, raised: seq<Alert>, cleared: seq<Alert>)

  // ---------------------------------------------------------------------------
  // The alert board
  // ---------------------------------------------------------------------------

  datatype Board = Board(active: seq<Alert>, history: seq<Entry>, raised: seq<Alert>, cleared: seq<Alert>,
      seen: set<Key>)

  predicate Has(active: seq<Alert>, key: Key) { exists i :: 0 <= i < |active| && active[i].key == key }

  function IndexOf(active: seq<Alert>, key: Key): (i: nat)
    requires Has(active, key)
    ensures i < |active| && active[i].key == key
  {
    if active[0].key == key then 0
    else
      assert Has(active[1..], key) by {
        var k :| 0 <= k < |active| && active[k].key == key;
        assert active[1..][k - 1].key == key;
      }
      IndexOf(active[1..], key) + 1
  }

  /** What the evaluation does to the board. `Keep` marks an alert as confirmed if it is there. */
  datatype Action = Raise(key: Key) | Note(key: Key) | Clear(key: Key) | Keep(key: Key)

  function Without(active: seq<Alert>, i: nat): seq<Alert>
    requires i < |active|
  {
    active[..i] + active[i + 1..]
  }

  function Do(b: Board, a: Action, now: int): Board {
    match a
    case Raise(key) =>
      var marked := b.(seen := b.seen + {key});
      if Has(b.active, key) then marked
      else
        var alert := Alert(key, now);
        marked.(active := b.active + [alert], history := [Entry(alert, true, now)] + b.history,
            raised := b.raised + [alert])
    case Note(key) =>
      var alert := Alert(key, now);
      b.(history := [Entry(alert, true, now)] + b.history, raised := b.raised + [alert])
    case Clear(key) =>
      if Has(b.active, key) then
        var i := IndexOf(b.active, key);
        b.(cleared := b.cleared + [b.active[i]], history := [Entry(b.active[i], false, now)] + b.history,
           active := Without(b.active, i))
      else b
    case Keep(key) => if Has(b.active, key) then b.(seen := b.seen + {key}) else b
  }

  function DoAll(b: Board, actions: seq<Action>, now: int): Board
    decreases actions
  {
    if actions == [] then b else DoAll(Do(b, actions[0], now), actions[1..], now)
  }

  lemma {:induction false} DoAllAppend(b: Board, x: seq<Action>, y: seq<Action>, now: int)
    ensures DoAll(b, x + y, now) == DoAll(DoAll(b, x, now), y, now)
    decreases x
  {
    if x == [] {
      assert x + y == y;
    } else {
      assert (x + y)[1..] == x[1..] + y;
      DoAllAppend(Do(b, x[0], now), x[1..], y, now);
    }
  }

  // ---------------------------------------------------------------------------
  // What a snapshot asks for
  // ---------------------------------------------------------------------------

  function LeaderOf(routers: seq<Listing>): Option<string> {
    if routers == [] then None else if routers[0].leader then Some(routers[0].ext) else LeaderOf(routers[1..])
  }

  function LeaderSet(leaders: map<string, string>, net: Network): map<string, string> {
    var leader := LeaderOf(net.routers);
    if leader.Some? then leaders[net.ext := leader.value] else leaders
  }

  predicate LeaderMoved(leaders: map<string, string>, net: Network) {
    LeaderOf(net.routers).Some? && net.ext in leaders && leaders[net.ext] != LeaderOf(net.routers).value
  }

  predicate Stale(l: Listing, now: int) { l.lastSeen != 0 && now - l.lastSeen > ROUTER_STALE_MS }

  function ListingAction(l: Listing, now: int): Action {
    if Stale(l, now) then Raise(Key(RouterOffline, l.ext)) else Clear(Key(RouterOffline, l.ext))
  }

  function ListingActions(routers: seq<Listing>, now: int): seq<Action> {
    if routers == [] then [] else [ListingAction(routers[0], now)] + ListingActions(routers[1..], now)
  }

  function HeadActions(leaders: map<string, string>, net: Network): seq<Action> {
    (if LeaderMoved(leaders, net) then [Note(Key(LeaderChanged, net.ext))] else [])
    + (if net.partitions > 1 then [Raise(Key(Partition, net.ext))] else [])
  }

  function NetActions(leaders: map<string, string>, nets: seq<Network>, now: int): seq<Action>
    decreases nets
  {
    if nets == [] then []
    else
      HeadActions(leaders, nets[0]) + ListingActions(nets[0].routers, now)
      + NetActions(LeaderSet(leaders, nets[0]), nets[1..], now)
  }

  function LeadersAfter(leaders: map<string, string>, nets: seq<Network>): map<string, string>
    decreases nets
  {
    if nets == [] then leaders else LeadersAfter(LeaderSet(leaders, nets[0]), nets[1..])
  }

  function Listings(nets: seq<Network>): seq<Listing> {
    if nets == [] then [] else nets[0].routers + Listings(nets[1..])
  }

  function AddRouter(routers: seq<string>, ext: string): seq<string> {
    if ext in routers then routers else routers + [ext]
  }

  function AddRouters(routers: seq<string>, listed: seq<Listing>): seq<string>
    decreases listed
  {
    if listed == [] then routers else AddRouters(AddRouter(routers, listed[0].ext), listed[1..])
  }

  predicate IsListed(listed: seq<Listing>, ext: string) { exists i :: 0 <= i < |listed| && listed[i].ext == ext }

  /** The known routers that no network lists any more. */
  function VanishedActions(routers: seq<string>, listed: seq<Listing>): seq<Action>
    decreases routers
  {
    if routers == [] then []
    else
      (if IsListed(listed, routers[0]) then [] else [Raise(Key(RouterOffline, routers[0]))])
      + VanishedActions(routers[1..], listed)
  }

  predicate RouterRole(role: nat) { role == 4 || role == 5 || role == 6 }

  predicate HasRole(n: Node) { n.thread && n.nodeId != "" && n.role.Some? }

  predicate Dropped(prev: Option<nat>, n: Node)
    requires n.role.Some?
  {
    prev.Some? && RouterRole(prev.value) && !RouterRole(n.role.value) && n.online
  }

  function Remembered<K, V>(m: map<K, V>, k: K): Option<V> { if k in m then Some(m[k]) else None }

  function RoleActions(roles: map<string, nat>, n: Node): seq<Action> {
    if !HasRole(n) then []
    else
      var key := Key(RoleDropped, n.nodeId);
      (if Dropped(Remembered(roles, n.nodeId), n) then [Raise(key)] else if RouterRole(n.role.value) then [Clear(key)]
          else [])
      + [Keep(key)]
  }

  function RoleSet(roles: map<string, nat>, n: Node): map<string, nat> {
    if HasRole(n) then roles[n.nodeId := n.role.value] else roles
  }

  function NodeActions(roles: map<string, nat>, nodes: seq<Node>): seq<Action>
    decreases nodes
  {
    if nodes == [] then [] else RoleActions(roles, nodes[0]) + NodeActions(RoleSet(roles, nodes[0]), nodes[1..])
  }

  function RolesAfter(roles: map<string, nat>, nodes: seq<Node>): map<string, nat>
    decreases nodes
  {
    if nodes == [] then roles else RolesAfter(RoleSet(roles, nodes[0]), nodes[1..])
  }

  predicate Reports(n: Node) { n.thread && n.network.Some? && n.network.value != "" && n.partition.Some? }

  function FindSet(sets: seq<(string, set<nat>)>, name: string): (r: Option<nat>)
    ensures r.Some? ==> r.value < |sets| && sets[r.value].0 == name
    ensures r.None? ==> forall i :: 0 <= i < |sets| ==> sets[i].0 != name
  {
    if sets == [] then None
    else if sets[0].0 == name then Some(0)
    else
      var r := FindSet(sets[1..], name);
      if r.Some? then Some(r.value + 1) else None
  }

  /** The partition ids the mesh nodes report, network by network, in the order the networks appear. */
  function AddPart(sets: seq<(string, set<nat>)>, name: string, part: nat): seq<(string, set<nat>)> {
    match FindSet(sets, name)
    case Some(i) => sets[i := (name, sets[i].1 + {part})]
    case None => sets + [(name, {part})]
  }

  function AddNode(sets: seq<(string, set<nat>)>, n: Node): seq<(string, set<nat>)> {
    if Reports(n) then AddPart(sets, n.network.value, n.partition.value) else sets
  }

  function PartSets(sets: seq<(string, set<nat>)>, nodes: seq<Node>): seq<(string, set<nat>)>
    decreases nodes
  {
    if nodes == [] then sets else PartSets(AddNode(sets, nodes[0]), nodes[1..])
  }

  function MeshSubject(name: string): string { "nodes:" + name }

  function SplitActions(sets: seq<(string, set<nat>)>): seq<Action> {
    if sets == [] then []
    else (if |sets[0].1| > 1 then [Raise(Key(Partition, MeshSubject(sets[0].0)))] else []) + SplitActions(sets[1..])
  }

  function LinkKey(l: Link): string { l.source + "|" + l.target }

  predicate Degraded(prev: Option<int>, lqi: int) { prev.Some? && prev.value >= 3 && lqi <= 1 }

  function LinkActionsOf(links: map<string, int>, l: Link): seq<Action> {
    if !l.neighbour then []
    else
      var key := Key(LinkDegraded, LinkKey(l));
      (if Degraded(Remembered(links, LinkKey(l)), l.lqi) then [Raise(key)] else if l.lqi >= 2 then [Clear(key)] else [])
      + [Keep(key)]
  }

  function LinkSet(links: map<string, int>, l: Link): map<string, int> {
    if l.neighbour then links[LinkKey(l) := l.lqi] else links
  }

  function LinkActions(links: map<string, int>, ls: seq<Link>): seq<Action>
    decreases ls
  {
    if ls == [] then [] else LinkActionsOf(links, ls[0]) + LinkActions(LinkSet(links, ls[0]), ls[1..])
  }

  function LinksAfter(links: map<string, int>, ls: seq<Link>): map<string, int>
    decreases ls
  {
    if ls == [] then links else LinksAfter(LinkSet(links, ls[0]), ls[1..])
  }

  /** Everything the snapshot asks for, in order: it does not depend on the alerts that are active. */
  function Actions(m: Memory, s: Snapshot): seq<Action> {
    var listed := Listings(s.networks);
    NetActions(m.leaders, s.networks, s.now)
    + (VanishedActions(AddRouters(m.routers, listed), listed)
       + (NodeActions(m.roles, s.nodes) + (SplitActions(PartSets([], s.nodes)) + LinkActions(m.links, s.links))))
  }

  predicate Latched(kind: Kind) { kind.RoleDropped? || kind.LinkDegraded? }

  /** What was not confirmed is cleared, except alerts that clear explicitly. */
  function Sweep(b: Board, alerts: seq<Alert>, now: int): Board
    decreases alerts
  {
    if alerts == [] then b
    else if alerts[0].key in b.seen || Latched(alerts[0].key.kind) then Sweep(b, alerts[1..], now)
    else Sweep(Do(b, Clear(alerts[0].key), now), alerts[1..], now)
  }

  function Trim100(history: seq<Entry>): (h: seq<Entry>)
    ensures |h| <= HISTORY_MAX && h <= history
  {
    if |history| > HISTORY_MAX then history[..HISTORY_MAX] else history
  }

  function Evaluate(m: Memory, s: Snapshot): Result {
    var board := DoAll(Board(m.active, m.history, [], [], {}), Actions(m, s), s.now);
    var swept := Sweep(board, board.active, s.now);
    Result(Memory(LeadersAfter(m.leaders, s.networks), AddRouters(m.routers, Listings(s.networks)),
                  RolesAfter(m.roles, s.nodes), LinksAfter(m.links, s.links), swept.active, Trim100(swept.history)),
           swept.raised, swept.cleared)
  }

  // ---------------------------------------------------------------------------
  // The evaluation itself
  // ---------------------------------------------------------------------------

  class Evaluation {
    var leaders: map<string, string>
    var routers: seq<string>
    var roles: map<string, nat>
    var links: map<string, int>
    var active: seq<Alert>
    var history: seq<Entry>
    var raised: seq<Alert>
    var cleared: seq<Alert>
    var seen: set<Key>
    const now: int

    ghost function State(): Board
      reads this
    {
      Board(active, history, raised, cleared, seen)
    }

    constructor (m: Memory, now: int)
      ensures State() == Board(m.active, m.history, [], [], {}) && this.now == now
      ensures leaders == m.leaders && routers == m.routers && roles == m.roles && links == m.links
    {
      leaders, routers, roles, links, active, history := m.leaders, m.routers, m.roles, m.links, m.active, m.history;
      raised, cleared, seen, this.now := [], [], {}, now;
    }

    method RaiseAlert(key: Key)
      modifies this`active, this`history, this`raised, this`seen
      ensures State() == Do(old(State()), Raise(key), now)
    {
      seen := seen + {key};
      if Has(active, key) {
        return;
      }
      var alert := Alert(key, now);
      active := active + [alert];
      history := [Entry(alert, true, now)] + history;
      raised := raised + [alert];
    }

    method NoteAlert(key: Key)
      modifies this`history, this`raised
      ensures State() == Do(old(State()), Note(key), now)
    {
      var alert := Alert(key, now);
      history := [Entry(alert, true, now)] + history;
      raised := raised + [alert];
    }

    method ClearAlert(key: Key)
      modifies this`active, this`history, this`cleared
      ensures State() == Do(old(State()), Clear(key), now)
    {
      if Has(active, key) {
        var i := IndexOf(active, key);
        cleared := cleared + [active[i]];
        history := [Entry(active[i], false, now)] + history;
        active := Without(active, i);
      }
    }

    method KeepAlert(key: Key)
      modifies this`seen
      ensures State() == Do(old(State()), Keep(key), now)
    {
      if Has(active, key) {
        seen := seen + {key};
      }
    }

    method ListRouters(listed: seq<Listing>)
      modifies this`active, this`history, this`raised, this`cleared, this`seen, this`routers
      ensures State() == DoAll(old(State()), ListingActions(listed, now), now)
      ensures routers == AddRouters(old(routers), listed)
    {
      assert listed[0..] == listed;
      for i := 0 to |listed|
        invariant DoAll(State(), ListingActions(listed[i..], now), now) ==
                  DoAll(old(State()), ListingActions(listed, now), now)
        invariant AddRouters(routers, listed[i..]) == AddRouters(old(routers), listed)
      {
        assert listed[i..][1..] == listed[i + 1..];
        ghost var acts := ListingActions(listed[i..], now);
        assert acts[0] == ListingAction(listed[i], now) && acts[1..] == ListingActions(listed[i + 1..], now);
        routers := AddRouter(routers, listed[i].ext);
        if Stale(listed[i], now) {
          RaiseAlert(Key(RouterOffline, listed[i].ext));
        } else {
          ClearAlert(Key(RouterOffline, listed[i].ext));
        }
      }
    }

    method NetworkHead(net: Network)
      modifies this`active, this`history, this`raised, this`seen, this`leaders
      ensures State() == DoAll(old(State()), HeadActions(old(leaders), net), now)
      ensures leaders == LeaderSet(old(leaders), net)
    {
      ghost var moved := LeaderMoved(leaders, net);
      var leader := LeaderOf(net.routers);
      if leader.Some? && net.ext in leaders && leaders[net.ext] != leader.value {
        NoteAlert(Key(LeaderChanged, net.ext));
      }
      ghost var noted := State();
      if leader.Some? {
        leaders := leaders[net.ext := leader.value];
      }
      if net.partitions > 1 {
        RaiseAlert(Key(Partition, net.ext));
      }
      DoHead(old(State()), old(leaders), net, now);
    }

    method CheckNetworks(nets: seq<Network>)
      modifies this`active, this`history, this`raised, this`cleared, this`seen, this`leaders, this`routers
      ensures State() == DoAll(old(State()), NetActions(old(leaders), nets, now), now)
      ensures leaders == LeadersAfter(old(leaders), nets) && routers == AddRouters(old(routers), Listings(nets))
    {
      hide HeadActions, LeaderSet, ListingActions, AddRouter, Do;
      assert nets[0..] == nets;
      for i := 0 to |nets|
        invariant DoAll(State(), NetActions(leaders, nets[i..], now), now) ==
                  DoAll(old(State()), NetActions(old(leaders), nets, now), now)
        invariant LeadersAfter(leaders, nets[i..]) == LeadersAfter(old(leaders), nets)
        invariant AddRouters(routers, Listings(nets[i..])) == AddRouters(old(routers), Listings(nets))
      {
        assert nets[i..][1..] == nets[i + 1..] && nets[i..][0] == nets[i];
        ghost var head := HeadActions(leaders, nets[i]);
        ghost var middle := ListingActions(nets[i].routers, now);
        ghost var rest := NetActions(LeaderSet(leaders, nets[i]), nets[i + 1..], now);
        DoThree(State(), head, middle, rest, now);
        AddRoutersAppend(routers, nets[i].routers, Listings(nets[i + 1..]));
        NetworkHead(nets[i]);
        ListRouters(nets[i].routers);
      }
    }

    method CheckVanished(listed: seq<Listing>)
      modifies this`active, this`history, this`raised, this`seen
      ensures State() == DoAll(old(State()), VanishedActions(routers, listed), now)
    {
      hide Do, IsListed;
      assert routers[0..] == routers;
      for i := 0 to |routers|
        invariant DoAll(State(), VanishedActions(routers[i..], listed), now) ==
                  DoAll(old(State()), VanishedActions(routers, listed), now)
      {
        assert routers[i..][1..] == routers[i + 1..];
        if !IsListed(listed, routers[i]) {
          DoFirst(State(), Raise(Key(RouterOffline, routers[i])), VanishedActions(routers[i + 1..], listed), now);
          RaiseAlert(Key(RouterOffline, routers[i]));
        } else {
          assert [] + VanishedActions(routers[i + 1..], listed) == VanishedActions(routers[i + 1..], listed);
        }
      }
    }

    method CheckRole(n: Node)
      modifies this`active, this`history, this`raised, this`cleared, this`seen, this`roles
      ensures State() == DoAll(old(State()), RoleActions(old(roles), n), now)
      ensures roles == RoleSet(old(roles), n)
    {
      hide Do;
      if n.thread && n.nodeId != "" && n.role.Some? {
        var key := Key(RoleDropped, n.nodeId);
        var prev := Remembered(roles, n.nodeId);
        DoTwo(State(), Raise(key), Keep(key), now);
        DoTwo(State(), Clear(key), Keep(key), now);
        DoOne(State(), Keep(key), now);
        if prev.Some? && RouterRole(prev.value) && !RouterRole(n.role.value) && n.online {
          RaiseAlert(key);
        } else if RouterRole(n.role.value) {
          ClearAlert(key);
        }
        roles := roles[n.nodeId := n.role.value];
        KeepAlert(key);
      }
    }

    method CheckNodes(nodes: seq<Node>) returns (sets: seq<(string, set<nat>)>)
      modifies this`active, this`history, this`raised, this`cleared, this`seen, this`roles
      ensures State() == DoAll(old(State()), NodeActions(old(roles), nodes), now)
      ensures roles == RolesAfter(old(roles), nodes) && sets == PartSets([], nodes)
    {
      hide RoleActions, RoleSet, Do, AddNode;
      sets := [];
      assert nodes[0..] == nodes;
      for i := 0 to |nodes|
        invariant DoAll(State(), NodeActions(roles, nodes[i..]), now) ==
                  DoAll(old(State()), NodeActions(old(roles), nodes), now)
        invariant RolesAfter(roles, nodes[i..]) == RolesAfter(old(roles), nodes)
        invariant PartSets(sets, nodes[i..]) == PartSets([], nodes)
      {
        assert nodes[i..][1..] == nodes[i + 1..] && nodes[i..][0] == nodes[i];
        DoAllAppend(State(), RoleActions(roles, nodes[i]), NodeActions(RoleSet(roles, nodes[i]), nodes[i + 1..]), now);
        sets := AddNode(sets, nodes[i]);
        CheckRole(nodes[i]);
      }
    }

    method CheckSplit(sets: seq<(string, set<nat>)>)
      modifies this`active, this`history, this`raised, this`seen
      ensures State() == DoAll(old(State()), SplitActions(sets), now)
    {
      hide Do;
      assert sets[0..] == sets;
      for i := 0 to |sets|
        invariant DoAll(State(), SplitActions(sets[i..]), now) == DoAll(old(State()), SplitActions(sets), now)
      {
        assert sets[i..][1..] == sets[i + 1..];
        if |sets[i].1| > 1 {
          DoFirst(State(), Raise(Key(Partition, MeshSubject(sets[i].0))), SplitActions(sets[i + 1..]), now);
          RaiseAlert(Key(Partition, MeshSubject(sets[i].0)));
        } else {
          assert [] + SplitActions(sets[i + 1..]) == SplitActions(sets[i + 1..]);
        }
      }
    }

    method CheckLink(l: Link)
      modifies this`active, this`history, this`raised, this`cleared, this`seen, this`links
      ensures State() == DoAll(old(State()), LinkActionsOf(old(links), l), now)
      ensures links == LinkSet(old(links), l)
    {
      hide Do;
      if l.neighbour {
        var key := Key(LinkDegraded, LinkKey(l));
        var prev := Remembered(links, LinkKey(l));
        DoTwo(State(), Raise(key), Keep(key), now);
        DoTwo(State(), Clear(key), Keep(key), now);
        DoOne(State(), Keep(key), now);
        if prev.Some? && prev.value >= 3 && l.lqi <= 1 {
          RaiseAlert(key);
        } else if l.lqi >= 2 {
          ClearAlert(key);
        }
        KeepAlert(key);
        links := links[LinkKey(l) := l.lqi];
      }
    }

    method CheckLinks(ls: seq<Link>)
      modifies this`active, this`history, this`raised, this`cleared, this`seen, this`links
      ensures State() == DoAll(old(State()), LinkActions(old(links), ls), now)
      ensures links == LinksAfter(old(links), ls)
    {
      hide LinkActionsOf, LinkSet, Do;
      assert ls[0..] == ls;
      for i := 0 to |ls|
        invariant DoAll(State(), LinkActions(links, ls[i..]), now) ==
                  DoAll(old(State()), LinkActions(old(links), ls), now)
        invariant LinksAfter(links, ls[i..]) == LinksAfter(old(links), ls)
      {
        assert ls[i..][1..] == ls[i + 1..] && ls[i..][0] == ls[i];
        DoAllAppend(State(), LinkActionsOf(links, ls[i]), LinkActions(LinkSet(links, ls[i]), ls[i + 1..]), now);
        CheckLink(ls[i]);
      }
    }

    method SweepAlerts()
      modifies this`active, this`history, this`cleared
      ensures State() == Sweep(old(State()), old(active), now)
    {
      hide Do;
      var alerts := active;
      assert alerts[0..] == alerts;
      for i := 0 to |alerts|
        invariant Sweep(State(), alerts[i..], now) == Sweep(old(State()), alerts, now)
      {
        assert alerts[i..][1..] == alerts[i + 1..];
        if alerts[i].key !in seen && !Latched(alerts[i].key.kind) {
          ClearAlert(alerts[i].key);
        }
      }
    }
  }

  method EvaluateSnapshot(m: Memory, s: Snapshot) returns (r: Result)
    ensures r == Evaluate(m, s)
  {
    hide NetActions, VanishedActions, NodeActions, SplitActions, LinkActions, DoAll, Sweep, AddRouters, PartSets;
    var e := new Evaluation(m, s.now);
    ghost var b := e.State();
    var listed := Listings(s.networks);
    e.CheckNetworks(s.networks);
    e.CheckVanished(listed);
    var sets := e.CheckNodes(s.nodes);
    e.CheckSplit(sets);
    e.CheckLinks(s.links);
    DoFive(b, NetActions(m.leaders, s.networks, s.now), VanishedActions(AddRouters(m.routers, listed), listed),
           NodeActions(m.roles, s.nodes), SplitActions(PartSets([], s.nodes)), LinkActions(m.links, s.links), s.now);
    e.SweepAlerts();
    r := Result(Memory(e.leaders, e.routers, e.roles, e.links, e.active, Trim100(e.history)), e.raised, e.cleared);
  }

  // ----- unfolding short lists of actions -----

  lemma DoOne(b: Board, a: Action, now: int)
    ensures DoAll(b, [a], now) == Do(b, a, now) && DoAll(b, [] + [a], now) == Do(b, a, now)
  {
  }

  lemma DoTwo(b: Board, a: Action, c: Action, now: int)
    ensures DoAll(b, [a] + [c], now) == Do(Do(b, a, now), c, now)
  {
    DoAllAppend(b, [a], [c], now);
    DoOne(b, a, now);
    DoOne(Do(b, a, now), c, now);
    hide Do;
  }

  lemma DoFirst(b: Board, a: Action, rest: seq<Action>, now: int)
    ensures DoAll(b, [a] + rest, now) == DoAll(Do(b, a, now), rest, now)
  {
  }

  lemma DoHead(b: Board, leaders: map<string, string>, net: Network, now: int)
    ensures DoAll(b, HeadActions(leaders, net), now) ==
            var noted := if LeaderMoved(leaders, net) then Do(b, Note(Key(LeaderChanged, net.ext)), now) else b;
            if net.partitions > 1 then Do(noted, Raise(Key(Partition, net.ext)), now) else noted
  {
    var note, split := Note(Key(LeaderChanged, net.ext)), Raise(Key(Partition, net.ext));
    DoTwo(b, note, split, now);
    DoOne(b, note, now);
    DoOne(b, split, now);
    assert [note] + [] == [note];
    hide Do, LeaderMoved;
  }

  lemma DoThree(b: Board, x: seq<Action>, y: seq<Action>, z: seq<Action>, now: int)
    ensures DoAll(b, x + y + z, now) == DoAll(DoAll(DoAll(b, x, now), y, now), z, now)
  {
    DoAllAppend(b, x + y, z, now);
    DoAllAppend(b, x, y, now);
    hide DoAll;
  }

  lemma DoFive(b: Board, a: seq<Action>, c: seq<Action>, d: seq<Action>, e: seq<Action>, f: seq<Action>, now: int)
    ensures DoAll(b, a + (c + (d + (e + f))), now) ==
            DoAll(DoAll(DoAll(DoAll(DoAll(b, a, now), c, now), d, now), e, now), f, now)
  {
    DoAllAppend(b, a, c + (d + (e + f)), now);
    DoAllAppend(DoAll(b, a, now), c, d + (e + f), now);
    DoAllAppend(DoAll(DoAll(b, a, now), c, now), d, e + f, now);
    DoAllAppend(DoAll(DoAll(DoAll(b, a, now), c, now), d, now), e, f, now);
    hide DoAll;
  }

  lemma {:induction false} AddRoutersAppend(routers: seq<string>, x: seq<Listing>, y: seq<Listing>)
    ensures AddRouters(routers, x + y) == AddRouters(AddRouters(routers, x), y)
    decreases x
  {
    if x == [] {
      assert x + y == y;
    } else {
      assert (x + y)[1..] == x[1..] + y;
      AddRoutersAppend(AddRouter(routers, x[0].ext), x[1..], y);
    }
  }

  // ---------------------------------------------------------------------------
  // Conservation of alerts
  // ---------------------------------------------------------------------------

  /** Alerts that stay on the board: all but the one-off notes. */
  function Persistent(alerts: seq<Alert>): seq<Alert> {
    if alerts == [] then []
    else
      Persistent(alerts[..|alerts| - 1])
      + (if alerts[|alerts| - 1].key.kind.LeaderChanged? then [] else [alerts[|alerts| - 1]])
  }

  /** What was active or raised is active or cleared, alert by alert. */
  predicate Balanced(before: seq<Alert>, b: Board) {
    multiset(before) + multiset(Persistent(b.raised)) == multiset(b.active) + multiset(b.cleared)
  }

  predicate UniqueKeys(active: seq<Alert>) { forall i, j :: 0 <= i < j < |active| ==> active[i].key != active[j].key }

  /** Notes are for leader changes, and nothing else is about them. */
  predicate Proper(a: Action) { a.Note? <==> a.key.kind.LeaderChanged? }

  predicate AllProper(actions: seq<Action>) { forall i :: 0 <= i < |actions| ==> Proper(actions[i]) }

  lemma PersistentAppend(alerts: seq<Alert>, a: Alert)
    ensures Persistent(alerts + [a]) ==
            if a.key.kind.LeaderChanged? then Persistent(alerts) else Persistent(alerts) + [a]
  {
  }

  lemma WithoutCounts(active: seq<Alert>, i: nat)
    requires i < |active|
    ensures multiset(Without(active, i)) + multiset{active[i]} == multiset(active)
  {
    assert active == active[..i] + ([active[i]] + active[i + 1..]);
  }

  lemma CountAppend(alerts: seq<Alert>, a: Alert)
    ensures multiset(alerts + [a]) == multiset(alerts) + multiset{a}
  {
  }

  /** One more on both sides, or one moved from the active to the cleared. */
  lemma StillBalanced(before: multiset<Alert>, raised: multiset<Alert>, active: multiset<Alert>,
                      cleared: multiset<Alert>,
                      one: multiset<Alert>, rest: multiset<Alert>)
    requires before + raised == active + cleared
    ensures before + (raised + one) == (active + one) + cleared
    ensures rest + one == active ==> before + raised == rest + (cleared + one)
  {
    forall a ensures (before + (raised + one))[a] == ((active + one) + cleared)[a] {
      assert (before + raised)[a] == (active + cleared)[a];
    }
    if rest + one == active {
      forall a ensures (before + raised)[a] == (rest + (cleared + one))[a] {
        assert (before + raised)[a] == (active + cleared)[a] && (rest + one)[a] == active[a];
      }
    }
  }

  lemma DoBalanced(before: seq<Alert>, b: Board, a: Action, now: int)
    requires Balanced(before, b) && Proper(a)
    ensures Balanced(before, Do(b, a, now))
  {
    hide Persistent, Without, Has;
    PersistentAppend(b.raised, Alert(a.key, now));
    match a {
      case Raise(key) =>
        CountAppend(b.active, Alert(key, now));
        CountAppend(Persistent(b.raised), Alert(key, now));
        StillBalanced(multiset(before), multiset(Persistent(b.raised)), multiset(b.active), multiset(b.cleared),
                      multiset{Alert(key, now)}, multiset{});
      case Clear(key) =>
        if Has(b.active, key) {
          var i := IndexOf(b.active, key);
          WithoutCounts(b.active, i);
          CountAppend(b.cleared, b.active[i]);
          StillBalanced(multiset(before), multiset(Persistent(b.raised)), multiset(b.active), multiset(b.cleared),
                        multiset{b.active[i]}, multiset(Without(b.active, i)));
        }
      case Note(key) =>
      case Keep(key) =>
    }
  }

  lemma DoUnique(b: Board, a: Action, now: int)
    requires UniqueKeys(b.active)
    ensures UniqueKeys(Do(b, a, now).active)
  {
  }

  lemma {:induction false} DoAllKeeps(before: seq<Alert>, b: Board, actions: seq<Action>, now: int)
    requires Balanced(before, b) && UniqueKeys(b.active) && AllProper(actions)
    ensures Balanced(before, DoAll(b, actions, now)) && UniqueKeys(DoAll(b, actions, now).active)
    decreases actions
  {
    hide Balanced, UniqueKeys, Do;
    if actions != [] {
      DoBalanced(before, b, actions[0], now);
      DoUnique(b, actions[0], now);
      DoAllKeeps(before, Do(b, actions[0], now), actions[1..], now);
    }
  }

  lemma {:induction false} SweepKeeps(before: seq<Alert>, b: Board, alerts: seq<Alert>, now: int)
    requires Balanced(before, b) && UniqueKeys(b.active)
    requires forall i :: 0 <= i < |alerts| ==> !alerts[i].key.kind.LeaderChanged?
    ensures Balanced(before, Sweep(b, alerts, now)) && UniqueKeys(Sweep(b, alerts, now).active)
    ensures Sweep(b, alerts, now).raised == b.raised
    decreases alerts
  {
    if alerts != [] {
      if alerts[0].key in b.seen || Latched(alerts[0].key.kind) {
        SweepKeeps(before, b, alerts[1..], now);
      } else {
        DoBalanced(before, b, Clear(alerts[0].key), now);
        DoUnique(b, Clear(alerts[0].key), now);
        SweepKeeps(before, Do(b, Clear(alerts[0].key), now), alerts[1..], now);
      }
    }
    hide Balanced, UniqueKeys;
  }

  /** The remembered alerts are persistent ones with distinct keys. */
  predicate ValidMemory(m: Memory) {
    && UniqueKeys(m.active) && |m.history| <= HISTORY_MAX
    && forall i :: 0 <= i < |m.active| ==> !m.active[i].key.kind.LeaderChanged?
  }

  // ----- the actions are proper -----

  lemma ProperAppend(x: seq<Action>, y: seq<Action>)
    requires AllProper(x) && AllProper(y)
    ensures AllProper(x + y)
  {
  }

  lemma {:induction false} ListingProper(routers: seq<Listing>, now: int)
    ensures AllProper(ListingActions(routers, now))
  {
    if routers != [] {
      ListingProper(routers[1..], now);
      ProperAppend([ListingAction(routers[0], now)], ListingActions(routers[1..], now));
    }
  }

  lemma HeadProper(leaders: map<string, string>, net: Network)
    ensures AllProper(HeadActions(leaders, net))
  {
  }

  lemma {:induction false} NetProper(leaders: map<string, string>, nets: seq<Network>, now: int)
    ensures AllProper(NetActions(leaders, nets, now))
    decreases nets
  {
    hide HeadActions, LeaderSet;
    if nets != [] {
      NetProper(LeaderSet(leaders, nets[0]), nets[1..], now);
      ListingProper(nets[0].routers, now);
      HeadProper(leaders, nets[0]);
      ProperAppend(HeadActions(leaders, nets[0]), ListingActions(nets[0].routers, now));
      ProperAppend(HeadActions(leaders, nets[0]) + ListingActions(nets[0].routers, now),
                   NetActions(LeaderSet(leaders, nets[0]), nets[1..], now));
    }
  }

  lemma {:induction false} VanishedProper(routers: seq<string>, listed: seq<Listing>)
    ensures AllProper(VanishedActions(routers, listed))
    decreases routers
  {
    hide IsListed;
    if routers != [] {
      VanishedProper(routers[1..], listed);
    }
  }

  lemma {:induction false} NodesProper(roles: map<string, nat>, nodes: seq<Node>)
    ensures AllProper(NodeActions(roles, nodes))
    decreases nodes
  {
    if nodes != [] {
      NodesProper(RoleSet(roles, nodes[0]), nodes[1..]);
    }
    hide RoleSet;
  }

  lemma {:induction false} SplitProper(sets: seq<(string, set<nat>)>)
    ensures AllProper(SplitActions(sets))
    decreases sets
  {
    if sets != [] {
      SplitProper(sets[1..]);
    }
  }

  lemma {:induction false} LinksProper(links: map<string, int>, ls: seq<Link>)
    ensures AllProper(LinkActions(links, ls))
    decreases ls
  {
    if ls != [] {
      LinksProper(LinkSet(links, ls[0]), ls[1..]);
    }
    hide LinkSet;
  }

  lemma ActionsProper(m: Memory, s: Snapshot)
    ensures AllProper(Actions(m, s))
  {
    var listed := Listings(s.networks);
    var net := NetActions(m.leaders, s.networks, s.now);
    var gone := VanishedActions(AddRouters(m.routers, listed), listed);
    var roles, split, links := NodeActions(m.roles, s.nodes), SplitActions(PartSets([], s.nodes)),
        LinkActions(m.links, s.links);
    NetProper(m.leaders, s.networks, s.now);
    VanishedProper(AddRouters(m.routers, listed), listed);
    NodesProper(m.roles, s.nodes);
    SplitProper(PartSets([], s.nodes));
    LinksProper(m.links, s.links);
    ProperAppend(split, links);
    ProperAppend(roles, split + links);
    ProperAppend(gone, roles + (split + links));
    ProperAppend(net, gone + (roles + (split + links)));
    hide *;
  }

  lemma {:induction false} DoAllPersistent(b: Board, actions: seq<Action>, now: int)
    requires AllProper(actions) && forall i :: 0 <= i < |b.active| ==> !b.active[i].key.kind.LeaderChanged?
    ensures forall i :: 0 <= i < |DoAll(b, actions, now).active| ==>
            !DoAll(b, actions, now).active[i].key.kind.LeaderChanged?
    decreases actions
  {
    if actions != [] {
      assert Proper(actions[0]);
      DoAllPersistent(Do(b, actions[0], now), actions[1..], now);
    }
  }

  lemma {:induction false} SweepPersistent(b: Board, alerts: seq<Alert>, now: int)
    requires forall i :: 0 <= i < |b.active| ==> !b.active[i].key.kind.LeaderChanged?
    ensures forall i :: 0 <= i < |Sweep(b, alerts, now).active| ==>
            !Sweep(b, alerts, now).active[i].key.kind.LeaderChanged?
    decreases alerts
  {
    if alerts != [] {
      SweepPersistent(if alerts[0].key in b.seen || Latched(alerts[0].key.kind) then b
                      else Do(b, Clear(alerts[0].key), now), alerts[1..], now);
    }
  }

  /**
   * Every evaluation conserves alerts: those active before and the persistent ones raised are
   * exactly those active after and those cleared; keys stay distinct and the history bounded.
   */
  lemma AlertsConserved(m: Memory, s: Snapshot)
    requires ValidMemory(m)
    ensures var r := Evaluate(m, s);
            && multiset(m.active) + multiset(Persistent(r.raised)) == multiset(r.memory.active) + multiset(r.cleared)
            && |r.memory.active| == |m.active| + |Persistent(r.raised)| - |r.cleared|
            && ValidMemory(r.memory)
  {
    var b := Board(m.active, m.history, [], [], {});
    var done := DoAll(b, Actions(m, s), s.now);
    assert Balanced(m.active, b);
    ActionsProper(m, s);
    DoAllKeeps(m.active, b, Actions(m, s), s.now);
    DoAllPersistent(b, Actions(m, s), s.now);
    SweepKeeps(m.active, done, done.active, s.now);
    SweepPersistent(done, done.active, s.now);
    hide DoAll, Actions, Sweep, UniqueKeys, AllProper;
    var r := Evaluate(m, s);
    assert |multiset(m.active) + multiset(Persistent(r.raised))| == |multiset(r.memory.active) + multiset(r.cleared)|;
  }

  // ---------------------------------------------------------------------------
  // Which alerts stand after the evaluation
  // ---------------------------------------------------------------------------

  /** Whether an alert stands after the actions, given whether it stood before: the last word counts. */
  function Standing(had: bool, actions: seq<Action>, key: Key): bool
    decreases actions
  {
    if actions == [] then had
    else
      Standing(if actions[0] == Raise(key) then true else if actions[0] == Clear(key) then false else had,
               actions[1..], key)
  }

  lemma WithoutHas(active: seq<Alert>, i: nat, key: Key)
    requires i < |active| && UniqueKeys(active)
    ensures Has(Without(active, i), key) <==> Has(active, key) && active[i].key != key
  {
    var rest := Without(active, i);
    if Has(active, key) && active[i].key != key {
      var k :| 0 <= k < |active| && active[k].key == key;
      assert k < i ==> rest[k].key == key;
      assert k > i ==> rest[k - 1].key == key;
    }
    if k :| 0 <= k < |rest| && rest[k].key == key {
      assert rest[k] == active[if k < i then k else k + 1];
    }
  }

  lemma DoStanding(b: Board, a: Action, now: int, key: Key)
    requires UniqueKeys(b.active)
    ensures Has(Do(b, a, now).active, key) ==
            if a == Raise(key) then true else if a == Clear(key) then false else Has(b.active, key)
  {
    match a {
      case Raise(k) =>
        var more := b.active + [Alert(k, now)];
        assert more[|b.active|].key == k;
        if Has(b.active, key) {
          var i :| 0 <= i < |b.active| && b.active[i].key == key;
          assert more[i].key == key;
        }
      case Clear(k) =>
        if Has(b.active, k) {
          WithoutHas(b.active, IndexOf(b.active, k), key);
        }
      case Note(k) =>
      case Keep(k) =>
    }
  }

  lemma {:induction false} DoAllStanding(b: Board, actions: seq<Action>, now: int, key: Key)
    requires UniqueKeys(b.active)
    ensures Has(DoAll(b, actions, now).active, key) == Standing(Has(b.active, key), actions, key)
    ensures Raise(key) in actions ==> key in DoAll(b, actions, now).seen
    ensures key in b.seen ==> key in DoAll(b, actions, now).seen
    ensures key in DoAll(b, actions, now).seen ==> key in b.seen || Raise(key) in actions || Keep(key) in actions
    decreases actions
  {
    hide Has, UniqueKeys;
    if actions != [] {
      DoStanding(b, actions[0], now, key);
      DoUnique(b, actions[0], now);
      DoAllStanding(Do(b, actions[0], now), actions[1..], now, key);
    }
  }

  lemma {:induction false} SweepStanding(b: Board, alerts: seq<Alert>, now: int, key: Key)
    requires UniqueKeys(b.active)
    ensures Has(Sweep(b, alerts, now).active, key) <==>
            Has(b.active, key) && (key in b.seen || Latched(key.kind) || !Has(alerts, key))
    decreases alerts
  {
    if alerts != [] {
      HasStep(alerts, key);
      if alerts[0].key in b.seen || Latched(alerts[0].key.kind) {
        SweepStanding(b, alerts[1..], now, key);
      } else {
        DoStanding(b, Clear(alerts[0].key), now, key);
        DoUnique(b, Clear(alerts[0].key), now);
        SweepStanding(Do(b, Clear(alerts[0].key), now), alerts[1..], now, key);
      }
    }
    hide UniqueKeys;
  }

  lemma HasStep(alerts: seq<Alert>, key: Key)
    requires alerts != []
    ensures Has(alerts, key) <==> alerts[0].key == key || Has(alerts[1..], key)
  {
  }

  /**
   * After the evaluation an alert stands if the actions leave it standing and, unless latched, the run
   * confirmed it.
   */
  lemma Stands(m: Memory, s: Snapshot, key: Key)
    requires ValidMemory(m) && (Latched(key.kind) || Keep(key) !in Actions(m, s))
    ensures Has(Evaluate(m, s).memory.active, key) <==>
            Standing(Has(m.active, key), Actions(m, s), key) && (Latched(key.kind) || Raise(key) in Actions(m, s))
  {
    var b := Board(m.active, m.history, [], [], {});
    var done := DoAll(b, Actions(m, s), s.now);
    ActionsProper(m, s);
    assert Balanced(m.active, b);
    DoAllKeeps(m.active, b, Actions(m, s), s.now);
    DoAllStanding(b, Actions(m, s), s.now, key);
    SweepStanding(done, done.active, s.now, key);
    hide Actions, DoAll, Sweep, Has, UniqueKeys, Balanced, AllProper;
  }

  // ----- the parts of the action list -----

  predicate OnlyKind(actions: seq<Action>, kind: Kind) {
    forall i :: 0 <= i < |actions| ==> actions[i].key.kind == kind
  }

  lemma {:induction false} StandingAppend(had: bool, x: seq<Action>, y: seq<Action>, key: Key)
    ensures Standing(had, x + y, key) == Standing(Standing(had, x, key), y, key)
    decreases x
  {
    if x == [] {
      assert x + y == y;
    } else {
      assert (x + y)[1..] == x[1..] + y;
      StandingAppend(if x[0] == Raise(key) then true else if x[0] == Clear(key) then false else had, x[1..], y, key);
    }
  }

  lemma {:induction false} StandingOther(had: bool, actions: seq<Action>, key: Key)
    requires forall i :: 0 <= i < |actions| ==> actions[i].key != key
    ensures Standing(had, actions, key) == had && Raise(key) !in actions && Keep(key) !in actions
    decreases actions
  {
    if actions != [] {
      StandingOther(had, actions[1..], key);
    }
  }

  lemma {:induction false} VanishedKind(routers: seq<string>, listed: seq<Listing>)
    ensures OnlyKind(VanishedActions(routers, listed), RouterOffline)
    decreases routers
  {
    hide IsListed;
    if routers != [] {
      VanishedKind(routers[1..], listed);
    }
  }

  lemma {:induction false} NodesKind(roles: map<string, nat>, nodes: seq<Node>)
    ensures OnlyKind(NodeActions(roles, nodes), RoleDropped)
    decreases nodes
  {
    if nodes != [] {
      NodesKind(RoleSet(roles, nodes[0]), nodes[1..]);
    }
    hide RoleSet;
  }

  lemma {:induction false} SplitKind(sets: seq<(string, set<nat>)>)
    ensures OnlyKind(SplitActions(sets), Partition)
    decreases sets
  {
    if sets != [] {
      SplitKind(sets[1..]);
    }
  }

  lemma {:induction false} LinksKind(links: map<string, int>, ls: seq<Link>)
    ensures OnlyKind(LinkActions(links, ls), LinkDegraded)
    decreases ls
  {
    if ls != [] {
      LinksKind(LinkSet(links, ls[0]), ls[1..]);
    }
    hide LinkSet;
  }

  predicate NetKind(a: Action) { a.key.kind.LeaderChanged? || a.key.kind.Partition? || a.key.kind.RouterOffline? }

  lemma {:induction false} ListingKind(routers: seq<Listing>, now: int)
    ensures OnlyKind(ListingActions(routers, now), RouterOffline)
  {
    if routers != [] {
      ListingKind(routers[1..], now);
    }
  }

  lemma {:induction false} NetKinds(leaders: map<string, string>, nets: seq<Network>, now: int)
    ensures forall i :: 0 <= i < |NetActions(leaders, nets, now)| ==>
                          NetKind(NetActions(leaders, nets, now)[i]) && !NetActions(leaders, nets, now)[i].Keep?
    decreases nets
  {
    if nets != [] {
      NetKinds(LeaderSet(leaders, nets[0]), nets[1..], now);
      ListingKind(nets[0].routers, now);
      NoKeepListing(nets[0].routers, now);
    }
    hide LeaderSet, LeaderMoved;
  }

  lemma {:induction false} NoKeepListing(routers: seq<Listing>, now: int)
    ensures forall i :: 0 <= i < |ListingActions(routers, now)| ==> !ListingActions(routers, now)[i].Keep?
  {
    if routers != [] {
      NoKeepListing(routers[1..], now);
    }
  }

  // ----- partitions -----

  /** Some network of the snapshot announces more than one partition. */
  predicate NetworkSplit(nets: seq<Network>, subject: string) {
    exists i :: 0 <= i < |nets| && nets[i].ext == subject && nets[i].partitions > 1
  }

  /** The partition ids the nodes of a network report. */
  function Reported(nodes: seq<Node>, name: string): set<nat> {
    set i | 0 <= i < |nodes| && Reports(nodes[i]) && nodes[i].network.value == name :: nodes[i].partition.value
  }

  ghost predicate MeshSplit(nodes: seq<Node>, subject: string) {
    exists name :: subject == MeshSubject(name) && |Reported(nodes, name)| > 1
  }

  lemma {:induction false} NetRaises(leaders: map<string, string>, nets: seq<Network>, now: int, subject: string)
    ensures Raise(Key(Partition, subject)) in NetActions(leaders, nets, now) <==> NetworkSplit(nets, subject)
    ensures Clear(Key(Partition, subject)) !in NetActions(leaders, nets, now)
    decreases nets
  {
    if nets != [] {
      var net, rest := nets[0], nets[1..];
      NetRaises(LeaderSet(leaders, net), rest, now, subject);
      ListingKind(net.routers, now);
      HeadRaises(leaders, net, subject);
      if i :| 0 <= i < |nets| && nets[i].ext == subject && nets[i].partitions > 1 {
        assert i > 0 ==> rest[i - 1] == nets[i];
      }
      if i :| 0 <= i < |rest| && rest[i].ext == subject && rest[i].partitions > 1 {
        assert nets[i + 1] == rest[i];
      }
      hide HeadActions, LeaderSet;
      assert NetActions(leaders, nets, now) ==
             HeadActions(leaders, net) + ListingActions(net.routers, now)
                 + NetActions(LeaderSet(leaders, net), rest, now);
    }
  }

  lemma HeadRaises(leaders: map<string, string>, net: Network, subject: string)
    ensures Raise(Key(Partition, subject)) in HeadActions(leaders, net) <==> net.ext == subject && net.partitions > 1
    ensures Clear(Key(Partition, subject)) !in HeadActions(leaders, net)
  {
  }

  /** The sets collected are exactly the reported ones, one for each network. */
  predicate SetsAre(sets: seq<(string, set<nat>)>, done: seq<Node>) {
    && (forall i :: 0 <= i < |sets| ==> sets[i].1 == Reported(done, sets[i].0))
    && (forall k :: 0 <= k < |done| && Reports(done[k]) ==>
          exists i :: 0 <= i < |sets| && sets[i].0 == done[k].network.value)
  }

  lemma ReportedAppend(done: seq<Node>, n: Node, name: string)
    ensures Reported(done + [n], name) ==
            Reported(done, name) + (if Reports(n) && n.network.value == name then {n.partition.value} else {})
  {
    var all := done + [n];
    assert all[|done|] == n;
    forall p | p in Reported(done, name) ensures p in Reported(all, name) {
      var i :| 0 <= i < |done| && Reports(done[i]) && done[i].network.value == name && done[i].partition.value == p;
      assert all[i] == done[i];
    }
    forall p | p in Reported(all, name)
      ensures p in Reported(done, name) || (Reports(n) && n.network.value == name && p == n.partition.value)
    {
      var i :| 0 <= i < |all| && Reports(all[i]) && all[i].network.value == name && all[i].partition.value == p;
      assert i < |done| ==> all[i] == done[i];
    }
  }

  predicate OneSetEach(sets: seq<(string, set<nat>)>) { forall i, j :: 0 <= i < j < |sets| ==> sets[i].0 != sets[j].0 }

  lemma AddPartAt(sets: seq<(string, set<nat>)>, name: string, part: nat)
    requires OneSetEach(sets)
    ensures var later := AddPart(sets, name, part);
            && OneSetEach(later) && |sets| <= |later| <= |sets| + 1
            && (forall i :: 0 <= i < |sets| ==>
                  && later[i].0 == sets[i].0
                  && later[i].1 == sets[i].1 + (if sets[i].0 == name then {part} else {}))
            && ((forall i :: 0 <= i < |sets| ==> sets[i].0 != name) <==> |later| == |sets| + 1)
            && (|later| > |sets| ==> later[|sets|] == (name, {part}))
  {
  }

  lemma AddNodeKeeps(sets: seq<(string, set<nat>)>, done: seq<Node>, n: Node)
    requires SetsAre(sets, done) && OneSetEach(sets)
    ensures SetsAre(AddNode(sets, n), done + [n]) && OneSetEach(AddNode(sets, n))
  {
    var later := AddNode(sets, n);
    var all := done + [n];
    if Reports(n) {
      AddPartAt(sets, n.network.value, n.partition.value);
    }
    forall i | 0 <= i < |later| ensures later[i].1 == Reported(all, later[i].0) {
      ReportedAppend(done, n, later[i].0);
      if i >= |sets| {
        assert Reported(done, later[i].0) == {};
      }
    }
    forall k | 0 <= k < |all| && Reports(all[k])
        ensures exists i :: 0 <= i < |later| && later[i].0 == all[k].network.value {
      if k < |done| {
        assert all[k] == done[k];
        var i :| 0 <= i < |sets| && sets[i].0 == done[k].network.value;
        assert later[i].0 == sets[i].0;
      } else if |later| > |sets| {
        assert later[|sets|].0 == n.network.value;
      } else {
        var i :| 0 <= i < |sets| && sets[i].0 == n.network.value;
        assert later[i].0 == n.network.value;
      }
    }
    hide Reported;
  }

  lemma {:induction false} PartSetsAre(sets: seq<(string, set<nat>)>, done: seq<Node>, nodes: seq<Node>)
    requires SetsAre(sets, done) && OneSetEach(sets)
    ensures SetsAre(PartSets(sets, nodes), done + nodes)
    decreases nodes
  {
    if nodes == [] {
      assert done + nodes == done;
    } else {
      AddNodeKeeps(sets, done, nodes[0]);
      assert done + [nodes[0]] + nodes[1..] == done + nodes;
      PartSetsAre(AddNode(sets, nodes[0]), done + [nodes[0]], nodes[1..]);
    }
    hide SetsAre, AddNode, OneSetEach;
  }

  lemma {:induction false} SplitRaises(sets: seq<(string, set<nat>)>, subject: string)
    ensures Raise(Key(Partition, subject)) in SplitActions(sets) <==>
            exists i :: 0 <= i < |sets| && MeshSubject(sets[i].0) == subject && |sets[i].1| > 1
    ensures Clear(Key(Partition, subject)) !in SplitActions(sets)
    decreases sets
  {
    if sets != [] {
      SplitRaises(sets[1..], subject);
      if i :| 0 <= i < |sets| && MeshSubject(sets[i].0) == subject && |sets[i].1| > 1 {
        assert i > 0 ==> sets[1..][i - 1] == sets[i];
      }
      if i :| 0 <= i < |sets| - 1 && MeshSubject(sets[1..][i].0) == subject && |sets[1..][i].1| > 1 {
        assert sets[i + 1] == sets[1..][i];
      }
    }
    hide MeshSubject;
  }

  lemma NoSets()
    ensures SetsAre([], []) && OneSetEach([])
  {
  }

  lemma MeshRaises(nodes: seq<Node>, subject: string)
    ensures Raise(Key(Partition, subject)) in SplitActions(PartSets([], nodes)) <==> MeshSplit(nodes, subject)
  {
    hide MeshSubject, PartSets, Reported, SplitActions;
    var sets := PartSets([], nodes);
    NoSets();
    PartSetsAre([], [], nodes);
    assert [] + nodes == nodes;
    SplitRaises(sets, subject);
    if name :| subject == MeshSubject(name) && |Reported(nodes, name)| > 1 {
      SetOf(sets, nodes, name);
    }
  }

  lemma SetOf(sets: seq<(string, set<nat>)>, nodes: seq<Node>, name: string)
    requires SetsAre(sets, nodes) && |Reported(nodes, name)| > 1
    ensures exists i :: 0 <= i < |sets| && sets[i].0 == name && |sets[i].1| > 1
  {
  }

  /** After an evaluation a partition alert stands exactly when the snapshot shows the split. */
  lemma PartitionAlertsExactly(m: Memory, s: Snapshot, subject: string)
    requires ValidMemory(m)
    ensures Has(Evaluate(m, s).memory.active, Key(Partition, subject)) <==>
            NetworkSplit(s.networks, subject) || MeshSplit(s.nodes, subject)
  {
    var key := Key(Partition, subject);
    PartsOf(m, s, key);
    NetRaises(m.leaders, s.networks, s.now, subject);
    MeshRaises(s.nodes, subject);
    SplitRaises(PartSets([], s.nodes), subject);
    RaisedNotCleared(Has(m.active, key), Actions(m, s), key);
    Stands(m, s, key);
    hide *;
  }

  lemma {:induction false} RaisedNotCleared(had: bool, actions: seq<Action>, key: Key)
    requires Clear(key) !in actions
    ensures Standing(had, actions, key) == (had || Raise(key) in actions)
    decreases actions
  {
    if actions != [] {
      RaisedNotCleared(had || actions[0] == Raise(key), actions[1..], key);
    }
  }

  /** Which part of the action list speaks of which kind of alert. */
  lemma PartsOf(m: Memory, s: Snapshot, key: Key)
    ensures var listed := Listings(s.networks);
            var net := NetActions(m.leaders, s.networks, s.now);
            var gone := VanishedActions(AddRouters(m.routers, listed), listed);
            var roles, split, links := NodeActions(m.roles, s.nodes), SplitActions(PartSets([], s.nodes)),
                LinkActions(m.links, s.links);
            && (forall a :: a in Actions(m, s) <==> a in net || a in gone || a in roles || a in split || a in links)
            && (forall a :: a in net ==> NetKind(a) && !a.Keep?)
            && (forall a :: a in gone ==> a.key.kind.RouterOffline? && a.Raise?)
            && (forall a :: a in roles ==> a.key.kind.RoleDropped?)
            && (forall a :: a in split ==> a.key.kind.Partition? && a.Raise?)
            && (forall a :: a in links ==> a.key.kind.LinkDegraded?)
  {
    var listed := Listings(s.networks);
    NetKinds(m.leaders, s.networks, s.now);
    VanishedKind(AddRouters(m.routers, listed), listed);
    VanishedRaise(AddRouters(m.routers, listed), listed);
    NodesKind(m.roles, s.nodes);
    SplitKind(PartSets([], s.nodes));
    SplitRaise(PartSets([], s.nodes));
    LinksKind(m.links, s.links);
    hide NetActions, VanishedActions, NodeActions, SplitActions, LinkActions, PartSets, AddRouters, Listings, NetKind;
  }

  lemma {:induction false} VanishedRaise(routers: seq<string>, listed: seq<Listing>)
    ensures forall i :: 0 <= i < |VanishedActions(routers, listed)| ==> VanishedActions(routers, listed)[i].Raise?
    decreases routers
  {
    hide IsListed;
    if routers != [] {
      VanishedRaise(routers[1..], listed);
    }
  }

  lemma {:induction false} SplitRaise(sets: seq<(string, set<nat>)>)
    ensures forall i :: 0 <= i < |SplitActions(sets)| ==> SplitActions(sets)[i].Raise?
    decreases sets
  {
    if sets != [] {
      SplitRaise(sets[1..]);
    }
  }

  // ----- border routers -----

  /** Whether the last listing of the router is stale. */
  predicate LastStale(listed: seq<Listing>, ext: string, now: int) {
    listed != [] &&
    var last := listed[|listed| - 1];
    if last.ext == ext then Stale(last, now) else LastStale(listed[..|listed| - 1], ext, now)
  }

  lemma {:induction false} ListingsAppend(x: seq<Listing>, y: seq<Listing>, now: int)
    ensures ListingActions(x + y, now) == ListingActions(x, now) + ListingActions(y, now)
  {
    if x == [] {
      assert x + y == y;
    } else {
      assert (x + y)[1..] == x[1..] + y;
      ListingsAppend(x[1..], y, now);
    }
  }

  lemma IsListedFront(listed: seq<Listing>, ext: string)
    requires listed != []
    ensures IsListed(listed, ext) <==> listed[|listed| - 1].ext == ext || IsListed(listed[..|listed| - 1], ext)
  {
  }

  lemma OneListing(l: Listing, now: int)
    ensures ListingActions([l], now) == [ListingAction(l, now)]
  {
  }

  lemma OneStanding(had: bool, a: Action, key: Key)
    ensures Standing(had, [a], key) == if a == Raise(key) then true else if a == Clear(key) then false else had
  {
  }

  lemma {:induction false} ListingStanding(had: bool, listed: seq<Listing>, now: int, ext: string)
    ensures var key := Key(RouterOffline, ext);
            && Standing(had, ListingActions(listed, now), key) ==
                (if IsListed(listed, ext) then LastStale(listed, ext, now) else had)
            && (Raise(key) in ListingActions(listed, now) ==> IsListed(listed, ext))
            && (LastStale(listed, ext, now) ==> Raise(key) in ListingActions(listed, now))
  {
    if listed != [] {
      var n := |listed| - 1;
      var front, last := listed[..n], listed[n];
      var key := Key(RouterOffline, ext);
      ListingStanding(had, front, now, ext);
      assert front + [last] == listed;
      ListingsAppend(front, [last], now);
      OneListing(last, now);
      StandingAppend(had, ListingActions(front, now), [ListingAction(last, now)], key);
      OneStanding(Standing(had, ListingActions(front, now), key), ListingAction(last, now), key);
      IsListedFront(listed, ext);
      hide ListingActions, Standing, IsListed;
    }
  }

  /** As far as border routers go, the network part is the listings in order. */
  lemma {:induction false} NetIsListings(had: bool, leaders: map<string, string>, nets: seq<Network>, now: int,
      ext: string)
    ensures var key := Key(RouterOffline, ext);
            && Standing(had, NetActions(leaders, nets, now), key) ==
                Standing(had, ListingActions(Listings(nets), now), key)
            && (Raise(key) in NetActions(leaders, nets, now) <==> Raise(key) in ListingActions(Listings(nets), now))
    decreases nets
  {
    if nets != [] {
      var net, rest := nets[0], nets[1..];
      var key := Key(RouterOffline, ext);
      var head, own := HeadActions(leaders, net), ListingActions(net.routers, now);
      var later := NetActions(LeaderSet(leaders, net), rest, now);
      HeadOther(leaders, net, key);
      StandingOther(had, head, key);
      StandingAppend(had, head + own, later, key);
      StandingAppend(had, head, own, key);
      NetIsListings(Standing(had, own, key), LeaderSet(leaders, net), rest, now, ext);
      ListingsAppend(net.routers, Listings(rest), now);
      StandingAppend(had, own, ListingActions(Listings(rest), now), key);
      assert NetActions(leaders, nets, now) == head + own + later;
      hide HeadActions, Standing, ListingActions, LeaderSet;
    }
  }

  lemma HeadOther(leaders: map<string, string>, net: Network, key: Key)
    requires key.kind.RouterOffline?
    ensures forall i :: 0 <= i < |HeadActions(leaders, net)| ==> HeadActions(leaders, net)[i].key != key
  {
  }

  lemma {:induction false} AddRoutersKnows(routers: seq<string>, listed: seq<Listing>, ext: string)
    ensures ext in AddRouters(routers, listed) <==> ext in routers || IsListed(listed, ext)
    decreases listed
  {
    if listed != [] {
      AddRoutersKnows(AddRouter(routers, listed[0].ext), listed[1..], ext);
      if i :| 0 <= i < |listed| && listed[i].ext == ext {
        assert i > 0 ==> listed[1..][i - 1] == listed[i];
      }
      if i :| 0 <= i < |listed| - 1 && listed[1..][i].ext == ext {
        assert listed[i + 1] == listed[1..][i];
      }
    }
  }

  lemma {:induction false} VanishedRaises(routers: seq<string>, listed: seq<Listing>, ext: string)
    ensures Raise(Key(RouterOffline, ext)) in VanishedActions(routers, listed) <==>
            ext in routers && !IsListed(listed, ext)
    ensures Clear(Key(RouterOffline, ext)) !in VanishedActions(routers, listed)
    decreases routers
  {
    if routers != [] {
      VanishedRaises(routers[1..], listed, ext);
      assert [routers[0]] + routers[1..] == routers;
    }
    hide IsListed;
  }

  /** Actions after the network part speak of a border router only where it vanished. */
  lemma SplitStanding(had: bool, m: Memory, s: Snapshot, key: Key)
    ensures var listed := Listings(s.networks);
            Standing(had, Actions(m, s), key) ==
            Standing(Standing(Standing(Standing(Standing(had, NetActions(m.leaders, s.networks, s.now), key),
                     VanishedActions(AddRouters(m.routers, listed), listed), key), NodeActions(m.roles, s.nodes), key),
                     SplitActions(PartSets([], s.nodes)), key), LinkActions(m.links, s.links), key)
  {
    var listed := Listings(s.networks);
    var net := NetActions(m.leaders, s.networks, s.now);
    var gone := VanishedActions(AddRouters(m.routers, listed), listed);
    var roles, split, links := NodeActions(m.roles, s.nodes), SplitActions(PartSets([], s.nodes)),
        LinkActions(m.links, s.links);
    StandingAppend(had, net, gone + (roles + (split + links)), key);
    StandingAppend(Standing(had, net, key), gone, roles + (split + links), key);
    StandingAppend(Standing(Standing(had, net, key), gone, key), roles, split + links, key);
    StandingAppend(Standing(Standing(Standing(had, net, key), gone, key), roles, key), split, links, key);
    hide Standing;
  }

  lemma {:induction false} OtherKind(had: bool, actions: seq<Action>, key: Key)
    requires forall a :: a in actions ==> a.key.kind != key.kind
    ensures Standing(had, actions, key) == had
  {
    if actions != [] {
      assert actions[0] in actions;
      OtherKind(had, actions[1..], key);
    }
  }

  /**
   * After an evaluation a border router's alert stands exactly when its last listing is stale or,
   * where no network lists it, it is a known router.
   */
  lemma RouterAlertsExactly(m: Memory, s: Snapshot, ext: string)
    requires ValidMemory(m)
    ensures var listed := Listings(s.networks);
            Has(Evaluate(m, s).memory.active, Key(RouterOffline, ext)) <==>
            if IsListed(listed, ext) then LastStale(listed, ext, s.now) else ext in m.routers
  {
    var key := Key(RouterOffline, ext);
    var listed := Listings(s.networks);
    var had := Has(m.active, key);
    var net := Standing(had, NetActions(m.leaders, s.networks, s.now), key);
    var gone := VanishedActions(AddRouters(m.routers, listed), listed);
    PartsOf(m, s, key);
    SplitStanding(had, m, s, key);
    NetIsListings(had, m.leaders, s.networks, s.now, ext);
    ListingStanding(had, listed, s.now, ext);
    VanishedRaises(AddRouters(m.routers, listed), listed, ext);
    AddRoutersKnows(m.routers, listed, ext);
    RaisedNotCleared(net, gone, key);
    OtherKind(Standing(net, gone, key), NodeActions(m.roles, s.nodes), key);
    OtherKind(Standing(net, gone, key), SplitActions(PartSets([], s.nodes)), key);
    OtherKind(Standing(net, gone, key), LinkActions(m.links, s.links), key);
    Stands(m, s, key);
    hide *;
  }

  // ----- roles and links -----

  /** A report on a node or a link: strong enough to fall from, a recovery, or weak enough to be a fall. */
  datatype Report = Report(strong: bool, recovered: bool, weak: bool)

  /** The report is weak and the one before it was strong; `strong` says so of what was remembered. */
  predicate Fell(strong: bool, reports: seq<Report>, i: nat)
    requires i < |reports|
  {
    reports[i].weak && if i == 0 then strong else reports[i - 1].strong
  }

  predicate NoneRecovered(reports: seq<Report>) { forall i :: 0 <= i < |reports| ==> !reports[i].recovered }

  /** Some report fell and nothing recovered after it. */
  predicate FellSince(strong: bool, reports: seq<Report>) {
    exists i :: 0 <= i < |reports| && Fell(strong, reports, i) && NoneRecovered(reports[i..])
  }

  /** The alert stood and nothing recovered since, or some report fell and nothing recovered after it. */
  predicate StaysLatched(had: bool, strong: bool, reports: seq<Report>) {
    (had && NoneRecovered(reports)) || FellSince(strong, reports)
  }

  function StrongAfter(strong: bool, reports: seq<Report>): bool {
    if reports == [] then strong else reports[|reports| - 1].strong
  }

  predicate Sound(reports: seq<Report>) {
    forall i :: 0 <= i < |reports| ==> !(reports[i].weak && reports[i].recovered)
  }

  lemma NoneRecoveredFront(reports: seq<Report>)
    requires reports != []
    ensures NoneRecovered(reports) <==> !reports[0].recovered && NoneRecovered(reports[1..])
  {
    assert forall i :: 0 < i < |reports| ==> reports[i] == reports[1..][i - 1];
  }

  lemma FellSinceFront(strong: bool, reports: seq<Report>)
    requires reports != []
    ensures var r, rest := reports[0], reports[1..];
            FellSince(strong, reports) <==> (strong && r.weak && NoneRecovered(reports)) || FellSince(r.strong, rest)
  {
    hide NoneRecovered;
    var r, rest := reports[0], reports[1..];
    assert reports[0..] == reports;
    if i :| 0 < i < |reports| && Fell(strong, reports, i) && NoneRecovered(reports[i..]) {
      assert rest[i - 1..] == reports[i..] && Fell(r.strong, rest, i - 1);
    }
    if i :| 0 <= i < |rest| && Fell(r.strong, rest, i) && NoneRecovered(rest[i..]) {
      assert rest[i..] == reports[i + 1..] && Fell(strong, reports, i + 1);
    }
    if strong && r.weak && NoneRecovered(reports) {
      assert Fell(strong, reports, 0) && NoneRecovered(reports[0..]);
    }
  }

  lemma LatchedFront(had: bool, strong: bool, reports: seq<Report>)
    requires reports != [] && Sound(reports)
    ensures var r := reports[0];
            StaysLatched(had, strong, reports) <==>
            StaysLatched(if strong && r.weak then true else if r.recovered then false else had, r.strong, reports[1..])
  {
    NoneRecoveredFront(reports);
    FellSinceFront(strong, reports);
    hide FellSince, NoneRecovered;
  }

  lemma {:induction false} LatchedAppend(had: bool, strong: bool, x: seq<Report>, y: seq<Report>)
    requires Sound(x) && Sound(y)
    ensures StaysLatched(had, strong, x + y) <==> StaysLatched(StaysLatched(had, strong, x), StrongAfter(strong, x), y)
    ensures StrongAfter(strong, x + y) == StrongAfter(StrongAfter(strong, x), y) && Sound(x + y)
    decreases x
  {
    if x == [] {
      assert x + y == y;
    } else {
      var r := x[0];
      assert (x + y)[1..] == x[1..] + y;
      LatchedFront(had, strong, x);
      LatchedFront(had, strong, x + y);
      LatchedAppend(if strong && r.weak then true else if r.recovered then false else had, r.strong, x[1..], y);
    }
    hide StaysLatched, Fell;
  }

  /** The node's own reports: strong and a recovery as a router, weak when online and no router. */
  function RoleReports(nodes: seq<Node>, id: string): (r: seq<Report>)
    ensures Sound(r)
  {
    if nodes == [] then []
    else
      var n := nodes[0];
      (if HasRole(n) && n.nodeId == id then
         [Report(RouterRole(n.role.value), RouterRole(n.role.value), !RouterRole(n.role.value) && n.online)]
       else [])
      + RoleReports(nodes[1..], id)
  }

  /** The link's own reports: strong from quality 3, a recovery from 2, weak up to 1. */
  function LinkReports(ls: seq<Link>, subject: string): (r: seq<Report>)
    ensures Sound(r)
  {
    if ls == [] then []
    else
      (if ls[0].neighbour && LinkKey(ls[0]) == subject then [Report(ls[0].lqi >= 3, ls[0].lqi >= 2, ls[0].lqi <= 1)]
          else [])
      + LinkReports(ls[1..], subject)
  }

  predicate StrongRole(role: Option<nat>) { role.Some? && RouterRole(role.value) }

  predicate StrongLink(lqi: Option<int>) { lqi.Some? && lqi.value >= 3 }

  lemma {:induction false} RoleStandingLatched(had: bool, prev: Option<nat>, nodes: seq<Node>, id: string)
    ensures RoleStanding(had, prev, nodes, id) <==> StaysLatched(had, StrongRole(prev), RoleReports(nodes, id))
    decreases nodes
  {
    if nodes != [] {
      var n := nodes[0];
      var reports := RoleReports(nodes, id);
      if HasRole(n) && n.nodeId == id {
        LatchedFront(had, StrongRole(prev), reports);
        assert reports[1..] == RoleReports(nodes[1..], id);
        RoleStandingLatched(if Dropped(prev, n) then true else if RouterRole(n.role.value) then false else had,
                            n.role, nodes[1..], id);
      } else {
        assert reports == RoleReports(nodes[1..], id);
        RoleStandingLatched(had, prev, nodes[1..], id);
      }
      hide StaysLatched, HasRole;
    }
  }

  lemma {:induction false} LinkStandingLatched(had: bool, prev: Option<int>, ls: seq<Link>, subject: string)
    ensures LinkStanding(had, prev, ls, subject) <==> StaysLatched(had, StrongLink(prev), LinkReports(ls, subject))
    decreases ls
  {
    if ls != [] {
      var l := ls[0];
      var reports := LinkReports(ls, subject);
      if l.neighbour && LinkKey(l) == subject {
        LatchedFront(had, StrongLink(prev), reports);
        assert reports[1..] == LinkReports(ls[1..], subject);
        LinkStandingLatched(if Degraded(prev, l.lqi) then true else if l.lqi >= 2 then false else had,
                            Some(l.lqi), ls[1..], subject);
      } else {
        assert reports == LinkReports(ls[1..], subject);
        LinkStandingLatched(had, prev, ls[1..], subject);
      }
      hide StaysLatched, LinkKey;
    }
  }

  lemma {:induction false} RoleRemembered(roles: map<string, nat>, nodes: seq<Node>, id: string)
    ensures StrongRole(Remembered(RolesAfter(roles, nodes), id)) ==
            StrongAfter(StrongRole(Remembered(roles, id)), RoleReports(nodes, id))
    decreases nodes
  {
    if nodes != [] {
      RoleRemembered(RoleSet(roles, nodes[0]), nodes[1..], id);
      hide HasRole;
    }
  }

  lemma {:induction false} LinkRemembered(links: map<string, int>, ls: seq<Link>, subject: string)
    ensures StrongLink(Remembered(LinksAfter(links, ls), subject)) ==
            StrongAfter(StrongLink(Remembered(links, subject)), LinkReports(ls, subject))
    decreases ls
  {
    if ls != [] {
      LinkRemembered(LinkSet(links, ls[0]), ls[1..], subject);
      hide LinkKey;
    }
  }

  /** What a node's own reports make of its alert: latched until it is seen as a router again. */
  function RoleStanding(had: bool, prev: Option<nat>, nodes: seq<Node>, id: string): bool
    decreases nodes
  {
    if nodes == [] then had
    else if !HasRole(nodes[0]) || nodes[0].nodeId != id then RoleStanding(had, prev, nodes[1..], id)
    else
      RoleStanding(if Dropped(prev, nodes[0]) then true else if RouterRole(nodes[0].role.value) then false else had,
                   nodes[0].role, nodes[1..], id)
  }

  lemma RoleStep(had: bool, roles: map<string, nat>, n: Node, id: string)
    ensures Standing(had, RoleActions(roles, n), Key(RoleDropped, id)) ==
            if !HasRole(n) || n.nodeId != id then had
            else if Dropped(Remembered(roles, id), n) then true else if RouterRole(n.role.value) then false else had
    ensures Remembered(RoleSet(roles, n), id) == if HasRole(n) && n.nodeId == id then n.role else Remembered(roles, id)
  {
    if HasRole(n) {
      var key := Key(RoleDropped, n.nodeId);
      StandingAppend(had, [Raise(key)], [Keep(key)], Key(RoleDropped, id));
      StandingAppend(had, [Clear(key)], [Keep(key)], Key(RoleDropped, id));
      OneStanding(had, Raise(key), Key(RoleDropped, id));
      OneStanding(had, Clear(key), Key(RoleDropped, id));
      OneStanding(had, Keep(key), Key(RoleDropped, id));
      OneStanding(true, Keep(key), Key(RoleDropped, id));
      OneStanding(false, Keep(key), Key(RoleDropped, id));
      assert [] + [Keep(key)] == [Keep(key)];
      hide Standing;
    }
  }

  lemma {:induction false} NodesStanding(had: bool, roles: map<string, nat>, nodes: seq<Node>, id: string)
    ensures Standing(had, NodeActions(roles, nodes), Key(RoleDropped, id)) ==
            RoleStanding(had, Remembered(roles, id), nodes, id)
    decreases nodes
  {
    hide RoleActions, RoleSet, Remembered;
    if nodes != [] {
      var key := Key(RoleDropped, id);
      var next := Standing(had, RoleActions(roles, nodes[0]), key);
      RoleStep(had, roles, nodes[0], id);
      StandingAppend(had, RoleActions(roles, nodes[0]), NodeActions(RoleSet(roles, nodes[0]), nodes[1..]), key);
      NodesStanding(next, RoleSet(roles, nodes[0]), nodes[1..], id);
    }
  }

  /**
   * After an evaluation a role alert stands exactly when the node was seen to drop from a router
   * role, or had been before, and has not reported a router role since.
   */
  lemma RoleAlertsExactly(m: Memory, s: Snapshot, id: string)
    requires ValidMemory(m)
    ensures Has(Evaluate(m, s).memory.active, Key(RoleDropped, id)) <==>
            StaysLatched(Has(m.active, Key(RoleDropped, id)), StrongRole(Remembered(m.roles, id)),
                RoleReports(s.nodes, id))
  {
    var key := Key(RoleDropped, id);
    var had := Has(m.active, key);
    var listed := Listings(s.networks);
    PartsOf(m, s, key);
    SplitStanding(had, m, s, key);
    OtherKind(had, NetActions(m.leaders, s.networks, s.now), key);
    OtherKind(had, VanishedActions(AddRouters(m.routers, listed), listed), key);
    NodesStanding(had, m.roles, s.nodes, id);
    var after := Standing(had, NodeActions(m.roles, s.nodes), key);
    OtherKind(after, SplitActions(PartSets([], s.nodes)), key);
    OtherKind(after, LinkActions(m.links, s.links), key);
    Stands(m, s, key);
    assert Latched(key.kind);
    RoleStandingLatched(had, Remembered(m.roles, id), s.nodes, id);
    hide Evaluate, Actions, NetActions, VanishedActions, NodeActions, SplitActions, LinkActions, Standing, RoleStanding,
         HasRole, Has, NetKind, StaysLatched, RoleReports;
  }

  /** What a link's own reports make of its alert: latched until its quality is at least 2. */
  function LinkStanding(had: bool, prev: Option<int>, ls: seq<Link>, key: string): bool
    decreases ls
  {
    if ls == [] then had
    else if !ls[0].neighbour || LinkKey(ls[0]) != key then LinkStanding(had, prev, ls[1..], key)
    else
      LinkStanding(if Degraded(prev, ls[0].lqi) then true else if ls[0].lqi >= 2 then false else had,
                   Some(ls[0].lqi), ls[1..], key)
  }

  lemma LinkStep(had: bool, links: map<string, int>, l: Link, subject: string)
    ensures Standing(had, LinkActionsOf(links, l), Key(LinkDegraded, subject)) ==
            if !l.neighbour || LinkKey(l) != subject then had
            else if Degraded(Remembered(links, subject), l.lqi) then true else if l.lqi >= 2 then false else had
    ensures Remembered(LinkSet(links, l), subject) ==
            if l.neighbour && LinkKey(l) == subject then Some(l.lqi) else Remembered(links, subject)
  {
    if l.neighbour {
      var key := Key(LinkDegraded, LinkKey(l));
      StandingAppend(had, [Raise(key)], [Keep(key)], Key(LinkDegraded, subject));
      StandingAppend(had, [Clear(key)], [Keep(key)], Key(LinkDegraded, subject));
      OneStanding(had, Raise(key), Key(LinkDegraded, subject));
      OneStanding(had, Clear(key), Key(LinkDegraded, subject));
      OneStanding(had, Keep(key), Key(LinkDegraded, subject));
      OneStanding(true, Keep(key), Key(LinkDegraded, subject));
      OneStanding(false, Keep(key), Key(LinkDegraded, subject));
      assert [] + [Keep(key)] == [Keep(key)];
      hide Standing, LinkKey;
    }
  }

  lemma {:induction false} LinksStanding(had: bool, links: map<string, int>, ls: seq<Link>, subject: string)
    ensures Standing(had, LinkActions(links, ls), Key(LinkDegraded, subject)) ==
            LinkStanding(had, Remembered(links, subject), ls, subject)
    decreases ls
  {
    hide LinkActionsOf, LinkSet, Remembered, LinkKey;
    if ls != [] {
      var key := Key(LinkDegraded, subject);
      var next := Standing(had, LinkActionsOf(links, ls[0]), key);
      LinkStep(had, links, ls[0], subject);
      StandingAppend(had, LinkActionsOf(links, ls[0]), LinkActions(LinkSet(links, ls[0]), ls[1..]), key);
      LinksStanding(next, LinkSet(links, ls[0]), ls[1..], subject);
    }
  }

  /**
   * After an evaluation a link alert stands exactly when the quality was seen to fall from at least
   * 3 to at most 1, or had been before, and has not been at least 2 since.
   */
  lemma LinkAlertsExactly(m: Memory, s: Snapshot, subject: string)
    requires ValidMemory(m)
    ensures Has(Evaluate(m, s).memory.active, Key(LinkDegraded, subject)) <==>
            StaysLatched(Has(m.active, Key(LinkDegraded, subject)), StrongLink(Remembered(m.links, subject)),
                         LinkReports(s.links, subject))
  {
    var key := Key(LinkDegraded, subject);
    var had := Has(m.active, key);
    var listed := Listings(s.networks);
    PartsOf(m, s, key);
    SplitStanding(had, m, s, key);
    OtherKind(had, NetActions(m.leaders, s.networks, s.now), key);
    OtherKind(had, VanishedActions(AddRouters(m.routers, listed), listed), key);
    OtherKind(had, NodeActions(m.roles, s.nodes), key);
    OtherKind(had, SplitActions(PartSets([], s.nodes)), key);
    LinksStanding(had, m.links, s.links, subject);
    Stands(m, s, key);
    assert Latched(key.kind);
    LinkStandingLatched(had, Remembered(m.links, subject), s.links, subject);
    hide Evaluate, Actions, NetActions, VanishedActions, NodeActions, SplitActions, LinkActions, Standing, LinkStanding,
         Has, NetKind, StaysLatched, LinkReports;
  }

  lemma {:induction false} NotCleared(b: Board, actions: seq<Action>, now: int, key: Key)
    requires Clear(key) !in actions && !Has(b.cleared, key)
    ensures !Has(DoAll(b, actions, now).cleared, key)
    decreases actions
  {
    if actions != [] {
      OneNotCleared(b, actions[0], now, key);
      NotCleared(Do(b, actions[0], now), actions[1..], now, key);
    }
    hide Do, Has;
  }

  lemma OneNotCleared(b: Board, a: Action, now: int, key: Key)
    requires a != Clear(key) && !Has(b.cleared, key)
    ensures !Has(Do(b, a, now).cleared, key)
  {
  }

  lemma {:induction false} NotSwept(b: Board, alerts: seq<Alert>, now: int, key: Key)
    requires Latched(key.kind) && !Has(b.cleared, key)
    ensures !Has(Sweep(b, alerts, now).cleared, key)
    decreases alerts
  {
    if alerts != [] {
      if alerts[0].key in b.seen || Latched(alerts[0].key.kind) {
        NotSwept(b, alerts[1..], now, key);
      } else {
        OneNotCleared(b, Clear(alerts[0].key), now, key);
        NotSwept(Do(b, Clear(alerts[0].key), now), alerts[1..], now, key);
      }
    }
    hide Do, Has;
  }

  lemma {:induction false} RoleClears(roles: map<string, nat>, nodes: seq<Node>, id: string)
    requires NoneRecovered(RoleReports(nodes, id))
    ensures Clear(Key(RoleDropped, id)) !in NodeActions(roles, nodes)
    decreases nodes
  {
    if nodes != [] {
      var head := if HasRole(nodes[0]) && nodes[0].nodeId == id then 1 else 0;
      assert RoleReports(nodes, id)[head..] == RoleReports(nodes[1..], id);
      RoleClears(RoleSet(roles, nodes[0]), nodes[1..], id);
      assert head == 1 ==> !RoleReports(nodes, id)[0].recovered;
    }
    hide RoleSet, Remembered;
  }

  lemma {:induction false} LinkClears(links: map<string, int>, ls: seq<Link>, subject: string)
    requires NoneRecovered(LinkReports(ls, subject))
    ensures Clear(Key(LinkDegraded, subject)) !in LinkActions(links, ls)
    decreases ls
  {
    if ls != [] {
      var head := if ls[0].neighbour && LinkKey(ls[0]) == subject then 1 else 0;
      assert LinkReports(ls, subject)[head..] == LinkReports(ls[1..], subject);
      LinkClears(LinkSet(links, ls[0]), ls[1..], subject);
      assert head == 1 ==> !LinkReports(ls, subject)[0].recovered;
    }
    hide LinkSet, Remembered, LinkKey;
  }

  /** A role or link alert is reported cleared only in an evaluation whose own reports show a recovery. */
  lemma ClearedByRecoveryOnly(m: Memory, s: Snapshot, key: Key)
    requires Latched(key.kind) && Has(Evaluate(m, s).cleared, key)
    ensures !NoneRecovered(if key.kind.RoleDropped? then RoleReports(s.nodes, key.subject)
            else LinkReports(s.links, key.subject))
  {
    var b := Board(m.active, m.history, [], [], {});
    var later := DoAll(b, Actions(m, s), s.now);
    if Clear(key) !in Actions(m, s) {
      NotCleared(b, Actions(m, s), s.now, key);
      NotSwept(later, later.active, s.now, key);
    }
    PartsOf(m, s, key);
    if key.kind.RoleDropped? && NoneRecovered(RoleReports(s.nodes, key.subject)) {
      RoleClears(m.roles, s.nodes, key.subject);
    }
    if key.kind.LinkDegraded? && NoneRecovered(LinkReports(s.links, key.subject)) {
      LinkClears(m.links, s.links, key.subject);
    }
    hide Actions, DoAll, Sweep, NoneRecovered, RoleReports, LinkReports, NetActions, VanishedActions, NodeActions,
         SplitActions, LinkActions;
  }

  // ----- runs -----

  function After(m: Memory, snapshots: seq<Snapshot>): Memory
    decreases snapshots
  {
    if snapshots == [] then m else After(Evaluate(m, snapshots[0]).memory, snapshots[1..])
  }

  /** Over every run the active alerts have distinct keys, none is a one-off note, and the history is bounded. */
  lemma {:induction false} ValidOverEveryRun(m: Memory, snapshots: seq<Snapshot>)
    requires ValidMemory(m)
    ensures ValidMemory(After(m, snapshots))
    decreases snapshots
  {
    if snapshots != [] {
      AlertsConserved(m, snapshots[0]);
      ValidOverEveryRun(Evaluate(m, snapshots[0]).memory, snapshots[1..]);
    }
    hide Evaluate, ValidMemory;
  }

  function AllRoleReports(snapshots: seq<Snapshot>, id: string): (r: seq<Report>)
    ensures Sound(r)
  {
    if snapshots == [] then [] else RoleReports(snapshots[0].nodes, id) + AllRoleReports(snapshots[1..], id)
  }

  function AllLinkReports(snapshots: seq<Snapshot>, subject: string): (r: seq<Report>)
    ensures Sound(r)
  {
    if snapshots == [] then [] else LinkReports(snapshots[0].links, subject) + AllLinkReports(snapshots[1..], subject)
  }

  /** Over every run a role alert stays from the drop until an observed recovery, and no longer. */
  lemma {:induction false} RoleAlertsOverEveryRun(m: Memory, snapshots: seq<Snapshot>, id: string)
    requires ValidMemory(m)
    ensures Has(After(m, snapshots).active, Key(RoleDropped, id)) <==>
            StaysLatched(Has(m.active, Key(RoleDropped, id)), StrongRole(Remembered(m.roles, id)),
                AllRoleReports(snapshots, id))
    decreases snapshots
  {
    var had, strong := Has(m.active, Key(RoleDropped, id)), StrongRole(Remembered(m.roles, id));
    if snapshots == [] {
      NoReports(had, strong);
    } else {
      var s := snapshots[0];
      var next := Evaluate(m, s).memory;
      AlertsConserved(m, s);
      RoleAlertsExactly(m, s, id);
      EvaluateRemembers(m, s);
      RoleRemembered(m.roles, s.nodes, id);
      LatchedAppend(had, strong, RoleReports(s.nodes, id), AllRoleReports(snapshots[1..], id));
      RoleAlertsOverEveryRun(next, snapshots[1..], id);
    }
    hide Evaluate, StaysLatched, ValidMemory, Has, StrongAfter, RoleReports, Remembered, StrongRole;
  }

  /** Over every run a link alert stays from the fall until an observed recovery, and no longer. */
  lemma {:induction false} LinkAlertsOverEveryRun(m: Memory, snapshots: seq<Snapshot>, subject: string)
    requires ValidMemory(m)
    ensures Has(After(m, snapshots).active, Key(LinkDegraded, subject)) <==>
            StaysLatched(Has(m.active, Key(LinkDegraded, subject)), StrongLink(Remembered(m.links, subject)),
                         AllLinkReports(snapshots, subject))
    decreases snapshots
  {
    var had, strong := Has(m.active, Key(LinkDegraded, subject)), StrongLink(Remembered(m.links, subject));
    if snapshots == [] {
      NoReports(had, strong);
    } else {
      var s := snapshots[0];
      var next := Evaluate(m, s).memory;
      AlertsConserved(m, s);
      LinkAlertsExactly(m, s, subject);
      EvaluateRemembers(m, s);
      LinkRemembered(m.links, s.links, subject);
      LatchedAppend(had, strong, LinkReports(s.links, subject), AllLinkReports(snapshots[1..], subject));
      LinkAlertsOverEveryRun(next, snapshots[1..], subject);
    }
    hide Evaluate, StaysLatched, ValidMemory, Has, StrongAfter, LinkReports, Remembered, StrongLink;
  }

  lemma NoReports(had: bool, strong: bool)
    ensures StaysLatched(had, strong, []) <==> had
  {
  }

  lemma EvaluateRemembers(m: Memory, s: Snapshot)
    ensures Evaluate(m, s).memory.roles == RolesAfter(m.roles, s.nodes)
    ensures Evaluate(m, s).memory.links == LinksAfter(m.links, s.links)
  {
    hide DoAll, Sweep, Actions;
  }
}
