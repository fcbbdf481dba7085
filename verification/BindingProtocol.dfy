// Creating and removing a binding (src/matter/controller.js, addBinding and removeBinding): the
// steps over two devices, each of which may fail, with the rollback of the target's access list.

module BindingProtocol {
  import opened Text
  import opened Bindings

  // ---------------------------------------------------------------------------
  // The devices
  // ---------------------------------------------------------------------------

  datatype Peer = Peer(acl: Acl, online: bool, fabric: nat, limits: Reported, ownIndex: Option<nat>)

  /** The commissioned nodes, and the binding list of each (node, endpoint). */
  datatype World = World(peers: map<nat, Peer>, lists: map<(nat, nat), seq<Binding>>)

  /** A write may fail before it takes effect, or take effect and lose its answer. */
  datatype Fault = Fine | Before | After

  function ListOf(w: World, source: nat, endpoint: nat): seq<Binding> {
    if (source, endpoint) in w.lists then w.lists[(source, endpoint)] else []
  }

  function WithAcl(w: World, node: nat, acl: Acl): World
    requires node in w.peers
  {
    w.(peers := w.peers[node := w.peers[node].(acl := acl)])
  }

  function WithList(w: World, source: nat, endpoint: nat, list: seq<Binding>): World {
    w.(lists := w.lists[(source, endpoint) := list])
  }

  /** The states the devices went through, and how the operation ended. */
  datatype Run<T> = Run(states: seq<World>, outcome: Outcome<T>)

  function Final<T>(w: World, r: Run<T>): World {
    if r.states == [] then w else r.states[|r.states| - 1]
  }

  datatype Request = Request(source: nat, sourceEp: nat, target: nat, targetEp: nat, clusters: seq<nat>)

  function GranteeOf(q: Request): Grantee { Grantee(q.source, CASE, q.targetEp) }

  function BoundOf(q: Request): Bound { Unicast(q.target, q.targetEp) }

  // ---------------------------------------------------------------------------
  // Creating a binding
  // ---------------------------------------------------------------------------

  /** Which steps of addBinding fail: reads by a flag, writes by their fault. */
  datatype AddPlan = AddPlan(aclRead: bool, aclWrite: Fault, aclReadBack: bool,
                             listRead: bool, listWrite: Fault, listReadBack: bool, rollback: Fault)

  datatype AddResult = AddResult(aclChanged: bool, added: seq<nat>)

  function AddRefusal(w: World, q: Request): Option<Refusal> {
    if q.clusters == [] then Some(NoClusters)
    else if q.source !in w.peers || q.target !in w.peers then Some(UnknownNode)
    else if q.source == q.target && q.sourceEp == q.targetEp then Some(SameEndpoint)
    else if !w.peers[q.source].online || !w.peers[q.target].online then Some(Offline)
    else if w.peers[q.source].fabric != w.peers[q.target].fabric then Some(OtherFabric)
    else None
  }

  function GrantOf(w: World, q: Request, sheNode: nat): Outcome<Acl>
    requires q.target in w.peers
  {
    var peer := w.peers[q.target];
    Grant(peer.acl, GrantRequest(GranteeOf(q), q.clusters, sheNode, peer.limits, peer.ownIndex))
  }

  /** The target's list, written back after a failure if it had been changed. */
  function RollBack(w0: World, w: World, states: seq<World>, q: Request, aclChanged: bool, fault: Fault): Run<AddResult>
    requires q.target in w.peers && q.target in w0.peers
  {
    Run(if aclChanged && fault != Before then states + [WithAcl(w, q.target, w0.peers[q.target].acl)] else states,
        Refused(DeviceFailed))
  }

  /** The second half: the source's binding list, in world `w` after `states`. */
  function BindStep(w0: World, w: World, states: seq<World>, q: Request, aclChanged: bool, p: AddPlan): Run<AddResult>
    requires q.target in w.peers && q.target in w0.peers && q.source in w.peers
  {
    if p.listRead then RollBack(w0, w, states, q, aclChanged, p.rollback)
    else
      var list := ListOf(w, q.source, q.sourceEp);
      var added := Unbound(list, BoundOf(q), q.clusters);
      if added == [] then Run(states, Done(AddResult(aclChanged, [])))
      else
        var bound := WithList(w, q.source, q.sourceEp, Added(list, BoundOf(q), q.clusters, w.peers[q.source].ownIndex));
        if p.listWrite == Before then RollBack(w0, w, states, q, aclChanged, p.rollback)
        else if p.listWrite == After || p.listReadBack then
          RollBack(w0, bound, states + [bound], q, aclChanged, p.rollback)
        else Run(states + [bound], Done(AddResult(aclChanged, added)))
  }

  function AddRun(w: World, q: Request, sheNode: nat, p: AddPlan): Run<AddResult> {
    var refusal := AddRefusal(w, q);
    if refusal.Some? then Run([], Refused(refusal.value))
    else if p.aclRead then Run([], Refused(DeviceFailed))
    else
      match GrantOf(w, q, sheNode)
      case Refused(reason) => Run([], Refused(reason))
      case Done(acl) =>
        if acl == w.peers[q.target].acl then BindStep(w, w, [], q, false, p)
        else
          var granted := WithAcl(w, q.target, acl);
          if p.aclWrite == Before then Run([], Refused(DeviceFailed))
          else if p.aclWrite == After || p.aclReadBack then Run([granted], Refused(DeviceFailed))
          else BindStep(w, granted, [granted], q, true, p)
  }

  // ---------------------------------------------------------------------------
  // Removing a binding
  // ---------------------------------------------------------------------------

  datatype RemovePlan = RemovePlan(listRead: bool, listWrite: Fault, listReadBack: bool,
                                   aclRead: bool, aclWrite: Fault, aclReadBack: bool)

  datatype Warning = NoWarning | TargetOffline | TargetUnknown

  datatype RemoveResult = RemoveResult(removed: seq<nat>, aclRevoked: bool, warning: Warning)

  function RevokeStep(w: World, states: seq<World>, q: Request, sheNode: nat, removed: seq<nat>,
      p: RemovePlan): Run<RemoveResult> {
    if q.target !in w.peers then Run(states, Done(RemoveResult(removed, false, TargetUnknown)))
    else if !w.peers[q.target].online then Run(states, Done(RemoveResult(removed, false, TargetOffline)))
    else if p.aclRead then Run(states, Refused(DeviceFailed))
    else
      var acl := w.peers[q.target].acl;
      match Revoke(acl, GranteeOf(q), q.clusters, sheNode)
      case Refused(reason) => Run(states, Refused(reason))
      case Done(revoked) =>
        if revoked == acl then Run(states, Done(RemoveResult(removed, false, NoWarning)))
        else if p.aclWrite == Before then Run(states, Refused(DeviceFailed))
        else
          var next := states + [WithAcl(w, q.target, revoked)];
          if p.aclWrite == After || p.aclReadBack then Run(next, Refused(DeviceFailed))
          else Run(next, Done(RemoveResult(removed, true, NoWarning)))
  }

  function RemoveRun(w: World, q: Request, sheNode: nat, p: RemovePlan): Run<RemoveResult> {
    if q.clusters == [] then Run([], Refused(NoClusters))
    else if q.source !in w.peers then Run([], Refused(UnknownNode))
    else if !w.peers[q.source].online then Run([], Refused(Offline))
    else if p.listRead then Run([], Refused(DeviceFailed))
    else
      var list := ListOf(w, q.source, q.sourceEp);
      var (after, removed) := RemoveBindingEntries(list, BoundOf(q), q.clusters);
      if removed == [] then RevokeStep(w, [], q, sheNode, removed, p)
      else
        var unbound := WithList(w, q.source, q.sourceEp, after);
        if p.listWrite == Before then Run([], Refused(DeviceFailed))
        else if p.listWrite == After || p.listReadBack then Run([unbound], Refused(DeviceFailed))
        else RevokeStep(unbound, [unbound], q, sheNode, removed, p)
  }

  // ---------------------------------------------------------------------------
  // The controller
  // ---------------------------------------------------------------------------

  /** The controller and the devices it talks to; `seen` records every state they take. */
  class Controller {
    const sheNode: nat
    var world: World
    ghost var seen: seq<World>

    constructor (sheNode: nat, world: World)
      ensures this.sheNode == sheNode && this.world == world && seen == []
    {
      this.sheNode := sheNode;
      this.world := world;
      seen := [];
    }

    method WriteAcl(node: nat, acl: Acl, fault: Fault) returns (ok: bool)
      requires node in world.peers
      modifies this
      ensures ok == (fault == Fine)
      ensures world == if fault == Before then old(world) else WithAcl(old(world), node, acl)
      ensures seen == if fault == Before then old(seen) else old(seen) + [world]
    {
      if fault != Before {
        world := WithAcl(world, node, acl);
        seen := seen + [world];
      }
      ok := fault == Fine;
    }

    method WriteList(source: nat, endpoint: nat, list: seq<Binding>, fault: Fault) returns (ok: bool)
      modifies this
      ensures ok == (fault == Fine)
      ensures world == if fault == Before then old(world) else WithList(old(world), source, endpoint, list)
      ensures seen == if fault == Before then old(seen) else old(seen) + [world]
    {
      if fault != Before {
        world := WithList(world, source, endpoint, list);
        seen := seen + [world];
      }
      ok := fault == Fine;
    }

    method AddBinding(q: Request, p: AddPlan) returns (outcome: Outcome<AddResult>)
      modifies this
      ensures var run := AddRun(old(world), q, sheNode, p);
              outcome == run.outcome && seen == old(seen) + run.states && world == Final(old(world), run)
    {
      hide Grant, Unbound, Added, ListOf;
      var refusal := AddRefusal(world, q);
      if refusal.Some? {
        return Refused(refusal.value);
      }
      // the target's access list: read, extend, guard, write, read back
      if p.aclRead {
        return Refused(DeviceFailed);
      }
      var peer := world.peers[q.target];
      var grant := GrantOperate(peer.acl, GrantRequest(GranteeOf(q), q.clusters, sheNode, peer.limits, peer.ownIndex));
      if grant.Refused? {
        return Refused(grant.reason);
      }
      var aclChanged := grant.value != peer.acl;
      if aclChanged {
        var written := WriteAcl(q.target, grant.value, p.aclWrite);
        if !written || p.aclReadBack {
          return Refused(DeviceFailed);
        }
      }
      // the source's binding list: read, append, write, read back
      var bound, result := Bind(q, aclChanged, p);
      if bound {
        return Done(result);
      }
      if aclChanged {
        var rolledBack := WriteAcl(q.target, peer.acl, p.rollback);
      }
      return Refused(DeviceFailed);
    }

    /** The part of addBinding whose failure rolls the target's access list back. */
    method Bind(q: Request, aclChanged: bool, p: AddPlan) returns (ok: bool, result: AddResult)
      requires q.source in world.peers && q.target in world.peers
      modifies this
      ensures var list := ListOf(old(world), q.source, q.sourceEp);
              var to := BoundOf(q);
              var added := Unbound(list, to, q.clusters);
              && result == AddResult(aclChanged, added)
              && ok == (!p.listRead && (added == [] || (p.listWrite == Fine && !p.listReadBack)))
              && (if p.listRead || added == [] || p.listWrite == Before then world == old(world) && seen == old(seen)
                  else world == WithList(old(world), q.source, q.sourceEp,
                                         Added(list, to, q.clusters, old(world).peers[q.source].ownIndex))
                       && seen == old(seen) + [world])
    {
      var list := ListOf(world, q.source, q.sourceEp);
      var out, added := AddBindingEntries(list, BoundOf(q), q.clusters, world.peers[q.source].ownIndex);
      result := AddResult(aclChanged, added);
      if p.listRead {
        return false, result;
      }
      if |added| == 0 {
        return true, result;
      }
      var written := WriteList(q.source, q.sourceEp, out, p.listWrite);
      ok := written && !p.listReadBack;
    }

    method RemoveBinding(q: Request, p: RemovePlan) returns (outcome: Outcome<RemoveResult>)
      modifies this
      ensures var run := RemoveRun(old(world), q, sheNode, p);
              outcome == run.outcome && seen == old(seen) + run.states && world == Final(old(world), run)
    {
      if |q.clusters| == 0 {
        return Refused(NoClusters);
      }
      if q.source !in world.peers {
        return Refused(UnknownNode);
      }
      if !world.peers[q.source].online {
        return Refused(Offline);
      }
      if p.listRead {
        return Refused(DeviceFailed);
      }
      var (after, removed) := RemoveBindingEntries(ListOf(world, q.source, q.sourceEp), BoundOf(q), q.clusters);
      if |removed| > 0 {
        var written := WriteList(q.source, q.sourceEp, after, p.listWrite);
        if !written || p.listReadBack {
          return Refused(DeviceFailed);
        }
      }
      // the clusters that another entry of this list still binds keep their grant
      var still := ClustersStillBound(after, BoundOf(q));
      NothingStillBound(ListOf(old(world), q.source, q.sourceEp), q);
      var toRevoke := Without(q.clusters, still);
      WithoutNone(q.clusters, still);
      if q.target !in world.peers {
        return Done(RemoveResult(removed, false, TargetUnknown));
      }
      if !world.peers[q.target].online {
        return Done(RemoveResult(removed, false, TargetOffline));
      }
      if p.aclRead {
        return Refused(DeviceFailed);
      }
      var acl := world.peers[q.target].acl;
      var revoked := RevokeOperate(acl, GranteeOf(q), toRevoke, sheNode);
      if revoked.Refused? {
        return Refused(revoked.reason);
      }
      if revoked.value == acl {
        return Done(RemoveResult(removed, false, NoWarning));
      }
      var ok := WriteAcl(q.target, revoked.value, p.aclWrite);
      if !ok || p.aclReadBack {
        return Refused(DeviceFailed);
      }
      return Done(RemoveResult(removed, true, NoWarning));
    }
  }

  function Without(ids: seq<nat>, excluded: set<nat>): seq<nat> {
    if ids == [] then [] else (if ids[0] in excluded then [] else [ids[0]]) + Without(ids[1..], excluded)
  }

  lemma {:induction false} WithoutNone(ids: seq<nat>, excluded: set<nat>)
    requires forall id :: id in ids ==> id !in excluded
    ensures Without(ids, excluded) == ids
  {
    if ids != [] {
      WithoutNone(ids[1..], excluded);
    }
  }

  /** After its entries are removed, the list binds none of the clusters: all of them are revoked. */
  lemma NothingStillBound(list: seq<Binding>, q: Request)
    ensures forall id :: id in q.clusters ==> !StillBinds(Removed(list, BoundOf(q), q.clusters), BoundOf(q), id)
  {
    hide Removed;
    NoneBound(list, q);
  }

  // ---------------------------------------------------------------------------
  // The shape of a run
  // ---------------------------------------------------------------------------

  function BoundWorld(w: World, q: Request): World
    requires q.source in w.peers
  {
    WithList(w, q.source, q.sourceEp,
             Added(ListOf(w, q.source, q.sourceEp), BoundOf(q), q.clusters, w.peers[q.source].ownIndex))
  }

  predicate BindApplied(w: World, q: Request, p: AddPlan) {
    !p.listRead && Unbound(ListOf(w, q.source, q.sourceEp), BoundOf(q), q.clusters) != [] && p.listWrite != Before
  }

  predicate BindFails(w: World, q: Request, p: AddPlan) {
    p.listRead
    || (Unbound(ListOf(w, q.source, q.sourceEp), BoundOf(q), q.clusters) != []
        && (p.listWrite != Fine || p.listReadBack))
  }

  /** The world after the binding step, without a rollback. */
  function Attempted(w: World, q: Request, p: AddPlan): World
    requires q.source in w.peers
  {
    if BindApplied(w, q, p) then BoundWorld(w, q) else w
  }

  lemma BindStepShape(w0: World, w: World, states: seq<World>, q: Request, aclChanged: bool, p: AddPlan)
    requires q.target in w.peers && q.target in w0.peers && q.source in w.peers
    ensures var run := BindStep(w0, w, states, q, aclChanged, p);
            && run.outcome.Refused? == BindFails(w, q, p)
            && run.states ==
               states + (if BindApplied(w, q, p) then [BoundWorld(w, q)] else [])
               + (if BindFails(w, q, p) && aclChanged && p.rollback != Before
                  then [WithAcl(Attempted(w, q, p), q.target, w0.peers[q.target].acl)] else [])
  {
  }

  predicate PassesChecks(w: World, q: Request, sheNode: nat, p: AddPlan) {
    AddRefusal(w, q).None? && !p.aclRead && GrantOf(w, q, sheNode).Done?
  }

  lemma AddShape(w: World, q: Request, sheNode: nat, p: AddPlan)
    ensures !PassesChecks(w, q, sheNode, p) ==>
              AddRun(w, q, sheNode, p).states == [] && AddRun(w, q, sheNode, p).outcome.Refused?
    ensures PassesChecks(w, q, sheNode, p) ==>
              var acl := GrantOf(w, q, sheNode).value;
              AddRun(w, q, sheNode, p) ==
              if acl == w.peers[q.target].acl then BindStep(w, w, [], q, false, p)
              else if p.aclWrite == Before then Run([], Refused(DeviceFailed))
              else if p.aclWrite == After || p.aclReadBack then Run([WithAcl(w, q.target, acl)], Refused(DeviceFailed))
              else BindStep(w, WithAcl(w, q.target, acl), [WithAcl(w, q.target, acl)], q, true, p)
  {
  }

  // ---------------------------------------------------------------------------
  // Nobody is locked out
  // ---------------------------------------------------------------------------

  /** Every device whose access list held she's Administer entry still holds it. */
  predicate KeepsAdmin(w: World, later: World, sheNode: nat) {
    forall n :: n in w.peers && SafeAcl(w.peers[n].acl, sheNode) ==>
                  n in later.peers && SafeAcl(later.peers[n].acl, sheNode)
  }

  lemma WithSafeAcl(w: World, later: World, node: nat, acl: Acl, sheNode: nat)
    requires KeepsAdmin(w, later, sheNode) && node in later.peers && SafeAcl(acl, sheNode)
    ensures KeepsAdmin(w, WithAcl(later, node, acl), sheNode)
  {
  }

  lemma GrantedSafe(w: World, q: Request, sheNode: nat)
    requires q.target in w.peers && GrantOf(w, q, sheNode).Done?
    ensures SafeAcl(w.peers[q.target].acl, sheNode) && SafeAcl(GrantOf(w, q, sheNode).value, sheNode)
    ensures forall h, id :: Grants(GrantOf(w, q, sheNode).value, h, id) <==>
                              Grants(w.peers[q.target].acl, h, id) || (h == GranteeOf(q) && id in q.clusters)
    ensures GrantOf(w, q, sheNode).value != w.peers[q.target].acl <==>
            exists id :: id in q.clusters && !Grants(w.peers[q.target].acl, GranteeOf(q), id)
  {
    var peer := w.peers[q.target];
    var request := GrantRequest(GranteeOf(q), q.clusters, sheNode, peer.limits, peer.ownIndex);
    GrantExtends(peer.acl, request);
    forall h, id ensures Grants(GrantOf(w, q, sheNode).value, h, id) <==>
                         Grants(peer.acl, h, id) || (h == GranteeOf(q) && id in q.clusters)
    {
      GrantExactly(peer.acl, request, h, id);
    }
    FirstIn(Missing(peer.acl, GranteeOf(q), Dedup(q.clusters)));
  }

  lemma BindStepKeepsAdmin(w0: World, w: World, states: seq<World>, q: Request, aclChanged: bool, p: AddPlan,
      sheNode: nat)
    requires q.target in w.peers && q.target in w0.peers && q.source in w.peers
    requires KeepsAdmin(w0, w, sheNode) && forall k :: 0 <= k < |states| ==> KeepsAdmin(w0, states[k], sheNode)
    requires aclChanged ==> SafeAcl(w0.peers[q.target].acl, sheNode)
    ensures forall k :: 0 <= k < |BindStep(w0, w, states, q, aclChanged, p).states| ==>
                          KeepsAdmin(w0, BindStep(w0, w, states, q, aclChanged, p).states[k], sheNode)
  {
    BindStepShape(w0, w, states, q, aclChanged, p);
    BoundKeepsAdmin(w0, w, q, sheNode);
    if aclChanged {
      WithSafeAcl(w0, w, q.target, w0.peers[q.target].acl, sheNode);
      WithSafeAcl(w0, BoundWorld(w, q), q.target, w0.peers[q.target].acl, sheNode);
    }
    hide BindStep, BoundWorld, WithAcl, KeepsAdmin, SafeAcl, BindFails, BindApplied;
  }

  lemma BoundKeepsAdmin(w0: World, w: World, q: Request, sheNode: nat)
    requires KeepsAdmin(w0, w, sheNode) && q.source in w.peers
    ensures KeepsAdmin(w0, BoundWorld(w, q), sheNode)
  {
  }

  /** In every state of addBinding, failing or rolled back, no device loses she's Administer entry. */
  lemma AddKeepsAdmin(w: World, q: Request, sheNode: nat, p: AddPlan)
    ensures forall i :: 0 <= i < |AddRun(w, q, sheNode, p).states| ==>
                          KeepsAdmin(w, AddRun(w, q, sheNode, p).states[i], sheNode)
  {
    AddShape(w, q, sheNode, p);
    if PassesChecks(w, q, sheNode, p) {
      var granted := WithAcl(w, q.target, GrantOf(w, q, sheNode).value);
      GrantedSafe(w, q, sheNode);
      SameKeepsAdmin(w, sheNode);
      WithSafeAcl(w, w, q.target, GrantOf(w, q, sheNode).value, sheNode);
      hide AddRun, GrantOf, KeepsAdmin, SafeAcl, BindStep;
      BindStepKeepsAdmin(w, w, [], q, false, p, sheNode);
      BindStepKeepsAdmin(w, granted, [granted], q, true, p, sheNode);
    }
  }

  lemma SameKeepsAdmin(w: World, sheNode: nat)
    ensures KeepsAdmin(w, w, sheNode)
  {
  }

  /** In every state of removeBinding, no device loses she's Administer entry. */
  lemma RemoveKeepsAdmin(w: World, q: Request, sheNode: nat, p: RemovePlan)
    ensures forall i :: 0 <= i < |RemoveRun(w, q, sheNode, p).states| ==>
                          KeepsAdmin(w, RemoveRun(w, q, sheNode, p).states[i], sheNode)
  {
    if q.target in w.peers && SafeAcl(w.peers[q.target].acl, sheNode) {
      RevokeKeepsAdmin(w.peers[q.target].acl, GranteeOf(q), q.clusters, sheNode);
    }
    hide SafeAcl, RemoveBindingEntries;
  }

  // ---------------------------------------------------------------------------
  // Every binding is covered by a grant
  // ---------------------------------------------------------------------------

  /** Whatever a source binds on a commissioned node, that node grants it. */
  ghost predicate Covered(w: World) {
    forall source, endpoint, node, targetEp, id ::
      Binds(ListOf(w, source, endpoint), Unicast(node, targetEp), id) && node in w.peers ==>
        Grants(w.peers[node].acl, Grantee(source, CASE, targetEp), id)
  }

  ghost predicate AllCovered(states: seq<World>) {
    forall k :: 0 <= k < |states| ==> Covered(states[k])
  }

  lemma AclCovers(w: World, node: nat, acl: Acl)
    requires Covered(w) && node in w.peers
    requires forall h, id :: Grants(w.peers[node].acl, h, id) ==> Grants(acl, h, id)
    ensures Covered(WithAcl(w, node, acl))
  {
    var next := WithAcl(w, node, acl);
    forall source, endpoint, n, targetEp, id |
      Binds(ListOf(next, source, endpoint), Unicast(n, targetEp), id) && n in next.peers
      ensures Grants(next.peers[n].acl, Grantee(source, CASE, targetEp), id)
    {
      assert ListOf(next, source, endpoint) == ListOf(w, source, endpoint);
      assert Binds(ListOf(w, source, endpoint), Unicast(n, targetEp), id);
    }
  }

  lemma BoundBinds(w: World, q: Request, source: nat, endpoint: nat, to: Bound, id: nat)
    requires q.source in w.peers
    ensures Binds(ListOf(BoundWorld(w, q), source, endpoint), to, id) <==>
            Binds(ListOf(w, source, endpoint), to, id)
            || (source == q.source && endpoint == q.sourceEp && to == BoundOf(q) && id in q.clusters)
  {
    AddBindsExactly(ListOf(w, q.source, q.sourceEp), BoundOf(q), q.clusters, w.peers[q.source].ownIndex, to, id);
  }

  /** Once the clusters are granted, binding them keeps every binding covered. */
  lemma BoundCovered(w: World, q: Request)
    requires Covered(w) && q.source in w.peers && q.target in w.peers
    requires forall id :: id in q.clusters ==> Grants(w.peers[q.target].acl, GranteeOf(q), id)
    ensures Covered(BoundWorld(w, q))
  {
    var next := BoundWorld(w, q);
    forall source, endpoint, node, targetEp, id |
      Binds(ListOf(next, source, endpoint), Unicast(node, targetEp), id) && node in next.peers
      ensures Grants(next.peers[node].acl, Grantee(source, CASE, targetEp), id)
    {
      BoundBinds(w, q, source, endpoint, Unicast(node, targetEp), id);
    }
  }

  /** A binding without its grant: rolling the grant back under it uncovers it. */
  lemma BoundUncovered(w: World, q: Request, acl: Acl, id: nat)
    requires q.source in w.peers && q.target in w.peers
    requires id in q.clusters && !Grants(acl, GranteeOf(q), id)
    ensures !Covered(WithAcl(BoundWorld(w, q), q.target, acl))
  {
    var next := WithAcl(BoundWorld(w, q), q.target, acl);
    BoundBinds(w, q, q.source, q.sourceEp, BoundOf(q), id);
    assert Binds(ListOf(next, q.source, q.sourceEp), Unicast(q.target, q.targetEp), id);
  }

  /** The run gets past the checks and the target's access list. */
  predicate ReachesBind(w: World, q: Request, sheNode: nat, p: AddPlan) {
    PassesChecks(w, q, sheNode, p) &&
    (GrantOf(w, q, sheNode).value == w.peers[q.target].acl || (p.aclWrite == Fine && !p.aclReadBack))
  }

  /** The source's list took the new entries, but the controller could not tell. */
  predicate BoundUnconfirmed(w: World, q: Request, sheNode: nat, p: AddPlan) {
    ReachesBind(w, q, sheNode, p) && BindApplied(w, q, p) && BindFails(w, q, p)
  }

  /** The grant is then taken back from under the new binding. */
  predicate RolledBackTooLate(w: World, q: Request, sheNode: nat, p: AddPlan) {
    BoundUnconfirmed(w, q, sheNode, p) && GrantOf(w, q, sheNode).value != w.peers[q.target].acl && p.rollback != Before
  }

  lemma BindStepCovered(w0: World, w: World, states: seq<World>, q: Request, aclChanged: bool, p: AddPlan)
    requires q.source in w.peers && q.target in w.peers && q.target in w0.peers
    requires AllCovered(states)
    requires Covered(w) && (aclChanged ==> Covered(WithAcl(w, q.target, w0.peers[q.target].acl)))
    requires forall id :: id in q.clusters ==> Grants(w.peers[q.target].acl, GranteeOf(q), id)
    requires !(aclChanged && p.rollback != Before && BindApplied(w, q, p) && BindFails(w, q, p))
    ensures AllCovered(BindStep(w0, w, states, q, aclChanged, p).states)
  {
    BoundCovered(w, q);
    BindStepShape(w0, w, states, q, aclChanged, p);
    hide Covered, BindStep, BindApplied, BindFails, BoundWorld, WithAcl;
  }

  lemma SameAcl(w: World, node: nat, acl: Acl)
    requires node in w.peers
    ensures WithAcl(WithAcl(w, node, acl), node, w.peers[node].acl) == w
  {
  }

  lemma SameApplied(w: World, later: World, q: Request, p: AddPlan)
    requires later.lists == w.lists
    ensures BindApplied(later, q, p) == BindApplied(w, q, p) && BindFails(later, q, p) == BindFails(w, q, p)
  {
  }

  /** addBinding keeps every binding covered, in all its states, unless the grant is rolled back too late. */
  lemma AddCovers(w: World, q: Request, sheNode: nat, p: AddPlan)
    requires Covered(w) && !RolledBackTooLate(w, q, sheNode, p)
    ensures AllCovered(AddRun(w, q, sheNode, p).states)
  {
    AddShape(w, q, sheNode, p);
    if PassesChecks(w, q, sheNode, p) {
      var acl := GrantOf(w, q, sheNode).value;
      var granted := WithAcl(w, q.target, acl);
      GrantedSafe(w, q, sheNode);
      AclCovers(w, q.target, acl);
      SameAcl(w, q.target, acl);
      SameApplied(w, granted, q, p);
      hide AddRun, GrantOf, BindStep, Covered, Grants, BindApplied, BindFails;
      if acl == w.peers[q.target].acl {
        BindStepCovered(w, w, [], q, false, p);
      } else if ReachesBind(w, q, sheNode, p) {
        BindStepCovered(w, granted, [granted], q, true, p);
      }
    }
  }

  lemma BindStepFinal(w0: World, w: World, states: seq<World>, q: Request, aclChanged: bool, p: AddPlan)
    requires q.target in w.peers && q.target in w0.peers && q.source in w.peers
    requires if states == [] then w == w0 else states[|states| - 1] == w
    ensures var run := BindStep(w0, w, states, q, aclChanged, p);
            && run.outcome.Refused? == BindFails(w, q, p)
            && Final(w0, run) == if BindFails(w, q, p) && aclChanged && p.rollback != Before
                                 then WithAcl(Attempted(w, q, p), q.target, w0.peers[q.target].acl)
                                 else Attempted(w, q, p)
  {
    BindStepShape(w0, w, states, q, aclChanged, p);
    hide BindStep, BindApplied, BindFails, BoundWorld, WithAcl;
  }

  lemma BindStepUncovers(w0: World, w: World, states: seq<World>, q: Request, p: AddPlan, id: nat)
    requires q.target in w.peers && q.target in w0.peers && q.source in w.peers
    requires if states == [] then w == w0 else states[|states| - 1] == w
    requires BindApplied(w, q, p) && BindFails(w, q, p) && p.rollback != Before
    requires id in q.clusters && !Grants(w0.peers[q.target].acl, GranteeOf(q), id)
    ensures BindStep(w0, w, states, q, true, p).outcome.Refused?
    ensures !Covered(Final(w0, BindStep(w0, w, states, q, true, p)))
  {
    BindStepFinal(w0, w, states, q, true, p);
    BoundUncovered(w, q, w0.peers[q.target].acl, id);
    hide BindStep, Covered, Grants, BindApplied, BindFails, BoundWorld, WithAcl;
  }

  /** The last state of such a run leaves a binding without its grant. */
  lemma TooLateUncovers(w: World, q: Request, sheNode: nat, p: AddPlan)
    requires RolledBackTooLate(w, q, sheNode, p)
    ensures AddRun(w, q, sheNode, p).outcome.Refused? && !Covered(Final(w, AddRun(w, q, sheNode, p)))
  {
    AddShape(w, q, sheNode, p);
    GrantedSafe(w, q, sheNode);
    var granted := WithAcl(w, q.target, GrantOf(w, q, sheNode).value);
    var id :| id in q.clusters && !Grants(w.peers[q.target].acl, GranteeOf(q), id);
    SameApplied(w, granted, q, p);
    BindStepUncovers(w, granted, [granted], q, p, id);
    hide AddRun, BindStep, Covered, GrantOf, Grants, BindApplied, BindFails, Final;
  }

  lemma FinalCovered<T>(w: World, run: Run<T>)
    requires Covered(w)
    ensures AllCovered(run.states) ==> Covered(Final(w, run))
  {
  }

  /** All states of addBinding are covered exactly when the grant is not rolled back from under the binding. */
  lemma AddCoveredExactly(w: World, q: Request, sheNode: nat, p: AddPlan)
    requires Covered(w)
    ensures AllCovered(AddRun(w, q, sheNode, p).states) <==> !RolledBackTooLate(w, q, sheNode, p)
  {
    hide RolledBackTooLate, AddRun, Covered;
    if RolledBackTooLate(w, q, sheNode, p) {
      TooLateUncovers(w, q, sheNode, p);
      FinalCovered(w, AddRun(w, q, sheNode, p));
    } else {
      AddCovers(w, q, sheNode, p);
    }
  }

  function AdminEntry(sheNode: nat): Entry { Entry(ADMINISTER, CASE, Some([sheNode]), None, Some(1)) }

  function OnlinePeer(acl: Acl): Peer { Peer(acl, true, 1, Reported(None, None, None), Some(1)) }

  /** Two fresh devices, and a binding whose write is taken but whose read-back fails. */
  lemma TooLateHappens(sheNode: nat)
    ensures var w := World(map[1 := OnlinePeer([AdminEntry(sheNode)]), 2 := OnlinePeer([AdminEntry(sheNode)])], map[]);
            Covered(w) && RolledBackTooLate(w, Request(1, 1, 2, 1, [6]), sheNode,
                                            AddPlan(false, Fine, false, false, Fine, true, Fine))
  {
    var acl := [AdminEntry(sheNode)];
    var w := World(map[1 := OnlinePeer(acl), 2 := OnlinePeer(acl)], map[]);
    var q := Request(1, 1, 2, 1, [6]);
    var p := AddPlan(false, Fine, false, false, Fine, true, Fine);
    var grant := GrantRequest(GranteeOf(q), [6], sheNode, Reported(None, None, None), Some(1));
    GrantRefusedExactly(acl, grant);
    assert SafeAcl(acl, sheNode);
    assert acl[1..] == [];
    assert FreeSlots(acl, grant.g, EffectiveLimits(grant.limits)) >= 3;
    assert [6][..0] == [];
    assert Dedup([6]) == [6] && |Missing(acl, grant.g, [6])| <= 1;
    GrantExactly(acl, grant, grant.g, 6);
    assert !Grants(acl, grant.g, 6);
    assert 6 in [6];
    assert Unbound([], BoundOf(q), [6]) == [6];
  }

  // ---------------------------------------------------------------------------
  // Failure and success of addBinding
  // ---------------------------------------------------------------------------

  /** Where a failing run leaves a write behind: the binding, or a grant that was not rolled back. */
  predicate LeavesBehind(w: World, q: Request, sheNode: nat, p: AddPlan) {
    BoundUnconfirmed(w, q, sheNode, p) ||
    (AddRefusal(w, q).None? && !p.aclRead && GrantOf(w, q, sheNode).Done?
     && GrantOf(w, q, sheNode).value != w.peers[q.target].acl
     && (p.aclWrite == After || (p.aclWrite == Fine && (p.aclReadBack || p.rollback == Before))))
  }

  lemma AclDiffers(w: World, node: nat, acl: Acl)
    requires node in w.peers && acl != w.peers[node].acl
    ensures WithAcl(w, node, acl) != w
  {
  }

  lemma AttemptDiffers(w: World, q: Request, p: AddPlan, acl: Acl)
    requires q.source in w.peers && q.target in w.peers
    ensures Attempted(w, q, p).lists == w.lists <==> !BindApplied(w, q, p)
    ensures WithAcl(Attempted(w, q, p), q.target, acl).lists == Attempted(w, q, p).lists
  {
  }

  /** A failed addBinding leaves both devices exactly as they were unless a write is left behind. */
  lemma AddUndoneExactly(w: World, q: Request, sheNode: nat, p: AddPlan)
    requires AddRun(w, q, sheNode, p).outcome.Refused?
    ensures Final(w, AddRun(w, q, sheNode, p)) == w <==> !LeavesBehind(w, q, sheNode, p)
  {
    AddShape(w, q, sheNode, p);
    if PassesChecks(w, q, sheNode, p) {
      var acl := GrantOf(w, q, sheNode).value;
      var granted := WithAcl(w, q.target, acl);
      SameAcl(w, q.target, acl);
      SameApplied(w, granted, q, p);
      AttemptDiffers(w, q, p, w.peers[q.target].acl);
      AttemptDiffers(granted, q, p, w.peers[q.target].acl);
      if acl != w.peers[q.target].acl {
        AclDiffers(w, q.target, acl);
      }
      assert granted.lists == w.lists;
      BindStepFinal(w, w, [], q, false, p);
      BindStepFinal(w, granted, [granted], q, true, p);
      hide AddRun, GrantOf, BindStep, BindApplied, BindFails, BoundWorld, WithAcl;
    }
  }

  /** When addBinding succeeds, the source's endpoint binds exactly the clusters more. */
  lemma AddBinds(w: World, q: Request, sheNode: nat, p: AddPlan, source: nat, endpoint: nat, to: Bound, id: nat)
    requires AddRun(w, q, sheNode, p).outcome.Done?
    ensures Binds(ListOf(Final(w, AddRun(w, q, sheNode, p)), source, endpoint), to, id) <==>
            Binds(ListOf(w, source, endpoint), to, id)
            || (source == q.source && endpoint == q.sourceEp && to == BoundOf(q) && id in q.clusters)
  {
    AddShape(w, q, sheNode, p);
    var granted := WithAcl(w, q.target, GrantOf(w, q, sheNode).value);
    BindStepFinal(w, w, [], q, false, p);
    BindStepFinal(w, granted, [granted], q, true, p);
    AttemptBinds(w, q, p, source, endpoint, to, id);
    AttemptBinds(granted, q, p, source, endpoint, to, id);
    assert ListOf(granted, source, endpoint) == ListOf(w, source, endpoint);
    hide AddRun, GrantOf, BindStep, BindApplied, BindFails, Attempted, ListOf, Final, WithAcl;
  }

  /** When addBinding succeeds, the target grants exactly the clusters more, and no other node changed. */
  lemma AddGrants(w: World, q: Request, sheNode: nat, p: AddPlan, h: Grantee, id: nat)
    requires AddRun(w, q, sheNode, p).outcome.Done?
    ensures var later := Final(w, AddRun(w, q, sheNode, p));
            && q.target in later.peers && q.target in w.peers
            && (Grants(later.peers[q.target].acl, h, id) <==>
                Grants(w.peers[q.target].acl, h, id) || (h == GranteeOf(q) && id in q.clusters))
            && later.peers.Keys == w.peers.Keys
            && forall n :: n in w.peers && n != q.target ==> later.peers[n] == w.peers[n]
  {
    AddShape(w, q, sheNode, p);
    GrantedSafe(w, q, sheNode);
    var granted := WithAcl(w, q.target, GrantOf(w, q, sheNode).value);
    BindStepFinal(w, w, [], q, false, p);
    BindStepFinal(w, granted, [granted], q, true, p);
    AttemptPeers(w, q, p);
    AttemptPeers(granted, q, p);
    hide AddRun, GrantOf, BindStep, BindApplied, BindFails, Attempted, Grants, Final;
  }

  lemma AttemptPeers(w: World, q: Request, p: AddPlan)
    requires q.source in w.peers
    ensures Attempted(w, q, p).peers == w.peers
  {
  }

  lemma AttemptBinds(w: World, q: Request, p: AddPlan, source: nat, endpoint: nat, to: Bound, id: nat)
    requires q.source in w.peers && !BindFails(w, q, p)
    ensures Binds(ListOf(Attempted(w, q, p), source, endpoint), to, id) <==>
            Binds(ListOf(w, source, endpoint), to, id)
            || (source == q.source && endpoint == q.sourceEp && to == BoundOf(q) && id in q.clusters)
  {
    BoundBinds(w, q, source, endpoint, to, id);
    if !BindApplied(w, q, p) {
      FirstIn(Unbound(ListOf(w, q.source, q.sourceEp), BoundOf(q), q.clusters));
      assert id in q.clusters ==> Binds(ListOf(w, q.source, q.sourceEp), BoundOf(q), id);
    }
    hide BoundWorld, Binds;
  }

  // ---------------------------------------------------------------------------
  // What removeBinding uncovers
  // ---------------------------------------------------------------------------

  predicate RevokeApplies(w: World, q: Request, sheNode: nat, p: RemovePlan) {
    q.target in w.peers && w.peers[q.target].online && !p.aclRead && SafeAcl(w.peers[q.target].acl, sheNode)
    && p.aclWrite != Before
  }

  /** The step that writes the target's shortened access list is reached, and it takes effect. */
  predicate Revokes(w: World, q: Request, sheNode: nat, p: RemovePlan) {
    && q.clusters != [] && q.source in w.peers && w.peers[q.source].online && !p.listRead
    && (RemovedIds(ListOf(w, q.source, q.sourceEp), BoundOf(q), q.clusters) == []
        || (p.listWrite == Fine && !p.listReadBack))
    && RevokeApplies(w, q, sheNode, p)
  }

  /** Another endpoint of the source binds one of the clusters: its list is not looked at. */
  ghost predicate BoundElsewhere(w: World, q: Request) {
    exists endpoint, id :: endpoint != q.sourceEp && id in q.clusters
        && Binds(ListOf(w, q.source, endpoint), BoundOf(q), id)
  }

  function UnboundWorld(w: World, q: Request): World {
    WithList(w, q.source, q.sourceEp, Removed(ListOf(w, q.source, q.sourceEp), BoundOf(q), q.clusters))
  }

  lemma UnboundBinds(w: World, q: Request, source: nat, endpoint: nat, to: Bound, id: nat)
    requires to.Unicast?
    ensures Binds(ListOf(UnboundWorld(w, q), source, endpoint), to, id) <==>
            Binds(ListOf(w, source, endpoint), to, id)
            && !(source == q.source && endpoint == q.sourceEp && to == BoundOf(q) && id in q.clusters)
  {
    RemoveBindsExactly(ListOf(w, q.source, q.sourceEp), BoundOf(q), q.clusters, to, id);
  }

  lemma UnboundCovered(w: World, q: Request)
    requires Covered(w)
    ensures Covered(UnboundWorld(w, q))
  {
    var next := UnboundWorld(w, q);
    forall source, endpoint, node, targetEp, id |
      Binds(ListOf(next, source, endpoint), Unicast(node, targetEp), id) && node in next.peers
      ensures Grants(next.peers[node].acl, Grantee(source, CASE, targetEp), id)
    {
      UnboundBinds(w, q, source, endpoint, Unicast(node, targetEp), id);
    }
  }

  /** With the entries of this endpoint gone, revoking keeps the rest covered exactly if no other endpoint needs it. */
  lemma RevokedCovered(w: World, q: Request)
    requires Covered(w) && q.target in w.peers
    requires forall id :: id in q.clusters ==> !Binds(ListOf(w, q.source, q.sourceEp), BoundOf(q), id)
    ensures Covered(WithAcl(w, q.target, RevokeAll(w.peers[q.target].acl, GranteeOf(q), q.clusters))) <==>
            !BoundElsewhere(w, q)
  {
    var acl := w.peers[q.target].acl;
    var next := WithAcl(w, q.target, RevokeAll(acl, GranteeOf(q), q.clusters));
    if BoundElsewhere(w, q) {
      var endpoint, id :| endpoint != q.sourceEp && id in q.clusters
          && Binds(ListOf(w, q.source, endpoint), BoundOf(q), id);
      RevokeExactly(acl, GranteeOf(q), q.clusters, GranteeOf(q), id);
      assert Binds(ListOf(next, q.source, endpoint), Unicast(q.target, q.targetEp), id);
    } else {
      forall source, endpoint, node, targetEp, id |
        Binds(ListOf(next, source, endpoint), Unicast(node, targetEp), id) && node in next.peers
        ensures Grants(next.peers[node].acl, Grantee(source, CASE, targetEp), id)
      {
        assert Binds(ListOf(w, source, endpoint), Unicast(node, targetEp), id);
        RevokeExactly(acl, GranteeOf(q), q.clusters, Grantee(source, CASE, targetEp), id);
      }
    }
  }

  lemma {:induction false} RemovedNothing(list: seq<Binding>, to: Bound, ids: seq<nat>)
    requires RemovedIds(list, to, ids) == []
    ensures Removed(list, to, ids) == list
  {
    if list != [] {
      RemovedNothing(list[1..], to, ids);
    }
  }

  lemma NoneBound(list: seq<Binding>, q: Request)
    ensures forall id :: id in q.clusters ==> !Binds(Removed(list, BoundOf(q), q.clusters), BoundOf(q), id)
  {
    hide Removed, Binds;
    forall id | id in q.clusters ensures !Binds(Removed(list, BoundOf(q), q.clusters), BoundOf(q), id) {
      RemoveBindsExactly(list, BoundOf(q), q.clusters, BoundOf(q), id);
    }
  }

  lemma SameElsewhere(w: World, q: Request)
    ensures BoundElsewhere(UnboundWorld(w, q), q) <==> BoundElsewhere(w, q)
  {
    if BoundElsewhere(w, q) {
      var endpoint, id :| endpoint != q.sourceEp && id in q.clusters
          && Binds(ListOf(w, q.source, endpoint), BoundOf(q), id);
      assert Binds(ListOf(UnboundWorld(w, q), q.source, endpoint), BoundOf(q), id);
    }
    if BoundElsewhere(UnboundWorld(w, q), q) {
      var endpoint, id :| endpoint != q.sourceEp && id in q.clusters
                          && Binds(ListOf(UnboundWorld(w, q), q.source, endpoint), BoundOf(q), id);
      assert Binds(ListOf(w, q.source, endpoint), BoundOf(q), id);
    }
  }

  lemma RevokeStepShape(w: World, states: seq<World>, q: Request, sheNode: nat, removed: seq<nat>, p: RemovePlan)
    ensures RevokeStep(w, states, q, sheNode, removed, p).states ==
            if RevokeApplies(w, q, sheNode, p)
               && RevokeAll(w.peers[q.target].acl, GranteeOf(q), q.clusters) != w.peers[q.target].acl
            then states + [WithAcl(w, q.target, RevokeAll(w.peers[q.target].acl, GranteeOf(q), q.clusters))]
            else states
  {
  }

  /** The revoking step on its own, in a world where this endpoint binds none of the clusters. */
  lemma RevokeStepCovered(w: World, states: seq<World>, q: Request, sheNode: nat, removed: seq<nat>, p: RemovePlan)
    requires Covered(w) && AllCovered(states)
    requires forall id :: id in q.clusters ==> !Binds(ListOf(w, q.source, q.sourceEp), BoundOf(q), id)
    ensures AllCovered(RevokeStep(w, states, q, sheNode, removed, p).states) <==>
            !(RevokeApplies(w, q, sheNode, p) && BoundElsewhere(w, q))
  {
    RevokeStepShape(w, states, q, sheNode, removed, p);
    if RevokeApplies(w, q, sheNode, p) {
      RevokedCovered(w, q);
      SameAclWorld(w, q.target);
      LastState(states, WithAcl(w, q.target, RevokeAll(w.peers[q.target].acl, GranteeOf(q), q.clusters)));
    }
    hide *;
  }

  lemma LastState(states: seq<World>, last: World)
    requires AllCovered(states)
    ensures Covered(last) <==> AllCovered(states + [last])
  {
    assert (states + [last])[|states|] == last;
    hide Covered;
  }

  lemma RemoveShape(w: World, q: Request, sheNode: nat, p: RemovePlan)
    ensures var removed := RemovedIds(ListOf(w, q.source, q.sourceEp), BoundOf(q), q.clusters);
            RemoveRun(w, q, sheNode, p).states ==
            if q.clusters == [] || q.source !in w.peers || !w.peers[q.source].online || p.listRead then []
            else if removed == [] then RevokeStep(w, [], q, sheNode, removed, p).states
            else if p.listWrite == Before then []
            else if p.listWrite == After || p.listReadBack then [UnboundWorld(w, q)]
            else RevokeStep(UnboundWorld(w, q), [UnboundWorld(w, q)], q, sheNode, removed, p).states
  {
  }

  lemma SameAclWorld(w: World, node: nat)
    requires node in w.peers
    ensures WithAcl(w, node, w.peers[node].acl) == w
  {
  }

  /**
   * removeBinding keeps every binding covered, in all its states, exactly unless it revokes a
   * cluster that another endpoint of the same source node binds on the same target endpoint.
   */
  lemma RemoveCoveredExactly(w: World, q: Request, sheNode: nat, p: RemovePlan)
    requires Covered(w)
    ensures AllCovered(RemoveRun(w, q, sheNode, p).states) <==> !(Revokes(w, q, sheNode, p) && BoundElsewhere(w, q))
  {
    var list := ListOf(w, q.source, q.sourceEp);
    var removed := RemovedIds(list, BoundOf(q), q.clusters);
    var unbound := UnboundWorld(w, q);
    RemoveShape(w, q, sheNode, p);
    UnboundCovered(w, q);
    SameElsewhere(w, q);
    NoneBound(list, q);
    RevokeStepCovered(unbound, [unbound], q, sheNode, removed, p);
    if removed == [] {
      RemovedNothing(list, BoundOf(q), q.clusters);
      RevokeStepCovered(w, [], q, sheNode, removed, p);
    }
    assert RevokeApplies(unbound, q, sheNode, p) == RevokeApplies(w, q, sheNode, p);
    hide Covered, BoundElsewhere, RevokeApplies, RemoveRun, RemovedIds, RevokeStep, UnboundWorld;
  }

  /** Two endpoints of one node bind the same cluster of the same target: removing one revokes the other's grant. */
  lemma RevokedElsewhere(sheNode: nat)
    ensures var acl := [AdminEntry(sheNode),
            Entry(OPERATE, CASE, Some([1]), Some([Target(Some(6), Some(1), None)]), Some(1))];
            var list := [NewBinding(Unicast(2, 1), 6, Some(1))];
            var w := World(map[1 := OnlinePeer([AdminEntry(sheNode)]), 2 := OnlinePeer(acl)],
                           map[(1, 1) := list, (1, 2) := list]);
            var q := Request(1, 1, 2, 1, [6]);
            Covered(w) && Revokes(w, q, sheNode, RemovePlan(false, Fine, false, false, Fine, false))
                && BoundElsewhere(w, q)
  {
    var acl := [AdminEntry(sheNode), Entry(OPERATE, CASE, Some([1]), Some([Target(Some(6), Some(1), None)]), Some(1))];
    var list := [NewBinding(Unicast(2, 1), 6, Some(1))];
    var w := World(map[1 := OnlinePeer([AdminEntry(sheNode)]), 2 := OnlinePeer(acl)],
        map[(1, 1) := list, (1, 2) := list]);
    var q := Request(1, 1, 2, 1, [6]);
    assert EntryGrants(acl[1], Grantee(1, CASE, 1), 6) by {
      assert TargetMatches(acl[1].targets.value[0], 1, 6);
    }
    assert Covered(w) by {
      assert Grants(acl, Grantee(1, CASE, 1), 6);
    }
    assert BindingMatches(list[0], BoundOf(q), 6);
    assert Binds(ListOf(w, 1, 2), BoundOf(q), 6) && 6 in q.clusters;
  }

  /**
   * When removeBinding succeeds, the list binds none of the clusters; a target that is online no
   * longer grants them.
   */
  lemma RemoveSucceeds(w: World, q: Request, sheNode: nat, p: RemovePlan, id: nat)
    requires RemoveRun(w, q, sheNode, p).outcome.Done? && id in q.clusters
    ensures var later := Final(w, RemoveRun(w, q, sheNode, p));
            && !Binds(ListOf(later, q.source, q.sourceEp), BoundOf(q), id)
            && (q.target in w.peers && w.peers[q.target].online ==>
                  q.target in later.peers && !Grants(later.peers[q.target].acl, GranteeOf(q), id))
  {
    NoneBound(ListOf(w, q.source, q.sourceEp), q);
    if RemovedIds(ListOf(w, q.source, q.sourceEp), BoundOf(q), q.clusters) == [] {
      RemovedNothing(ListOf(w, q.source, q.sourceEp), BoundOf(q), q.clusters);
    }
    if q.target in w.peers {
      RevokeExactly(w.peers[q.target].acl, GranteeOf(q), q.clusters, GranteeOf(q), id);
    }
    hide Binds, Grants, SafeAcl, Removed, RemovedIds;
  }

  // ---------------------------------------------------------------------------
  // Runs of operations
  // ---------------------------------------------------------------------------

  datatype Op = Add(q: Request, ap: AddPlan) | Remove(q: Request, rp: RemovePlan)

  function StatesOf(w: World, op: Op, sheNode: nat): seq<World> {
    match op
    case Add(q, p) => AddRun(w, q, sheNode, p).states
    case Remove(q, p) => RemoveRun(w, q, sheNode, p).states
  }

  function AfterOp(w: World, op: Op, sheNode: nat): World {
    var states := StatesOf(w, op, sheNode);
    if states == [] then w else states[|states| - 1]
  }

  /** Every state the devices take over a run of operations, with any faults. */
  function AllStates(w: World, ops: seq<Op>, sheNode: nat): seq<World>
    decreases ops
  {
    if ops == [] then [w]
    else [w] + StatesOf(w, ops[0], sheNode) + AllStates(AfterOp(w, ops[0], sheNode), ops[1..], sheNode)
  }

  /** None of the states loses an Administer entry that `w` had. */
  predicate AllKeepAdmin(w: World, states: seq<World>, sheNode: nat) {
    forall k :: 0 <= k < |states| ==> KeepsAdmin(w, states[k], sheNode)
  }

  lemma OpKeepsAdmin(w: World, op: Op, sheNode: nat)
    ensures AllKeepAdmin(w, StatesOf(w, op, sheNode), sheNode) && KeepsAdmin(w, AfterOp(w, op, sheNode), sheNode)
  {
    hide AddRun, RemoveRun, KeepsAdmin;
    SameKeepsAdmin(w, sheNode);
    match op {
      case Add(q, p) =>
        AddKeepsAdmin(w, q, sheNode, p);
        assert StatesOf(w, op, sheNode) == AddRun(w, q, sheNode, p).states;
      case Remove(q, p) =>
        RemoveKeepsAdmin(w, q, sheNode, p);
        assert StatesOf(w, op, sheNode) == RemoveRun(w, q, sheNode, p).states;
    }
  }

  lemma KeepsAdminChain(w: World, next: World, states: seq<World>, later: seq<World>, sheNode: nat)
    requires KeepsAdmin(w, next, sheNode) && AllKeepAdmin(next, later, sheNode) && AllKeepAdmin(w, states, sheNode)
    ensures AllKeepAdmin(w, [w] + states + later, sheNode)
  {
  }

  /** Over every run of operations and faults, no device ever loses she's Administer entry. */
  lemma {:induction false} NobodyLockedOut(w: World, ops: seq<Op>, sheNode: nat)
    ensures AllKeepAdmin(w, AllStates(w, ops, sheNode), sheNode)
    decreases ops
  {
    SameKeepsAdmin(w, sheNode);
    if ops != [] {
      OpKeepsAdmin(w, ops[0], sheNode);
      NobodyLockedOut(AfterOp(w, ops[0], sheNode), ops[1..], sheNode);
      KeepsAdminChain(w, AfterOp(w, ops[0], sheNode), StatesOf(w, ops[0], sheNode),
                      AllStates(AfterOp(w, ops[0], sheNode), ops[1..], sheNode), sheNode);
    }
    hide KeepsAdmin, StatesOf, AfterOp;
  }

  /** The operation neither rolls a grant back too late nor revokes what another endpoint binds. */
  ghost predicate Harmless(w: World, op: Op, sheNode: nat) {
    match op
    case Add(q, p) => !RolledBackTooLate(w, q, sheNode, p)
    case Remove(q, p) => !(Revokes(w, q, sheNode, p) && BoundElsewhere(w, q))
  }

  ghost predicate AllHarmless(w: World, ops: seq<Op>, sheNode: nat)
    decreases ops
  {
    ops == [] || (Harmless(w, ops[0], sheNode) && AllHarmless(AfterOp(w, ops[0], sheNode), ops[1..], sheNode))
  }

  lemma OpCovers(w: World, op: Op, sheNode: nat)
    requires Covered(w)
    ensures Harmless(w, op, sheNode) <==> AllCovered(StatesOf(w, op, sheNode))
    ensures Harmless(w, op, sheNode) ==> Covered(AfterOp(w, op, sheNode))
  {
    hide Covered, AddRun, RemoveRun, RolledBackTooLate, Revokes, BoundElsewhere;
    match op {
      case Add(q, p) => AddCoveredExactly(w, q, sheNode, p);
      case Remove(q, p) => RemoveCoveredExactly(w, q, sheNode, p);
    }
  }

  /** Over every run, all bindings are covered in all states exactly when every operation is harmless. */
  lemma {:induction false} CoveredOverEveryRun(w: World, ops: seq<Op>, sheNode: nat)
    requires Covered(w)
    ensures AllCovered(AllStates(w, ops, sheNode)) <==> AllHarmless(w, ops, sheNode)
    decreases ops
  {
    hide Covered, Harmless, StatesOf, AfterOp, AllCovered;
    if ops != [] {
      OpCovers(w, ops[0], sheNode);
      StatesJoin(w, StatesOf(w, ops[0], sheNode), AllStates(AfterOp(w, ops[0], sheNode), ops[1..], sheNode));
      if Harmless(w, ops[0], sheNode) {
        CoveredOverEveryRun(AfterOp(w, ops[0], sheNode), ops[1..], sheNode);
      }
    } else {
      OneState(w);
    }
  }

  lemma OneState(w: World)
    requires Covered(w)
    ensures AllCovered([w])
  {
  }

  lemma StatesJoin(w: World, states: seq<World>, later: seq<World>)
    requires Covered(w)
    ensures AllCovered([w] + states + later) <==> AllCovered(states) && AllCovered(later)
  {
    hide Covered;
    var all := [w] + states + later;
    assert forall i :: 0 <= i < |states| ==> all[i + 1] == states[i];
    assert forall i :: 0 <= i < |later| ==> all[|states| + 1 + i] == later[i];
    assert forall i :: 0 <= i < |all| ==>
      all[i] == if i == 0 then w else if i <= |states| then states[i - 1] else later[i - 1 - |states|];
  }
}
