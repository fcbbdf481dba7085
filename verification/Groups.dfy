// Matter groups (src/matter/groups.js and the group part of src/matter/controller.js): the key map
// lists, the id allocators, and the steps that provision a member device and take it out again.

module Groups {
  import opened Text
  import opened Bindings
  import opened BindingProtocol

  // ---------------------------------------------------------------------------
  // The group key map of a device
  // ---------------------------------------------------------------------------

  datatype MapEntry = MapEntry(group: nat, keySet: nat, fabricIndex: Option<nat>)

  type KeyMap = seq<MapEntry>

  predicate HasGroup(list: KeyMap, group: nat) { exists i :: 0 <= i < |list| && list[i].group == group }

  /** Give the group's entries the key set. */
  function Remap(list: KeyMap, group: nat, keySet: nat): KeyMap {
    if list == [] then []
    else [if list[0].group == group then list[0].(keySet := keySet) else list[0]] + Remap(list[1..], group, keySet)
  }

  function MapAdd(list: KeyMap, group: nat, keySet: nat, fabricIndex: Option<nat>): KeyMap {
    if HasGroup(list, group) then Remap(list, group, keySet) else list + [MapEntry(group, keySet, fabricIndex)]
  }

  function MapRemove(list: KeyMap, group: nat): KeyMap {
    if list == [] then [] else (if list[0].group == group then [] else [list[0]]) + MapRemove(list[1..], group)
  }

  predicate StillMapped(list: KeyMap, keySet: nat) { exists i :: 0 <= i < |list| && list[i].keySet == keySet }

  /** At most one entry per group. */
  predicate OnePerGroup(list: KeyMap) { forall i, j :: 0 <= i < j < |list| ==> list[i].group != list[j].group }

  /** The key sets the entries name are all there. */
  predicate NamesPresent(list: KeyMap, keySets: set<nat>) { forall i :: 0 <= i < |list| ==> list[i].keySet in keySets }

  lemma {:induction false} RemapAt(list: KeyMap, group: nat, keySet: nat)
    ensures |Remap(list, group, keySet)| == |list|
    ensures forall i :: 0 <= i < |list| ==>
              Remap(list, group, keySet)[i] == if list[i].group == group then list[i].(keySet := keySet) else list[i]
  {
    if list != [] {
      RemapAt(list[1..], group, keySet);
    }
  }

  /** Adding sets the group's key set, touches no other group, and keeps one entry per group. */
  lemma MapAddExactly(list: KeyMap, group: nat, keySet: nat, fabricIndex: Option<nat>)
    ensures var out := MapAdd(list, group, keySet, fabricIndex);
            && HasGroup(out, group)
            && (forall i :: 0 <= i < |out| && out[i].group == group ==> out[i].keySet == keySet)
            && |list| <= |out| <= |list| + 1
            && (forall i :: 0 <= i < |list| ==> out[i].group == list[i].group)
            && (forall i :: 0 <= i < |list| && list[i].group != group ==> out[i] == list[i])
            && (forall i :: |list| <= i < |out| ==> out[i].group == group)
            && (OnePerGroup(list) ==> OnePerGroup(out))
  {
    RemapAt(list, group, keySet);
    var out := MapAdd(list, group, keySet, fabricIndex);
    if HasGroup(list, group) {
      var i :| 0 <= i < |list| && list[i].group == group;
      assert out[i].group == group;
    } else {
      assert out[|list|].group == group;
    }
  }

  /** Removing drops exactly the group's entries, in order. */
  lemma {:induction false} MapRemoveExactly(list: KeyMap, group: nat)
    ensures var out := MapRemove(list, group);
            && (forall e :: e in out <==> e in list && e.group != group)
            && |out| <= |list|
            && (|out| == |list| <==> !HasGroup(list, group))
            && (|out| == |list| ==> out == list)
  {
    if list != [] {
      MapRemoveExactly(list[1..], group);
      assert [list[0]] + list[1..] == list;
      if HasGroup(list[1..], group) {
        var i :| 0 <= i < |list| - 1 && list[1..][i].group == group;
        assert list[i + 1].group == group;
      }
      if i :| 0 <= i < |list| && list[i].group == group {
        assert i > 0 ==> list[1..][i - 1].group == group;
      }
    }
  }

  lemma {:induction false} MapRemoveOnePerGroup(list: KeyMap, group: nat)
    requires OnePerGroup(list)
    ensures OnePerGroup(MapRemove(list, group))
  {
    if list != [] {
      var rest := MapRemove(list[1..], group);
      MapRemoveOnePerGroup(list[1..], group);
      MapRemoveExactly(list[1..], group);
      forall j | 0 <= j < |rest| ensures rest[j].group != list[0].group {
        assert rest[j] in list[1..];
      }
    }
  }

  // ---------------------------------------------------------------------------
  // Allocating ids
  // ---------------------------------------------------------------------------

  /** The smallest free id from 1 up, or none when all up to `max` are used. */
  method NextId(used: set<nat>, max: nat) returns (id: Option<nat>)
    ensures id.Some? ==> 1 <= id.value <= max && id.value !in used && forall k :: 1 <= k < id.value ==> k in used
    ensures id.None? <==> forall k :: 1 <= k <= max ==> k in used
    ensures id.None? ==> |used| >= max
  {
    for n := 1 to max + 1
      invariant forall k :: 1 <= k < n ==> k in used
    {
      if n !in used {
        return Some(n);
      }
    }
    IdsRunOutOnlyWhenAllUsed(used, max);
    id := None;
  }

  /** As long as fewer groups exist than ids, one is free. */
  lemma {:induction false} IdsRunOutOnlyWhenAllUsed(used: set<nat>, max: nat)
    requires forall k :: 1 <= k <= max ==> k in used
    ensures |used| >= max
  {
    if max > 0 {
      IdsRunOutOnlyWhenAllUsed(used - {max}, max - 1);
    }
  }

  // ---------------------------------------------------------------------------
  // A member device
  // ---------------------------------------------------------------------------

  /** Key sets, key map, group table (endpoint and group) and access list of a device. */
  datatype Device = Device(keySets: set<nat>, keyMap: KeyMap, table: set<(nat, nat)>, acl: Acl)

  datatype GroupLimits = GroupLimits(groups: Option<int>, keySets: Option<int>)

  datatype Problem = Failed | KeySetsFull | GroupsFull | GroupRefused | AccessRefused(reason: Refusal)

  datatype Result = Succeeded | Stopped(problem: Problem)

  /** The states a device went through, and how the steps ended. */
  datatype Steps = Steps(states: seq<Device>, result: Result)

  function Last(d: Device, s: Steps): Device { if s.states == [] then d else s.states[|s.states| - 1] }

  function GroupsIn(table: set<(nat, nat)>): set<nat> { set p | p in table :: p.1 }

  function GroupsMapped(list: KeyMap): set<nat> { set i | 0 <= i < |list| :: list[i].group }

  /** What a member is provisioned with, and the limits and fabric index its device reports. */
  datatype Member = Member(group: nat, keySet: nat, endpoint: nat, clusters: seq<nat>, sheNode: nat,
                           groupLimits: GroupLimits, aclLimits: Reported, fabricIndex: Option<nat>)

  /** Which steps of ensuring the key set fail. */
  datatype EnsurePlan = EnsurePlan(indices: bool, mapRead: bool, tableRead: bool, keySetWrite: Fault,
                                   mapWrite: Fault, mapReadBack: bool)

  function CheckLimits(d: Device, m: Member, groupIsNew: bool, tableUnreadable: bool): Option<Problem> {
    var groupsOnDevice := |if tableUnreadable then GroupsMapped(d.keyMap) else GroupsIn(d.table)|;
    if m.keySet !in d.keySets && |d.keySets| + 1 > Limit(m.groupLimits.keySets, 3) then Some(KeySetsFull)
    else if groupIsNew && !HasGroup(d.keyMap, m.group)
        && groupsOnDevice + 1 > Limit(m.groupLimits.groups, 4) then Some(GroupsFull)
    else None
  }

  /** The map entry, written when missing, on a device that has the key set. */
  function MapSteps(d: Device, states: seq<Device>, m: Member, p: EnsurePlan): Steps {
    var list := MapAdd(d.keyMap, m.group, m.keySet, m.fabricIndex);
    if list == d.keyMap then Steps(states, Succeeded)
    else if p.mapWrite == Before then Steps(states, Stopped(Failed))
    else
      var next := states + [d.(keyMap := list)];
      if p.mapWrite == After || p.mapReadBack then Steps(next, Stopped(Failed)) else Steps(next, Succeeded)
  }

  function EnsureSteps(d: Device, m: Member, groupIsNew: bool, p: EnsurePlan): Steps {
    if p.indices || p.mapRead then Steps([], Stopped(Failed))
    else
      match CheckLimits(d, m, groupIsNew, p.tableRead)
      case Some(problem) => Steps([], Stopped(problem))
      case None =>
        if m.keySet in d.keySets then MapSteps(d, [], m, p)
        else if p.keySetWrite == Before then Steps([], Stopped(Failed))
        else
          var keyed := d.(keySets := d.keySets + {m.keySet});
          if p.keySetWrite == After then Steps([keyed], Stopped(Failed)) else MapSteps(keyed, [keyed], m, p)
  }

  /** Which steps of dropping the key set fail. */
  datatype DropPlan = DropPlan(mapRead: bool, mapWrite: Fault, keySetRemove: Fault)

  /** Removing the key set when nothing maps it; a failure is only logged. */
  function RemoveKeySet(d: Device, states: seq<Device>, keySet: nat, p: DropPlan): Steps {
    if StillMapped(d.keyMap, keySet) || p.keySetRemove == Before then Steps(states, Succeeded)
    else Steps(states + [d.(keySets := d.keySets - {keySet})], Succeeded)
  }

  function DropSteps(d: Device, group: nat, keySet: nat, p: DropPlan): Steps {
    if p.mapRead then Steps([], Stopped(Failed))
    else
      var list := MapRemove(d.keyMap, group);
      if |list| == |d.keyMap| then RemoveKeySet(d, [], keySet, p)
      else if p.mapWrite == Before then Steps([], Stopped(Failed))
      else
        var dropped := d.(keyMap := list);
        if p.mapWrite == After then Steps([dropped], Stopped(Failed)) else RemoveKeySet(dropped, [dropped], keySet, p)
  }

  // ----- provisioning and taking out a member -----

  /** AddGroup may fail, or be refused by the device. */
  datatype ProvisionPlan = ProvisionPlan(ensurePlan: EnsurePlan, addGroup: Fault, refused: bool,
                                         aclRead: bool, aclWrite: Fault, aclReadBack: bool)

  function MemberGrantee(m: Member): Grantee { Grantee(m.group, GROUP, m.endpoint) }

  function MemberGrant(d: Device, m: Member): Outcome<Acl> {
    Grant(d.acl, GrantRequest(MemberGrantee(m), m.clusters, m.sheNode, m.aclLimits, m.fabricIndex))
  }

  function AccessSteps(d: Device, states: seq<Device>, m: Member, p: ProvisionPlan): Steps {
    if p.aclRead then Steps(states, Stopped(Failed))
    else
      match MemberGrant(d, m)
      case Refused(reason) => Steps(states, Stopped(AccessRefused(reason)))
      case Done(acl) =>
        if acl == d.acl then Steps(states, Succeeded)
        else if p.aclWrite == Before then Steps(states, Stopped(Failed))
        else
          var next := states + [d.(acl := acl)];
          if p.aclWrite == After || p.aclReadBack then Steps(next, Stopped(Failed)) else Steps(next, Succeeded)
  }

  function ProvisionSteps(d: Device, m: Member, p: ProvisionPlan): Steps {
    var ensured := EnsureSteps(d, m, true, p.ensurePlan);
    var d1 := Last(d, ensured);
    if ensured.result.Stopped? then ensured
    else if p.addGroup == Before then Steps(ensured.states, Stopped(Failed))
    else if p.refused then Steps(ensured.states, Stopped(GroupRefused))
    else
      var joined := d1.(table := d1.table + {(m.endpoint, m.group)});
      var next := ensured.states + [joined];
      if p.addGroup == After then Steps(next, Stopped(Failed)) else AccessSteps(joined, next, m, p)
  }

  datatype DeprovisionPlan = DeprovisionPlan(removeGroup: Fault, aclRead: bool, aclWrite: Fault, dropPlan: DropPlan)

  function LeaveSteps(d: Device, m: Member, p: DeprovisionPlan): seq<Device> {
    if p.removeGroup == Before then [] else [d.(table := d.table - {(m.endpoint, m.group)})]
  }

  function RevokeSteps(d: Device, m: Member, p: DeprovisionPlan): seq<Device> {
    if p.aclRead then []
    else
      match Revoke(d.acl, MemberGrantee(m), m.clusters, m.sheNode)
      case Refused(_) => []
      case Done(acl) => if acl == d.acl || p.aclWrite == Before then [] else [d.(acl := acl)]
  }

  function LastOf(d: Device, states: seq<Device>): Device { if states == [] then d else states[|states| - 1] }

  /** Each step is tried whatever became of the one before; the key set stays while another endpoint is a member. */
  function DeprovisionStates(d: Device, m: Member, stillMember: bool, p: DeprovisionPlan): seq<Device> {
    var left := LeaveSteps(d, m, p);
    var d1 := LastOf(d, left);
    var revoked := RevokeSteps(d1, m, p);
    var d2 := LastOf(d1, revoked);
    left + revoked + (if stillMember then [] else DropSteps(d2, m.group, m.keySet, p.dropPlan).states)
  }

  lemma LastOfLeave(d: Device, m: Member, p: DeprovisionPlan)
    ensures LastOf(d, LeaveSteps(d, m, p)) ==
            if p.removeGroup == Before then d else d.(table := d.table - {(m.endpoint, m.group)})
  {
  }

  lemma LastOfBoth(d: Device, x: seq<Device>, y: seq<Device>)
    ensures LastOf(LastOf(d, x), y) == LastOf(d, x + y)
  {
  }

  lemma LastIsLastOf(d: Device, s: Steps)
    ensures Last(d, s) == LastOf(d, s.states)
  {
  }

  // ---------------------------------------------------------------------------
  // The controller's side
  // ---------------------------------------------------------------------------

  /** A member device as the controller drives it; `seen` records every state it takes. */
  class Provisioner {
    var device: Device
    ghost var seen: seq<Device>

    constructor (device: Device)
      ensures this.device == device && seen == []
    {
      this.device := device;
      seen := [];
    }

    /** One write or command; it may fail before or after it takes effect. */
    method Apply(next: Device, fault: Fault) returns (ok: bool)
      modifies this
      ensures ok == (fault == Fine)
      ensures device == if fault == Before then old(device) else next
      ensures seen == if fault == Before then old(seen) else old(seen) + [next]
    {
      if fault != Before {
        device := next;
        seen := seen + [device];
      }
      ok := fault == Fine;
    }

    method EnsureKeySet(m: Member, groupIsNew: bool, p: EnsurePlan) returns (result: Result)
      modifies this
      ensures var steps := EnsureSteps(old(device), m, groupIsNew, p);
              result == steps.result && seen == old(seen) + steps.states && device == Last(old(device), steps)
    {
      hide CheckLimits, MapAdd;
      if p.indices || p.mapRead {
        return Stopped(Failed);
      }
      var list := device.keyMap;
      var problem := CheckLimits(device, m, groupIsNew, p.tableRead);
      if problem.Some? {
        return Stopped(problem.value);
      }
      if m.keySet !in device.keySets {
        var keyed := Apply(device.(keySets := device.keySets + {m.keySet}), p.keySetWrite);
        if !keyed {
          return Stopped(Failed);
        }
      }
      var after := MapAdd(list, m.group, m.keySet, m.fabricIndex);
      if after != list {
        var written := Apply(device.(keyMap := after), p.mapWrite);
        if !written || p.mapReadBack {
          return Stopped(Failed);
        }
      }
      result := Succeeded;
    }

    method DropKeySet(group: nat, keySet: nat, p: DropPlan) returns (result: Result)
      modifies this
      ensures var steps := DropSteps(old(device), group, keySet, p);
              result == steps.result && seen == old(seen) + steps.states && device == Last(old(device), steps)
    {
      hide MapRemove, StillMapped;
      if p.mapRead {
        return Stopped(Failed);
      }
      var list := device.keyMap;
      var after := MapRemove(list, group);
      MapRemoveExactly(list, group);
      if |after| != |list| {
        var written := Apply(device.(keyMap := after), p.mapWrite);
        if !written {
          return Stopped(Failed);
        }
      }
      if !StillMapped(after, keySet) {
        var removed := Apply(device.(keySets := device.keySets - {keySet}), p.keySetRemove);
      }
      result := Succeeded;
    }

    method ProvisionMember(m: Member, p: ProvisionPlan) returns (result: Result)
      modifies this
      ensures var steps := ProvisionSteps(old(device), m, p);
              result == steps.result && seen == old(seen) + steps.states && device == Last(old(device), steps)
    {
      hide EnsureSteps, Grant;
      result := EnsureKeySet(m, true, p.ensurePlan);
      if result.Stopped? {
        return;
      }
      if p.addGroup != Before && p.refused {
        return Stopped(GroupRefused);
      }
      var joined := Apply(device.(table := device.table + {(m.endpoint, m.group)}), p.addGroup);
      if !joined || p.aclRead {
        return Stopped(Failed);
      }
      var grant := GrantOperate(device.acl,
                                GrantRequest(MemberGrantee(m), m.clusters, m.sheNode, m.aclLimits, m.fabricIndex));
      if grant.Refused? {
        return Stopped(AccessRefused(grant.reason));
      }
      if grant.value != device.acl {
        var written := Apply(device.(acl := grant.value), p.aclWrite);
        if !written || p.aclReadBack {
          return Stopped(Failed);
        }
      }
      result := Succeeded;
    }

    method RevokeAccess(m: Member, p: DeprovisionPlan)
      modifies this
      ensures seen == old(seen) + RevokeSteps(old(device), m, p)
      ensures device == LastOf(old(device), RevokeSteps(old(device), m, p))
    {
      hide Revoke;
      if !p.aclRead {
        var revoked := RevokeOperate(device.acl, MemberGrantee(m), m.clusters, m.sheNode);
        if revoked.Done? && revoked.value != device.acl {
          var written := Apply(device.(acl := revoked.value), p.aclWrite);
        }
      }
    }

    method DeprovisionMember(m: Member, stillMember: bool, p: DeprovisionPlan)
      modifies this
      ensures var states := DeprovisionStates(old(device), m, stillMember, p);
              seen == old(seen) + states && device == LastOf(old(device), states)
    {
      hide DropSteps, RevokeSteps, LastOf, Last;
      ghost var start := device;
      ghost var left, revoked := LeaveSteps(start, m, p), RevokeSteps(LastOf(start, LeaveSteps(start, m, p)), m, p);
      LastOfLeave(start, m, p);
      var removed := Apply(device.(table := device.table - {(m.endpoint, m.group)}), p.removeGroup);
      assert seen == old(seen) + left && device == LastOf(start, left);
      RevokeAccess(m, p);
      LastOfBoth(start, left, revoked);
      assert seen == old(seen) + (left + revoked) && device == LastOf(start, left + revoked);
      if !stillMember {
        ghost var states := DropSteps(device, m.group, m.keySet, p.dropPlan).states;
        LastOfBoth(start, left + revoked, states);
        LastIsLastOf(device, DropSteps(device, m.group, m.keySet, p.dropPlan));
        var dropped := DropKeySet(m.group, m.keySet, p.dropPlan);
        assert seen == old(seen) + (left + revoked + states);
      } else {
        assert left + revoked + [] == left + revoked;
      }
    }
  }

  // ---------------------------------------------------------------------------
  // What every step keeps
  // ---------------------------------------------------------------------------

  function Max(a: nat, b: nat): nat { if a < b then b else a }

  /**
   * What holds of a device still holds later: key map entries name present key sets, a group has
   * one entry, she's Administer entry is there; and the key sets did not grow past the limit.
   */
  predicate Kept(d: Device, later: Device, limit: nat, sheNode: nat) {
    && (NamesPresent(d.keyMap, d.keySets) ==> NamesPresent(later.keyMap, later.keySets))
    && (OnePerGroup(d.keyMap) ==> OnePerGroup(later.keyMap))
    && (SafeAcl(d.acl, sheNode) ==> SafeAcl(later.acl, sheNode))
    && |later.keySets| <= Max(|d.keySets|, limit)
  }

  predicate AllKept(d: Device, states: seq<Device>, limit: nat, sheNode: nat) {
    forall k :: 0 <= k < |states| ==> Kept(d, states[k], limit, sheNode)
  }

  function KeySetLimit(m: Member): nat { Limit(m.groupLimits.keySets, 3) }

  lemma KeptSame(d: Device, limit: nat, sheNode: nat)
    ensures Kept(d, d, limit, sheNode)
  {
  }

  /** States reached from a kept one are kept. */
  lemma KeptOn(d: Device, states: seq<Device>, more: seq<Device>, limit: nat, sheNode: nat)
    requires AllKept(d, states, limit, sheNode) && AllKept(LastOf(d, states), more, limit, sheNode)
    ensures AllKept(d, states + more, limit, sheNode) && Kept(d, LastOf(d, states + more), limit, sheNode)
  {
  }

  lemma OneKept(d: Device, next: Device, limit: nat, sheNode: nat)
    requires Kept(d, next, limit, sheNode)
    ensures AllKept(d, [next], limit, sheNode)
  {
  }

  lemma KeySetKept(d: Device, keySet: nat, limit: nat, sheNode: nat)
    requires keySet in d.keySets || |d.keySets| + 1 <= limit
    ensures Kept(d, d.(keySets := d.keySets + {keySet}), limit, sheNode)
  {
  }

  /** The map entry is written after the key set, so it names one that is there. */
  lemma MapKept(d: Device, m: Member, limit: nat)
    requires m.keySet in d.keySets
    ensures Kept(d, d.(keyMap := MapAdd(d.keyMap, m.group, m.keySet, m.fabricIndex)), limit, m.sheNode)
  {
    MapAddExactly(d.keyMap, m.group, m.keySet, m.fabricIndex);
    hide MapAdd, OnePerGroup;
  }

  lemma MapStepsKept(d: Device, states: seq<Device>, m: Member, p: EnsurePlan)
    requires m.keySet in d.keySets
    ensures MapSteps(d, states, m, p).states ==
            states + (if MapAdd(d.keyMap, m.group, m.keySet, m.fabricIndex) == d.keyMap || p.mapWrite == Before then []
                      else [d.(keyMap := MapAdd(d.keyMap, m.group, m.keySet, m.fabricIndex))])
    ensures exists more ::
              MapSteps(d, states, m, p).states == states + more && AllKept(d, more, KeySetLimit(m), m.sheNode)
  {
    hide MapAdd;
    MapKept(d, m, KeySetLimit(m));
    var next := d.(keyMap := MapAdd(d.keyMap, m.group, m.keySet, m.fabricIndex));
    OneKept(d, next, KeySetLimit(m), m.sheNode);
    var more := if next.keyMap == d.keyMap || p.mapWrite == Before then [] else [next];
    assert MapSteps(d, states, m, p).states == states + more;
  }

  /** Ensuring the key set keeps all of that, in every state and after every failure. */
  lemma EnsureKept(d: Device, m: Member, groupIsNew: bool, p: EnsurePlan)
    ensures AllKept(d, EnsureSteps(d, m, groupIsNew, p).states, KeySetLimit(m), m.sheNode)
    ensures Kept(d, Last(d, EnsureSteps(d, m, groupIsNew, p)), KeySetLimit(m), m.sheNode)
  {
    KeptSame(d, KeySetLimit(m), m.sheNode);
    if CheckLimits(d, m, groupIsNew, p.tableRead).None? {
      var keyed := d.(keySets := d.keySets + {m.keySet});
      KeySetKept(d, m.keySet, KeySetLimit(m), m.sheNode);
      OneKept(d, keyed, KeySetLimit(m), m.sheNode);
      MapStepsKept(keyed, [keyed], m, p);
      var more :| MapSteps(keyed, [keyed], m, p).states == [keyed] + more
          && AllKept(keyed, more, KeySetLimit(m), m.sheNode);
      KeptOn(d, [keyed], more, KeySetLimit(m), m.sheNode);
      if m.keySet in d.keySets {
        MapStepsKept(d, [], m, p);
        var direct :| MapSteps(d, [], m, p).states == [] + direct && AllKept(d, direct, KeySetLimit(m), m.sheNode);
        KeptOn(d, [], direct, KeySetLimit(m), m.sheNode);
        assert [] + direct == direct;
      }
    }
    hide Kept, MapSteps, CheckLimits;
  }

  lemma DroppedKept(d: Device, group: nat, limit: nat, sheNode: nat)
    ensures Kept(d, d.(keyMap := MapRemove(d.keyMap, group)), limit, sheNode)
  {
    MapRemoveExactly(d.keyMap, group);
    if OnePerGroup(d.keyMap) {
      MapRemoveOnePerGroup(d.keyMap, group);
    }
    var list := MapRemove(d.keyMap, group);
    forall i | 0 <= i < |list| && NamesPresent(d.keyMap, d.keySets) ensures list[i].keySet in d.keySets {
      assert list[i] in d.keyMap;
    }
    hide OnePerGroup;
  }

  lemma UnmappedKept(d: Device, keySet: nat, limit: nat, sheNode: nat)
    requires !StillMapped(d.keyMap, keySet)
    ensures Kept(d, d.(keySets := d.keySets - {keySet}), limit, sheNode)
  {
  }

  /** Dropping keeps it too: a key set goes only when no entry names it. */
  lemma DropKept(d: Device, group: nat, keySet: nat, p: DropPlan, limit: nat, sheNode: nat)
    ensures AllKept(d, DropSteps(d, group, keySet, p).states, limit, sheNode)
    ensures Kept(d, Last(d, DropSteps(d, group, keySet, p)), limit, sheNode)
  {
    var dropped := d.(keyMap := MapRemove(d.keyMap, group));
    KeptSame(d, limit, sheNode);
    DroppedKept(d, group, limit, sheNode);
    OneKept(d, dropped, limit, sheNode);
    if !StillMapped(d.keyMap, keySet) {
      UnmappedKept(d, keySet, limit, sheNode);
    }
    if !StillMapped(dropped.keyMap, keySet) {
      var removed := dropped.(keySets := dropped.keySets - {keySet});
      UnmappedKept(dropped, keySet, limit, sheNode);
      OneKept(dropped, removed, limit, sheNode);
      KeptOn(d, [dropped], [removed], limit, sheNode);
    }
    hide Kept, StillMapped;
  }

  lemma TableKept(d: Device, table: set<(nat, nat)>, limit: nat, sheNode: nat)
    ensures Kept(d, d.(table := table), limit, sheNode)
  {
  }

  lemma AclKept(d: Device, acl: Acl, limit: nat, sheNode: nat)
    requires SafeAcl(d.acl, sheNode) ==> SafeAcl(acl, sheNode)
    ensures Kept(d, d.(acl := acl), limit, sheNode)
  {
  }

  lemma AccessShape(d: Device, states: seq<Device>, m: Member, p: ProvisionPlan) returns (more: seq<Device>)
    ensures AccessSteps(d, states, m, p).states == states + more && AllKept(d, more, KeySetLimit(m), m.sheNode)
  {
    if p.aclRead || MemberGrant(d, m).Refused? || MemberGrant(d, m).value == d.acl || p.aclWrite == Before {
      more := [];
    } else {
      var acl := MemberGrant(d, m).value;
      GrantExtends(d.acl, GrantRequest(MemberGrantee(m), m.clusters, m.sheNode, m.aclLimits, m.fabricIndex));
      AclKept(d, acl, KeySetLimit(m), m.sheNode);
      more := [d.(acl := acl)];
    }
    hide MemberGrant, Kept;
  }

  /** Provisioning a member keeps all of it, in every state and after every failure. */
  lemma ProvisionKept(d: Device, m: Member, p: ProvisionPlan)
    ensures AllKept(d, ProvisionSteps(d, m, p).states, KeySetLimit(m), m.sheNode)
    ensures Kept(d, Last(d, ProvisionSteps(d, m, p)), KeySetLimit(m), m.sheNode)
  {
    var ensured := EnsureSteps(d, m, true, p.ensurePlan);
    var d1 := Last(d, ensured);
    var joined := d1.(table := d1.table + {(m.endpoint, m.group)});
    EnsureKept(d, m, true, p.ensurePlan);
    TableKept(d1, joined.table, KeySetLimit(m), m.sheNode);
    OneKept(d1, joined, KeySetLimit(m), m.sheNode);
    KeptOn(d, ensured.states, [joined], KeySetLimit(m), m.sheNode);
    var more := AccessShape(joined, ensured.states + [joined], m, p);
    KeptOn(d, ensured.states + [joined], more, KeySetLimit(m), m.sheNode);
    hide Kept, AllKept, EnsureSteps, AccessSteps;
  }

  lemma RevokeStepsKept(d: Device, m: Member, p: DeprovisionPlan)
    ensures AllKept(d, RevokeSteps(d, m, p), KeySetLimit(m), m.sheNode)
  {
    if SafeAcl(d.acl, m.sheNode) {
      RevokeKeepsAdmin(d.acl, MemberGrantee(m), m.clusters, m.sheNode);
      AclKept(d, RevokeAll(d.acl, MemberGrantee(m), m.clusters), KeySetLimit(m), m.sheNode);
    }
    hide Kept, SafeAcl;
  }

  /** Taking a member out keeps all of it, whatever fails on the way. */
  lemma DeprovisionKept(d: Device, m: Member, stillMember: bool, p: DeprovisionPlan)
    ensures AllKept(d, DeprovisionStates(d, m, stillMember, p), KeySetLimit(m), m.sheNode)
    ensures Kept(d, LastOf(d, DeprovisionStates(d, m, stillMember, p)), KeySetLimit(m), m.sheNode)
  {
    var left := LeaveSteps(d, m, p);
    var d1 := LastOf(d, left);
    var revoked := RevokeSteps(d1, m, p);
    var d2 := LastOf(d1, revoked);
    var dropped := if stillMember then [] else DropSteps(d2, m.group, m.keySet, p.dropPlan).states;
    TableKept(d, d.table - {(m.endpoint, m.group)}, KeySetLimit(m), m.sheNode);
    RevokeStepsKept(d1, m, p);
    DropKept(d2, m.group, m.keySet, p.dropPlan, KeySetLimit(m), m.sheNode);
    KeptOn(d, left, revoked, KeySetLimit(m), m.sheNode);
    KeptOn(d, left + revoked, dropped, KeySetLimit(m), m.sheNode);
    hide Kept, RevokeSteps, DropSteps;
  }

  // ----- runs -----

  datatype Op = Provision(m: Member, pp: ProvisionPlan) | Deprovision(m: Member, stillMember: bool, dp: DeprovisionPlan)

  function OpStates(d: Device, op: Op): seq<Device> {
    match op
    case Provision(m, p) => ProvisionSteps(d, m, p).states
    case Deprovision(m, stillMember, p) => DeprovisionStates(d, m, stillMember, p)
  }

  /** Every state the device takes over a run of operations, with any failures. */
  function RunStates(d: Device, ops: seq<Op>): seq<Device>
    decreases ops
  {
    if ops == [] then [] else OpStates(d, ops[0]) + RunStates(LastOf(d, OpStates(d, ops[0])), ops[1..])
  }

  /**
   * Over every run of provisioning and taking out, with failures at any step, a device's key map
   * names present key sets, has one entry per group, keeps she's Administer entry, and its key
   * sets stay within the limit it reports.
   */
  lemma {:induction false} KeptOverEveryRun(d: Device, ops: seq<Op>, limit: nat, sheNode: nat)
    requires forall i :: 0 <= i < |ops| ==> KeySetLimit(ops[i].m) == limit && ops[i].m.sheNode == sheNode
    ensures AllKept(d, RunStates(d, ops), limit, sheNode)
    decreases ops
  {
    if ops != [] {
      var states := OpStates(d, ops[0]);
      match ops[0] {
        case Provision(m, p) => ProvisionKept(d, m, p);
        case Deprovision(m, stillMember, p) => DeprovisionKept(d, m, stillMember, p);
      }
      KeptOverEveryRun(LastOf(d, states), ops[1..], limit, sheNode);
      KeptOn(d, states, RunStates(LastOf(d, states), ops[1..]), limit, sheNode);
    }
    hide Kept, ProvisionSteps, DeprovisionStates, KeySetLimit;
  }

  // ---------------------------------------------------------------------------
  // What success means
  // ---------------------------------------------------------------------------

  /** The device has the key set and its map gives it to the group. */
  predicate Keyed(d: Device, group: nat, keySet: nat) {
    keySet in d.keySets && HasGroup(d.keyMap, group) &&
    forall i :: 0 <= i < |d.keyMap| && d.keyMap[i].group == group ==> d.keyMap[i].keySet == keySet
  }

  lemma MapSucceeds(d: Device, states: seq<Device>, m: Member, p: EnsurePlan)
    requires m.keySet in d.keySets && MapSteps(d, states, m, p).result.Succeeded?
    requires states == [] || states[|states| - 1] == d
    ensures var later := Last(d, MapSteps(d, states, m, p));
            && Keyed(later, m.group, m.keySet)
            && later.table == d.table && later.acl == d.acl && later.keySets == d.keySets
    ensures |MapSteps(d, states, m, p).states| >= |states|
  {
    MapAddExactly(d.keyMap, m.group, m.keySet, m.fabricIndex);
    hide MapAdd;
  }

  lemma EnsureSucceeds(d: Device, m: Member, groupIsNew: bool, p: EnsurePlan)
    requires EnsureSteps(d, m, groupIsNew, p).result.Succeeded?
    ensures var later := Last(d, EnsureSteps(d, m, groupIsNew, p));
            Keyed(later, m.group, m.keySet) && later.table == d.table && later.acl == d.acl
            && later.keySets == d.keySets + {m.keySet}
    ensures CheckLimits(d, m, groupIsNew, p.tableRead).None?
  {
    var keyed := d.(keySets := d.keySets + {m.keySet});
    hide CheckLimits, MapSteps;
    if m.keySet in d.keySets {
      MapSucceeds(d, [], m, p);
      assert d.keySets + {m.keySet} == d.keySets;
    } else {
      MapSucceeds(keyed, [keyed], m, p);
    }
  }

  lemma AccessSucceeds(d: Device, states: seq<Device>, m: Member, p: ProvisionPlan, id: nat)
    requires AccessSteps(d, states, m, p).result.Succeeded? && id in m.clusters
    requires states != [] && states[|states| - 1] == d
    ensures var later := LastOf(d, AccessSteps(d, states, m, p).states);
            Grants(later.acl, MemberGrantee(m), id) && later == d.(acl := later.acl)
    ensures |AccessSteps(d, states, m, p).states| >= |states|
  {
    GrantExactly(d.acl, GrantRequest(MemberGrantee(m), m.clusters, m.sheNode, m.aclLimits, m.fabricIndex),
        MemberGrantee(m), id);
    hide Grant, Grants;
  }

  /** A provisioned member has the key set and its map entry, is in the group, and grants the group its clusters. */
  lemma ProvisionSucceeds(d: Device, m: Member, p: ProvisionPlan, id: nat)
    requires ProvisionSteps(d, m, p).result.Succeeded? && id in m.clusters
    ensures var later := Last(d, ProvisionSteps(d, m, p));
            && Keyed(later, m.group, m.keySet)
            && later.table == d.table + {(m.endpoint, m.group)}
            && Grants(later.acl, MemberGrantee(m), id)
  {
    var ensured := EnsureSteps(d, m, true, p.ensurePlan);
    hide EnsureSteps, AccessSteps, Keyed, Grants;
    EnsureSucceeds(d, m, true, p.ensurePlan);
    var d1 := Last(d, ensured);
    var joined := d1.(table := d1.table + {(m.endpoint, m.group)});
    AccessSucceeds(joined, ensured.states + [joined], m, p, id);
    SameKeyed(d1, LastOf(joined, AccessSteps(joined, ensured.states + [joined], m, p).states), m.group, m.keySet);
  }

  lemma SameKeyed(d: Device, later: Device, group: nat, keySet: nat)
    requires Keyed(d, group, keySet) && later.keySets == d.keySets && later.keyMap == d.keyMap
    ensures Keyed(later, group, keySet)
  {
  }

  /**
   * After dropping, the group has no entry; the key set is gone exactly when no other entry names it
   * and its removal took effect.
   */
  lemma DropSucceeds(d: Device, group: nat, keySet: nat, p: DropPlan)
    requires DropSteps(d, group, keySet, p).result.Succeeded?
    ensures var later := Last(d, DropSteps(d, group, keySet, p));
            && (forall e :: e in later.keyMap <==> e in d.keyMap && e.group != group)
            && (keySet in later.keySets <==>
                keySet in d.keySets && (p.keySetRemove == Before || StillMapped(later.keyMap, keySet)))
            && later.keySets - {keySet} == d.keySets - {keySet}
  {
    MapRemoveExactly(d.keyMap, group);
    hide MapRemove, StillMapped, HasGroup, OnePerGroup;
  }

  /** The step that writes the shortened access list is reached, and it takes effect. */
  predicate RevokeApplies(d: Device, m: Member, p: DeprovisionPlan) {
    !p.aclRead && SafeAcl(d.acl, m.sheNode) && p.aclWrite != Before
  }

  lemma LeaveExactly(d: Device, m: Member, p: DeprovisionPlan)
    ensures var later := LastOf(d, LeaveSteps(d, m, p));
            && later == d.(table := later.table)
            && later.table == (if p.removeGroup == Before then d.table else d.table - {(m.endpoint, m.group)})
  {
  }

  lemma RevokedExactly(d: Device, m: Member, p: DeprovisionPlan, h: Grantee, id: nat)
    ensures var later := LastOf(d, RevokeSteps(d, m, p));
            && later == d.(acl := later.acl)
            && (Grants(later.acl, h, id) <==>
                Grants(d.acl, h, id) && !(RevokeApplies(d, m, p) && h == MemberGrantee(m) && id in m.clusters))
  {
    RevokeExactly(d.acl, MemberGrantee(m), m.clusters, h, id);
    if SafeAcl(d.acl, m.sheNode) {
      RevokeKeepsAdmin(d.acl, MemberGrantee(m), m.clusters, m.sheNode);
    }
    hide RevokeAll, Grants;
  }

  lemma DropTouches(d: Device, group: nat, keySet: nat, p: DropPlan)
    ensures var later := Last(d, DropSteps(d, group, keySet, p));
            && later.table == d.table && later.acl == d.acl
            && (!p.mapRead && p.mapWrite != Before ==> forall e :: e in later.keyMap <==>
                e in d.keyMap && e.group != group)
  {
    MapRemoveExactly(d.keyMap, group);
    hide MapRemove, StillMapped, HasGroup;
  }

  /**
   * What taking a member out achieves, step by step, whatever else fails: the group leaves that
   * endpoint of the table and no other entry; it loses exactly the clusters it was granted there;
   * and unless another endpoint is still a member its key map entry goes.
   */
  lemma DeprovisionExactly(d: Device, m: Member, stillMember: bool, p: DeprovisionPlan, h: Grantee, id: nat)
    ensures var later := LastOf(d, DeprovisionStates(d, m, stillMember, p));
            && later.table == (if p.removeGroup == Before then d.table else d.table - {(m.endpoint, m.group)})
            && (Grants(later.acl, h, id) <==>
                Grants(d.acl, h, id) && !(RevokeApplies(d, m, p) && h == MemberGrantee(m) && id in m.clusters))
            && (!stillMember && !p.dropPlan.mapRead && p.dropPlan.mapWrite != Before ==>
                  forall e :: e in later.keyMap <==> e in d.keyMap && e.group != m.group)
            && (stillMember ==> later.keyMap == d.keyMap && later.keySets == d.keySets)
  {
    var left := LeaveSteps(d, m, p);
    var d1 := LastOf(d, left);
    var revoked := RevokeSteps(d1, m, p);
    var d2 := LastOf(d1, revoked);
    LeaveExactly(d, m, p);
    RevokedExactly(d1, m, p, h, id);
    LastOfBoth(d, left, revoked);
    if stillMember {
      assert left + revoked + [] == left + revoked;
    } else {
      var drop := DropSteps(d2, m.group, m.keySet, p.dropPlan);
      DropTouches(d2, m.group, m.keySet, p.dropPlan);
      LastOfBoth(d, left + revoked, drop.states);
      LastIsLastOf(d2, drop);
    }
    hide LeaveSteps, RevokeSteps, DropSteps, LastOf, Last, Grants;
  }

  // ----- the group count -----

  /** Nothing stops the steps that ensure the key set: reads, the limits, and the writes that are needed. */
  predicate EnsureGuards(d: Device, m: Member, groupIsNew: bool, p: EnsurePlan) {
    && !p.indices && !p.mapRead && CheckLimits(d, m, groupIsNew, p.tableRead).None?
    && (m.keySet !in d.keySets ==> p.keySetWrite == Fine)
    && (MapAdd(d.keyMap, m.group, m.keySet, m.fabricIndex) != d.keyMap ==> p.mapWrite == Fine && !p.mapReadBack)
  }

  lemma EnsureSucceedsExactly(d: Device, m: Member, groupIsNew: bool, p: EnsurePlan)
    ensures EnsureSteps(d, m, groupIsNew, p).result.Succeeded? <==> EnsureGuards(d, m, groupIsNew, p)
  {
    hide CheckLimits, MapAdd;
  }

  /** The device takes the group into its table: nothing stops the key set, and AddGroup takes effect. */
  predicate Joins(d: Device, m: Member, p: ProvisionPlan) {
    EnsureGuards(d, m, true, p.ensurePlan) && p.addGroup != Before && !p.refused
  }

  function GroupLimit(m: Member): nat { Limit(m.groupLimits.groups, 4) }

  /**
   * What the group check overlooks: the table is full and the group not in it, but the group is
   * mapped and so not taken for new, or the table cannot be read and the map, counted instead, is
   * short enough.
   */
  predicate Overlooked(d: Device, m: Member, tableUnreadable: bool) {
    && m.group !in GroupsIn(d.table) && |GroupsIn(d.table)| >= GroupLimit(m)
    && (HasGroup(d.keyMap, m.group) || (tableUnreadable && |GroupsMapped(d.keyMap)| < GroupLimit(m)))
  }

  predicate PastGroupLimit(d: Device, later: Device, m: Member) {
    |GroupsIn(later.table)| > Max(|GroupsIn(d.table)|, GroupLimit(m))
  }

  /** Access steps leave the table alone, however they end. */
  lemma AccessTable(d: Device, states: seq<Device>, m: Member, p: ProvisionPlan)
    requires states != [] && states[|states| - 1] == d
    ensures AccessSteps(d, states, m, p).states != [] && Last(d, AccessSteps(d, states, m, p)).table == d.table
  {
  }

  lemma EnsureTable(d: Device, m: Member, groupIsNew: bool, p: EnsurePlan)
    ensures Last(d, EnsureSteps(d, m, groupIsNew, p)).table == d.table
  {
    hide CheckLimits, MapAdd;
  }

  lemma LastAppended(d: Device, states: seq<Device>, next: Device)
    ensures Last(d, Steps(states + [next], Stopped(Failed))) == next
  {
  }

  lemma LastStates(d: Device, e: Device, s: Steps)
    requires s.states != []
    ensures Last(d, s) == Last(e, s)
  {
  }

  lemma ProvisionTable(d: Device, m: Member, p: ProvisionPlan)
    ensures Last(d, ProvisionSteps(d, m, p)).table == d.table + (if Joins(d, m, p) then {(m.endpoint, m.group)} else {})
  {
    hide EnsureSteps, AccessSteps, EnsureGuards;
    var ensured := EnsureSteps(d, m, true, p.ensurePlan);
    var d1 := Last(d, ensured);
    EnsureSucceedsExactly(d, m, true, p.ensurePlan);
    EnsureTable(d, m, true, p.ensurePlan);
    if Joins(d, m, p) {
      var joined := d1.(table := d1.table + {(m.endpoint, m.group)});
      AccessTable(joined, ensured.states + [joined], m, p);
      LastAppended(d, ensured.states, joined);
      LastStates(d, joined, AccessSteps(joined, ensured.states + [joined], m, p));
    } else {
      assert d.table + {} == d.table;
    }
  }

  /**
   * Whatever fails on the way, a device ends with more groups than its limit and than it had
   * exactly when it takes the group in and the group check overlooked that it is one too many.
   */
  lemma GroupLimitPassedExactly(d: Device, m: Member, p: ProvisionPlan)
    ensures PastGroupLimit(d, Last(d, ProvisionSteps(d, m, p)), m) <==>
            Joins(d, m, p) && Overlooked(d, m, p.ensurePlan.tableRead)
  {
    ProvisionTable(d, m, p);
    GroupJoins(d.table, m.endpoint, m.group);
    EnsureSucceedsExactly(d, m, true, p.ensurePlan);
    if Joins(d, m, p) {
      EnsureSucceeds(d, m, true, p.ensurePlan);
    }
    hide ProvisionSteps, EnsureSteps, EnsureGuards, GroupsIn, HasGroup, GroupsMapped;
  }

  /** A full table, an unreadable one, and an empty map: the fifth group is taken in, never mapped before. */
  lemma GroupLimitPassed(m: Member, p: ProvisionPlan)
    requires m.group == 9 && m.keySet == 1 && m.groupLimits.groups.None?
    requires p.ensurePlan == EnsurePlan(false, false, true, Fine, Fine, false) && p.addGroup == Fine && !p.refused
    ensures var d := Device({1}, [], {(1, 1), (1, 2), (1, 3), (1, 4)}, []);
            PastGroupLimit(d, Last(d, ProvisionSteps(d, m, p)), m)
  {
    var d := Device({1}, [], {(1, 1), (1, 2), (1, 3), (1, 4)}, []);
    assert GroupsIn(d.table) == {1, 2, 3, 4} by {
      assert (1, 1) in d.table && (1, 2) in d.table && (1, 3) in d.table && (1, 4) in d.table;
    }
    assert GroupsMapped(d.keyMap) == {};
    GroupLimitPassedExactly(d, m, p);
    hide ProvisionSteps;
  }

  lemma GroupJoins(table: set<(nat, nat)>, endpoint: nat, group: nat)
    ensures GroupsIn(table + {(endpoint, group)}) == GroupsIn(table) + {group}
    ensures |GroupsIn(table + {(endpoint, group)})| == |GroupsIn(table)| + (if group in GroupsIn(table) then 0 else 1)
  {
  }
}
