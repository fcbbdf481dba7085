// Matter bindings, the pure half (src/matter/bindings.js): what is written into a target's access
// control list and a source's binding list, and the guard around every list that is written.

module Bindings {
  import opened Text

  const OPERATE: nat := 3
  const ADMINISTER: nat := 5
  const CASE: nat := 2
  const GROUP: nat := 3

  datatype Target = Target(cluster: Option<nat>, endpoint: Option<nat>, deviceType: Option<nat>)

  datatype Entry = Entry(privilege: nat, authMode: nat, subjects: Option<seq<nat>>, targets: Option<seq<Target>>,
                         fabricIndex: Option<nat>)

  type Acl = seq<Entry>

  datatype Refusal =
    | NoAdminEntry | EntriesFull
    | NoClusters | UnknownNode | SameEndpoint | Offline | OtherFabric | DeviceFailed

  datatype Outcome<+T> = Done(value: T) | Refused(reason: Refusal)

  // ---------------------------------------------------------------------------
  // The access control list
  // ---------------------------------------------------------------------------

  /** Whom a grant is for, and on which endpoint: the subject under its auth mode. */
  datatype Grantee = Grantee(subject: nat, authMode: nat, endpoint: nat)

  predicate IsAdminEntry(e: Entry, sheNode: nat) {
    e.privilege == ADMINISTER && e.authMode == CASE && e.subjects.Some? && sheNode in e.subjects.value
  }

  function FindAdminEntry(acl: Acl, sheNode: nat): Option<Entry> {
    if acl == [] then None
    else if IsAdminEntry(acl[0], sheNode) then Some(acl[0])
    else FindAdminEntry(acl[1..], sheNode)
  }

  /** The guard in front of every write of an access control list. */
  predicate SafeAcl(acl: Acl, sheNode: nat) { FindAdminEntry(acl, sheNode).Some? }

  /** The entries she manages: Operate, the auth mode, exactly that subject, explicit targets. */
  predicate IsOwn(e: Entry, g: Grantee) {
    e.privilege == OPERATE && e.authMode == g.authMode && e.subjects == Some([g.subject]) && e.targets.Some?
  }

  predicate TargetMatches(t: Target, endpoint: nat, id: nat) {
    t.cluster == Some(id) && t.endpoint == Some(endpoint)
  }

  predicate HasTarget(targets: seq<Target>, endpoint: nat, id: nat) {
    exists j :: 0 <= j < |targets| && TargetMatches(targets[j], endpoint, id)
  }

  /** Some entry of she's own gives the grantee the cluster. */
  predicate Grants(acl: Acl, g: Grantee, id: nat) {
    exists i :: 0 <= i < |acl| && EntryGrants(acl[i], g, id)
  }

  predicate EntryGrants(e: Entry, g: Grantee, id: nat) {
    IsOwn(e, g) && HasTarget(e.targets.value, g.endpoint, id)
  }

  /** The limits a device reports. */
  datatype Reported = Reported(subjects: Option<int>, targets: Option<int>, entries: Option<int>)

  datatype Limits = Limits(subjects: nat, targets: nat, entries: nat)

  function Limit(reported: Option<int>, standard: nat): (n: nat)
    requires standard > 0
    ensures n > 0
    ensures if reported.Some? && reported.value > 0 then n == reported.value else n == standard
  {
    if reported.Some? && reported.value > 0 then reported.value else standard
  }

  function EffectiveLimits(r: Reported): (lim: Limits)
    ensures lim.targets > 0 && lim.entries > 0
  {
    Limits(Limit(r.subjects, 4), Limit(r.targets, 3), Limit(r.entries, 4))
  }

  /** Each value once, at its first place. */
  function Dedup(ids: seq<nat>): (r: seq<nat>)
    ensures forall id :: id in r <==> id in ids
    ensures NoRepeats(r)
  {
    if ids == [] then []
    else
      var rest := Dedup(ids[..|ids| - 1]);
      if ids[|ids| - 1] in rest then rest else rest + [ids[|ids| - 1]]
  }

  predicate NoRepeats(ids: seq<nat>) { forall i, j :: 0 <= i < j < |ids| ==> ids[i] != ids[j] }

  /** Those of the clusters that the grantee does not have yet. */
  function Missing(acl: Acl, g: Grantee, ids: seq<nat>): (r: seq<nat>)
    ensures forall id :: id in r <==> id in ids && !Grants(acl, g, id)
    ensures NoRepeats(ids) ==> NoRepeats(r)
  {
    if ids == [] then []
    else
      var rest := Missing(acl, g, ids[..|ids| - 1]);
      var last := ids[|ids| - 1];
      assert NoRepeats(ids) ==> NoRepeats(ids[..|ids| - 1]) && last !in ids[..|ids| - 1];
      if Grants(acl, g, last) then rest else rest + [last]
  }

  predicate HasRoom(e: Entry, g: Grantee, limit: nat) { IsOwn(e, g) && |e.targets.value| < limit }

  function FindRoom(acl: Acl, g: Grantee, limit: nat): (r: Option<nat>)
    ensures r.Some? ==> r.value < |acl| && HasRoom(acl[r.value], g, limit)
    ensures r.Some? ==> forall i :: 0 <= i < r.value ==> !HasRoom(acl[i], g, limit)
    ensures r.None? ==> forall i :: 0 <= i < |acl| ==> !HasRoom(acl[i], g, limit)
  {
    if acl == [] then None
    else if HasRoom(acl[0], g, limit) then Some(0)
    else
      match FindRoom(acl[1..], g, limit)
      case None => None
      case Some(i) => Some(i + 1)
  }

  function TargetFor(g: Grantee, id: nat): Target { Target(Some(id), Some(g.endpoint), None) }

  function AddTarget(e: Entry, t: Target): Entry
    requires e.targets.Some?
  {
    e.(targets := Some(e.targets.value + [t]))
  }

  function NewEntry(g: Grantee, id: nat, fabricIndex: Option<nat>): Entry {
    Entry(OPERATE, g.authMode, Some([g.subject]), Some([TargetFor(g, id)]), fabricIndex)
  }

  /** Place one cluster: in the first own entry with room, else in a new entry. */
  function Place(acl: Acl, g: Grantee, id: nat, lim: Limits, fabricIndex: Option<nat>): Outcome<Acl> {
    match FindRoom(acl, g, lim.targets)
    case Some(i) => Done(acl[i := AddTarget(acl[i], TargetFor(g, id))])
    case None =>
      if |acl| >= lim.entries then Refused(EntriesFull) else Done(acl + [NewEntry(g, id, fabricIndex)])
  }

  function PlaceAll(acl: Acl, g: Grantee, ids: seq<nat>, lim: Limits, fabricIndex: Option<nat>): Outcome<Acl>
    decreases |ids|
  {
    if ids == [] then Done(acl)
    else
      match Place(acl, g, ids[0], lim, fabricIndex)
      case Refused(reason) => Refused(reason)
      case Done(next) => PlaceAll(next, g, ids[1..], lim, fabricIndex)
  }

  datatype GrantRequest = GrantRequest(g: Grantee, clusters: seq<nat>, sheNode: nat, limits: Reported,
                                       fabricIndex: Option<nat>)

  function Grant(acl: Acl, q: GrantRequest): Outcome<Acl> {
    match FindAdminEntry(acl, q.sheNode)
    case None => Refused(NoAdminEntry)
    case Some(admin) =>
      PlaceAll(acl, q.g, Missing(acl, q.g, Dedup(q.clusters)), EffectiveLimits(q.limits),
               if q.fabricIndex.Some? then q.fabricIndex else admin.fabricIndex)
  }

  method GrantOperate(acl: Acl, q: GrantRequest) returns (r: Outcome<Acl>)
    ensures r == Grant(acl, q)
  {
    if !SafeAcl(acl, q.sheNode) {
      return Refused(NoAdminEntry);
    }
    var lim := EffectiveLimits(q.limits);
    var out := acl;
    var missing := Missing(acl, q.g, Dedup(q.clusters));
    if |missing| == 0 {
      return Done(out);
    }
    var fabricIndex := if q.fabricIndex.Some? then q.fabricIndex else FindAdminEntry(acl, q.sheNode).value.fabricIndex;
    var n := 0;
    while n < |missing|
      invariant 0 <= n <= |missing|
      invariant PlaceAll(out, q.g, missing[n..], lim, fabricIndex) == Grant(acl, q)
    {
      assert missing[n..][1..] == missing[n + 1..];
      var room := FindRoom(out, q.g, lim.targets);
      if room.Some? {
        out := out[room.value := AddTarget(out[room.value], TargetFor(q.g, missing[n]))];
      } else if |out| >= lim.entries {
        return Refused(EntriesFull);
      } else {
        out := out + [NewEntry(q.g, missing[n], fabricIndex)];
      }
      n := n + 1;
    }
    r := Done(out);
  }

  // ----- what a grant adds -----

  /** `out` is `acl` with targets of the grantee appended to own entries, and own entries appended. */
  predicate Extends(acl: Acl, out: Acl, g: Grantee) {
    && |acl| <= |out|
    && (forall i :: 0 <= i < |acl| ==> EntryExtends(acl[i], out[i], g))
    && (forall i :: |acl| <= i < |out| ==> IsOwn(out[i], g))
  }

  predicate EntryExtends(e: Entry, f: Entry, g: Grantee) {
    if IsOwn(e, g) then IsOwn(f, g) && e.targets.value <= f.targets.value && f == e.(targets := f.targets) else f == e
  }

  lemma TargetAppended(targets: seq<Target>, t: Target, endpoint: nat, id: nat)
    ensures HasTarget(targets + [t], endpoint, id) <==>
            HasTarget(targets, endpoint, id) || TargetMatches(t, endpoint, id)
  {
    if HasTarget(targets, endpoint, id) {
      var j :| 0 <= j < |targets| && TargetMatches(targets[j], endpoint, id);
      assert (targets + [t])[j] == targets[j];
    }
    if TargetMatches(t, endpoint, id) {
      assert (targets + [t])[|targets|] == t;
    }
  }

  /** A grantee's right is untouched when every entry's answer is. */
  lemma GrantsChanged(acl: Acl, k: nat, f: Entry, g: Grantee, id: nat)
    requires k < |acl|
    ensures Grants(acl[k := f], g, id) <==>
            EntryGrants(f, g, id) || exists i :: 0 <= i < |acl| && i != k && EntryGrants(acl[i], g, id)
  {
    var out := acl[k := f];
    if EntryGrants(f, g, id) {
      assert out[k] == f;
    }
    if i :| 0 <= i < |acl| && i != k && EntryGrants(acl[i], g, id) {
      assert out[i] == acl[i];
    }
  }

  lemma GrantsAppended(acl: Acl, f: Entry, g: Grantee, id: nat)
    ensures Grants(acl + [f], g, id) <==> Grants(acl, g, id) || EntryGrants(f, g, id)
  {
    if i :| 0 <= i < |acl| && EntryGrants(acl[i], g, id) {
      assert (acl + [f])[i] == acl[i];
    }
    if EntryGrants(f, g, id) {
      assert (acl + [f])[|acl|] == f;
    }
  }

  /** Placing a cluster gives the grantee that cluster and nobody anything else. */
  lemma PlaceGrants(acl: Acl, g: Grantee, id: nat, lim: Limits, fabricIndex: Option<nat>, h: Grantee, other: nat)
    requires Place(acl, g, id, lim, fabricIndex).Done?
    ensures Grants(Place(acl, g, id, lim, fabricIndex).value, h, other) <==>
            Grants(acl, h, other) || (h == g && other == id)
  {
    match FindRoom(acl, g, lim.targets) {
      case Some(k) =>
        var f := AddTarget(acl[k], TargetFor(g, id));
        TargetAppended(acl[k].targets.value, TargetFor(g, id), h.endpoint, other);
        GrantsChanged(acl, k, f, h, other);
        GrantsChanged(acl, k, acl[k], h, other);
        assert acl[k := acl[k]] == acl;
      case None =>
        var f := NewEntry(g, id, fabricIndex);
        assert [] + [TargetFor(g, id)] == f.targets.value;
        TargetAppended([], TargetFor(g, id), h.endpoint, other);
        GrantsAppended(acl, f, h, other);
    }
  }

  lemma {:induction false} PlaceAllGrants(acl: Acl, g: Grantee, ids: seq<nat>, lim: Limits, fabricIndex: Option<nat>,
                                          h: Grantee, other: nat)
    requires PlaceAll(acl, g, ids, lim, fabricIndex).Done?
    ensures Grants(PlaceAll(acl, g, ids, lim, fabricIndex).value, h, other) <==>
            Grants(acl, h, other) || (h == g && other in ids)
    decreases |ids|
  {
    if ids != [] {
      PlaceGrants(acl, g, ids[0], lim, fabricIndex, h, other);
      PlaceAllGrants(Place(acl, g, ids[0], lim, fabricIndex).value, g, ids[1..], lim, fabricIndex, h, other);
    }
  }

  /** A grant adds exactly the wanted clusters for exactly that grantee, and nobody loses anything. */
  lemma GrantExactly(acl: Acl, q: GrantRequest, h: Grantee, id: nat)
    requires Grant(acl, q).Done?
    ensures Grants(Grant(acl, q).value, h, id) <==> Grants(acl, h, id) || (h == q.g && id in q.clusters)
  {
    var missing := Missing(acl, q.g, Dedup(q.clusters));
    var admin := FindAdminEntry(acl, q.sheNode).value;
    PlaceAllGrants(acl, q.g, missing, EffectiveLimits(q.limits),
                   if q.fabricIndex.Some? then q.fabricIndex else admin.fabricIndex, h, id);
  }

  lemma {:induction false} PlaceAllExtends(acl: Acl, g: Grantee, ids: seq<nat>, lim: Limits, fabricIndex: Option<nat>)
    requires PlaceAll(acl, g, ids, lim, fabricIndex).Done?
    ensures Extends(acl, PlaceAll(acl, g, ids, lim, fabricIndex).value, g)
    decreases |ids|
  {
    if ids != [] {
      var next := Place(acl, g, ids[0], lim, fabricIndex).value;
      var out := PlaceAll(next, g, ids[1..], lim, fabricIndex).value;
      PlaceAllExtends(next, g, ids[1..], lim, fabricIndex);
      assert Extends(acl, next, g);
      forall i | 0 <= i < |acl| ensures EntryExtends(acl[i], out[i], g) {
        assert EntryExtends(acl[i], next[i], g) && EntryExtends(next[i], out[i], g);
      }
      forall i | |acl| <= i < |out| ensures IsOwn(out[i], g) {
        assert i < |next| ==> IsOwn(next[i], g) && EntryExtends(next[i], out[i], g);
      }
    }
  }

  lemma {:induction false} AdminFound(acl: Acl, sheNode: nat)
    ensures match FindAdminEntry(acl, sheNode)
            case None => forall i :: 0 <= i < |acl| ==> !IsAdminEntry(acl[i], sheNode)
            case Some(e) => exists i :: 0 <= i < |acl| && acl[i] == e && IsAdminEntry(e, sheNode) &&
                                        forall k :: 0 <= k < i ==> !IsAdminEntry(acl[k], sheNode)
  {
    if acl != [] {
      AdminFound(acl[1..], sheNode);
      if !IsAdminEntry(acl[0], sheNode) {
        match FindAdminEntry(acl[1..], sheNode) {
          case None =>
            forall i | 0 <= i < |acl| ensures !IsAdminEntry(acl[i], sheNode) {
              assert i > 0 ==> acl[i] == acl[1..][i - 1];
            }
          case Some(e) =>
            var i :| 0 <= i < |acl| - 1 && acl[1..][i] == e && IsAdminEntry(e, sheNode) &&
                     forall k :: 0 <= k < i ==> !IsAdminEntry(acl[1..][k], sheNode);
            assert acl[i + 1] == e;
            forall k | 0 <= k < i + 1 ensures !IsAdminEntry(acl[k], sheNode) {
              assert k > 0 ==> acl[k] == acl[1..][k - 1];
            }
        }
      }
    }
  }

  lemma {:induction false} ExtendsKeepsAdmin(acl: Acl, out: Acl, g: Grantee, sheNode: nat)
    requires Extends(acl, out, g) && SafeAcl(acl, sheNode)
    ensures FindAdminEntry(out, sheNode) == FindAdminEntry(acl, sheNode)
  {
    assert EntryExtends(acl[0], out[0], g);
    if !IsAdminEntry(acl[0], sheNode) {
      assert Extends(acl[1..], out[1..], g) by {
        forall i | 0 <= i < |acl| - 1 ensures EntryExtends(acl[1..][i], out[1..][i], g) {
          assert EntryExtends(acl[i + 1], out[i + 1], g);
        }
      }
      ExtendsKeepsAdmin(acl[1..], out[1..], g, sheNode);
    }
  }

  /** A grant only appends to she's own entries for the grantee, and leaves she's Administer entry as it is. */
  lemma GrantExtends(acl: Acl, q: GrantRequest)
    requires Grant(acl, q).Done?
    ensures Extends(acl, Grant(acl, q).value, q.g)
    ensures FindAdminEntry(Grant(acl, q).value, q.sheNode) == FindAdminEntry(acl, q.sheNode)
    ensures SafeAcl(acl, q.sheNode) && SafeAcl(Grant(acl, q).value, q.sheNode)
  {
    var admin := FindAdminEntry(acl, q.sheNode).value;
    PlaceAllExtends(acl, q.g, Missing(acl, q.g, Dedup(q.clusters)), EffectiveLimits(q.limits),
                    if q.fabricIndex.Some? then q.fabricIndex else admin.fabricIndex);
    ExtendsKeepsAdmin(acl, Grant(acl, q).value, q.g, q.sheNode);
  }

  /** Granting again changes nothing. */
  lemma GrantIdempotent(acl: Acl, q: GrantRequest)
    requires Grant(acl, q).Done?
    ensures Grant(Grant(acl, q).value, q) == Grant(acl, q)
  {
    var out := Grant(acl, q).value;
    GrantExtends(acl, q);
    forall id ensures Grants(out, q.g, id) <==> Grants(acl, q.g, id) || id in q.clusters {
      GrantExactly(acl, q, q.g, id);
    }
    FirstIn(Missing(out, q.g, Dedup(q.clusters)));
  }

  lemma FirstIn(ids: seq<nat>)
    ensures ids != [] ==> ids[0] in ids
  {
  }

  // ----- the limits -----

  function EntryRoom(e: Entry, g: Grantee, limit: nat): nat {
    if HasRoom(e, g, limit) then limit - |e.targets.value| else 0
  }

  function Room(acl: Acl, g: Grantee, limit: nat): nat {
    if acl == [] then 0 else EntryRoom(acl[0], g, limit) + Room(acl[1..], g, limit)
  }

  /** The target slots the limits leave to the grantee. */
  function FreeSlots(acl: Acl, g: Grantee, lim: Limits): nat {
    Room(acl, g, lim.targets) + (if |acl| < lim.entries then lim.entries - |acl| else 0) * lim.targets
  }

  lemma {:induction false} RoomAppend(acl: Acl, e: Entry, g: Grantee, limit: nat)
    ensures Room(acl + [e], g, limit) == Room(acl, g, limit) + EntryRoom(e, g, limit)
  {
    if acl == [] {
      assert [e][1..] == [];
    } else {
      assert (acl + [e])[1..] == acl[1..] + [e];
      RoomAppend(acl[1..], e, g, limit);
    }
  }

  lemma {:induction false} RoomUpdate(acl: Acl, k: nat, e: Entry, g: Grantee, limit: nat)
    requires k < |acl|
    ensures Room(acl[k := e], g, limit) == Room(acl, g, limit) - EntryRoom(acl[k], g, limit) + EntryRoom(e, g, limit)
  {
    if k == 0 {
      assert acl[k := e][1..] == acl[1..];
    } else {
      assert acl[k := e][1..] == acl[1..][k - 1 := e];
      RoomUpdate(acl[1..], k - 1, e, g, limit);
    }
  }

  lemma {:induction false} NoRoom(acl: Acl, g: Grantee, limit: nat)
    requires forall i :: 0 <= i < |acl| ==> !HasRoom(acl[i], g, limit)
    ensures Room(acl, g, limit) == 0
  {
    if acl != [] {
      NoRoom(acl[1..], g, limit);
    }
  }

  /** Placing one cluster takes exactly one free slot, and is refused exactly when there is none. */
  lemma PlaceTakesSlot(acl: Acl, g: Grantee, id: nat, lim: Limits, fabricIndex: Option<nat>)
    requires lim.targets > 0
    ensures match Place(acl, g, id, lim, fabricIndex)
            case Refused(reason) => reason == EntriesFull && FreeSlots(acl, g, lim) == 0
            case Done(out) => FreeSlots(out, g, lim) == FreeSlots(acl, g, lim) - 1
  {
    match FindRoom(acl, g, lim.targets) {
      case Some(k) =>
        RoomUpdate(acl, k, AddTarget(acl[k], TargetFor(g, id)), g, lim.targets);
      case None =>
        NoRoom(acl, g, lim.targets);
        if |acl| < lim.entries {
          RoomAppend(acl, NewEntry(g, id, fabricIndex), g, lim.targets);
          OneLess(lim.entries - |acl|, lim.targets);
        }
    }
  }

  lemma OneLess(n: nat, t: nat)
    requires n > 0
    ensures n * t == (n - 1) * t + t
  {
  }

  lemma {:induction false} PlaceAllRefused(acl: Acl, g: Grantee, ids: seq<nat>, lim: Limits, fabricIndex: Option<nat>)
    requires lim.targets > 0
    ensures match PlaceAll(acl, g, ids, lim, fabricIndex)
            case Refused(reason) => reason == EntriesFull && |ids| > FreeSlots(acl, g, lim)
            case Done(out) =>
              |ids| <= FreeSlots(acl, g, lim) && FreeSlots(out, g, lim) == FreeSlots(acl, g, lim) - |ids|
    decreases |ids|
  {
    if ids != [] {
      PlaceTakesSlot(acl, g, ids[0], lim, fabricIndex);
      match Place(acl, g, ids[0], lim, fabricIndex) {
        case Refused(_) =>
        case Done(next) => PlaceAllRefused(next, g, ids[1..], lim, fabricIndex);
      }
    }
  }

  /**
   * With she's Administer entry present, a grant is refused exactly when the missing clusters exceed
   * the free slots.
   */
  lemma GrantRefusedExactly(acl: Acl, q: GrantRequest)
    ensures Grant(acl, q) == Refused(NoAdminEntry) <==> !SafeAcl(acl, q.sheNode)
    ensures SafeAcl(acl, q.sheNode) ==>
              (Grant(acl, q).Refused? <==>
               |Missing(acl, q.g, Dedup(q.clusters))| > FreeSlots(acl, q.g, EffectiveLimits(q.limits)))
  {
    if SafeAcl(acl, q.sheNode) {
      var admin := FindAdminEntry(acl, q.sheNode).value;
      PlaceAllRefused(acl, q.g, Missing(acl, q.g, Dedup(q.clusters)), EffectiveLimits(q.limits),
                      if q.fabricIndex.Some? then q.fabricIndex else admin.fabricIndex);
    }
  }

  /** Nothing grows past the limits beyond what was there already. */
  predicate WithinLimits(acl: Acl, out: Acl, lim: Limits) {
    && |acl| <= |out| && (|out| <= lim.entries || |out| == |acl|)
    && (forall i :: 0 <= i < |acl| ==>
          out[i] == acl[i] || (out[i].targets.Some? && |out[i].targets.value| <= lim.targets))
    && (forall i :: |acl| <= i < |out| ==> out[i].targets.Some? && |out[i].targets.value| <= lim.targets)
  }

  lemma {:induction false} PlaceAllWithinLimits(acl: Acl, g: Grantee, ids: seq<nat>, lim: Limits,
      fabricIndex: Option<nat>)
    requires lim.targets > 0 && PlaceAll(acl, g, ids, lim, fabricIndex).Done?
    ensures WithinLimits(acl, PlaceAll(acl, g, ids, lim, fabricIndex).value, lim)
    decreases |ids|
  {
    if ids != [] {
      var next := Place(acl, g, ids[0], lim, fabricIndex).value;
      assert WithinLimits(acl, next, lim);
      PlaceAllWithinLimits(next, g, ids[1..], lim, fabricIndex);
    }
  }

  lemma GrantWithinLimits(acl: Acl, q: GrantRequest)
    requires Grant(acl, q).Done?
    ensures WithinLimits(acl, Grant(acl, q).value, EffectiveLimits(q.limits))
  {
    var admin := FindAdminEntry(acl, q.sheNode).value;
    PlaceAllWithinLimits(acl, q.g, Missing(acl, q.g, Dedup(q.clusters)), EffectiveLimits(q.limits),
                         if q.fabricIndex.Some? then q.fabricIndex else admin.fabricIndex);
  }

  // ---------------------------------------------------------------------------
  // Revoking
  // ---------------------------------------------------------------------------

  predicate Unwanted(t: Target, endpoint: nat, ids: seq<nat>) {
    t.endpoint == Some(endpoint) && t.cluster.Some? && t.cluster.value in ids
  }

  /** The targets that do not name one of the clusters on the endpoint. */
  function KeptTargets(targets: seq<Target>, endpoint: nat, ids: seq<nat>): seq<Target> {
    if targets == [] then []
    else (if Unwanted(targets[0], endpoint, ids) then [] else [targets[0]]) + KeptTargets(targets[1..], endpoint, ids)
  }

  function RevokeEntry(e: Entry, g: Grantee, ids: seq<nat>): Acl {
    if !IsOwn(e, g) then [e]
    else
      var targets := KeptTargets(e.targets.value, g.endpoint, ids);
      if targets == [] then [] else [e.(targets := Some(targets))]
  }

  function RevokeAll(acl: Acl, g: Grantee, ids: seq<nat>): Acl {
    if acl == [] then [] else RevokeAll(acl[..|acl| - 1], g, ids) + RevokeEntry(acl[|acl| - 1], g, ids)
  }

  function Revoke(acl: Acl, g: Grantee, ids: seq<nat>, sheNode: nat): Outcome<Acl> {
    if SafeAcl(acl, sheNode) then Done(RevokeAll(acl, g, ids)) else Refused(NoAdminEntry)
  }

  method RevokeOperate(acl: Acl, g: Grantee, clusters: seq<nat>, sheNode: nat) returns (r: Outcome<Acl>)
    ensures r == Revoke(acl, g, clusters, sheNode)
  {
    if !SafeAcl(acl, sheNode) {
      return Refused(NoAdminEntry);
    }
    var out: Acl := [];
    assert acl[..0] == [];
    for i := 0 to |acl|
      invariant out == RevokeAll(acl[..i], g, clusters)
    {
      assert acl[..i + 1][..i] == acl[..i];
      var e := acl[i];
      if !IsOwn(e, g) {
        out := out + [e];
      } else {
        var targets := KeptTargets(e.targets.value, g.endpoint, clusters);
        if |targets| > 0 {
          out := out + [e.(targets := Some(targets))];
        }
      }
    }
    assert acl[..|acl|] == acl;
    r := Done(out);
  }

  lemma {:induction false} KeptHasTarget(targets: seq<Target>, endpoint: nat, ids: seq<nat>, ep: nat, id: nat)
    ensures HasTarget(KeptTargets(targets, endpoint, ids), ep, id) <==>
            HasTarget(targets, ep, id) && !(ep == endpoint && id in ids)
  {
    if targets != [] {
      KeptHasTarget(targets[1..], endpoint, ids, ep, id);
      TargetFront(targets[0], targets[1..], ep, id);
      TargetFront(targets[0], KeptTargets(targets[1..], endpoint, ids), ep, id);
      assert [targets[0]] + targets[1..] == targets;
      assert [] + KeptTargets(targets[1..], endpoint, ids) == KeptTargets(targets[1..], endpoint, ids);
    }
  }

  lemma TargetFront(t: Target, rest: seq<Target>, ep: nat, id: nat)
    ensures HasTarget([t] + rest, ep, id) <==> TargetMatches(t, ep, id) || HasTarget(rest, ep, id)
  {
    var all := [t] + rest;
    if j :| 0 <= j < |rest| && TargetMatches(rest[j], ep, id) {
      assert all[j + 1] == rest[j];
    }
    if TargetMatches(t, ep, id) {
      assert all[0] == t;
    }
    if j :| 0 <= j < |all| && TargetMatches(all[j], ep, id) {
      assert j > 0 ==> rest[j - 1] == all[j];
    }
  }

  /** A revoke takes exactly the clusters from exactly that grantee. */
  lemma {:induction false} RevokeExactly(acl: Acl, g: Grantee, ids: seq<nat>, h: Grantee, id: nat)
    ensures Grants(RevokeAll(acl, g, ids), h, id) <==> Grants(acl, h, id) && !(h == g && id in ids)
  {
    if acl != [] {
      var n := |acl| - 1;
      RevokeExactly(acl[..n], g, ids, h, id);
      GrantsAppended(acl[..n], acl[n], h, id);
      assert acl[..n] + [acl[n]] == acl;
      if IsOwn(acl[n], g) {
        KeptHasTarget(acl[n].targets.value, g.endpoint, ids, h.endpoint, id);
      }
      if RevokeEntry(acl[n], g, ids) == [] {
        assert RevokeAll(acl, g, ids) == RevokeAll(acl[..n], g, ids);
        assert !HasTarget([], h.endpoint, id);
      } else {
        GrantsAppended(RevokeAll(acl[..n], g, ids), RevokeEntry(acl[n], g, ids)[0], h, id);
      }
    }
  }

  /** A revoke leaves she's Administer entry and every entry of others as they are. */
  lemma {:induction false} RevokeKeepsOthers(acl: Acl, g: Grantee, ids: seq<nat>, e: Entry)
    requires !IsOwn(e, g)
    ensures e in RevokeAll(acl, g, ids) <==> e in acl
  {
    if acl != [] {
      var n := |acl| - 1;
      RevokeKeepsOthers(acl[..n], g, ids, e);
      assert acl[..n] + [acl[n]] == acl;
    }
  }

  lemma RevokeKeepsAdmin(acl: Acl, g: Grantee, ids: seq<nat>, sheNode: nat)
    requires SafeAcl(acl, sheNode)
    ensures SafeAcl(RevokeAll(acl, g, ids), sheNode)
  {
    AdminFound(acl, sheNode);
    var e := FindAdminEntry(acl, sheNode).value;
    RevokeKeepsOthers(acl, g, ids, e);
    AdminFound(RevokeAll(acl, g, ids), sheNode);
  }

  // ----- revoking a grant -----

  lemma {:induction false} KeptAppend(x: seq<Target>, y: seq<Target>, endpoint: nat, ids: seq<nat>)
    ensures KeptTargets(x + y, endpoint, ids) == KeptTargets(x, endpoint, ids) + KeptTargets(y, endpoint, ids)
  {
    if x == [] {
      assert x + y == y;
    } else {
      assert (x + y)[1..] == x[1..] + y;
      KeptAppend(x[1..], y, endpoint, ids);
    }
  }

  lemma TargetDropped(targets: seq<Target>, g: Grantee, id: nat, ids: seq<nat>)
    requires id in ids
    ensures KeptTargets(targets + [TargetFor(g, id)], g.endpoint, ids) == KeptTargets(targets, g.endpoint, ids)
  {
    var t := [TargetFor(g, id)];
    KeptAppend(targets, t, g.endpoint, ids);
    assert t[1..] == [];
  }

  lemma {:induction false} RevokeUpdate(acl: Acl, k: nat, f: Entry, g: Grantee, ids: seq<nat>)
    requires k < |acl| && RevokeEntry(f, g, ids) == RevokeEntry(acl[k], g, ids)
    ensures RevokeAll(acl[k := f], g, ids) == RevokeAll(acl, g, ids)
  {
    var n := |acl| - 1;
    if k < n {
      RevokeUpdate(acl[..n], k, f, g, ids);
      assert acl[k := f][..n] == acl[..n][k := f];
    } else {
      assert acl[k := f][..n] == acl[..n];
    }
  }

  lemma PlaceRevoked(acl: Acl, g: Grantee, id: nat, ids: seq<nat>, lim: Limits, fabricIndex: Option<nat>)
    requires Place(acl, g, id, lim, fabricIndex).Done? && id in ids
    ensures RevokeAll(Place(acl, g, id, lim, fabricIndex).value, g, ids) == RevokeAll(acl, g, ids)
  {
    match FindRoom(acl, g, lim.targets) {
      case Some(k) =>
        TargetDropped(acl[k].targets.value, g, id, ids);
        RevokeUpdate(acl, k, AddTarget(acl[k], TargetFor(g, id)), g, ids);
      case None =>
        var f := NewEntry(g, id, fabricIndex);
        TargetDropped([], g, id, ids);
        assert [] + [TargetFor(g, id)] == f.targets.value;
        assert (acl + [f])[..|acl|] == acl;
        assert RevokeAll(acl, g, ids) + [] == RevokeAll(acl, g, ids);
    }
  }

  lemma {:induction false} PlaceAllRevoked(acl: Acl, g: Grantee, placed: seq<nat>, ids: seq<nat>, lim: Limits,
                                           fabricIndex: Option<nat>)
    requires PlaceAll(acl, g, placed, lim, fabricIndex).Done? && forall id :: id in placed ==> id in ids
    ensures RevokeAll(PlaceAll(acl, g, placed, lim, fabricIndex).value, g, ids) == RevokeAll(acl, g, ids)
    decreases |placed|
  {
    if placed != [] {
      PlaceRevoked(acl, g, placed[0], ids, lim, fabricIndex);
      PlaceAllRevoked(Place(acl, g, placed[0], lim, fabricIndex).value, g, placed[1..], ids, lim, fabricIndex);
    }
  }

  /** The list a revoke leaves as it is: no own entry is empty or names one of the clusters. */
  predicate Untouched(acl: Acl, g: Grantee, ids: seq<nat>) {
    forall i :: 0 <= i < |acl| && IsOwn(acl[i], g) ==>
                  acl[i].targets.value != [] && !AnyUnwanted(acl[i].targets.value, g.endpoint, ids)
  }

  predicate AnyUnwanted(targets: seq<Target>, endpoint: nat, ids: seq<nat>) {
    exists j :: 0 <= j < |targets| && Unwanted(targets[j], endpoint, ids)
  }

  lemma {:induction false} KeptAll(targets: seq<Target>, endpoint: nat, ids: seq<nat>)
    ensures |KeptTargets(targets, endpoint, ids)| <= |targets|
    ensures KeptTargets(targets, endpoint, ids) == targets <==> !AnyUnwanted(targets, endpoint, ids)
    ensures AnyUnwanted(targets, endpoint, ids) ==> |KeptTargets(targets, endpoint, ids)| < |targets|
  {
    if targets != [] {
      var rest := targets[1..];
      KeptAll(rest, endpoint, ids);
      assert [targets[0]] + rest == targets;
      if j :| 0 <= j < |rest| && Unwanted(rest[j], endpoint, ids) {
        assert Unwanted(targets[j + 1], endpoint, ids);
      }
      if j :| 0 <= j < |targets| && Unwanted(targets[j], endpoint, ids) {
        assert j > 0 ==> Unwanted(rest[j - 1], endpoint, ids);
      }
    }
  }

  lemma {:induction false} RevokeSame(acl: Acl, g: Grantee, ids: seq<nat>)
    ensures |RevokeAll(acl, g, ids)| <= |acl|
    ensures RevokeAll(acl, g, ids) == acl <==> Untouched(acl, g, ids)
  {
    if acl != [] {
      var n := |acl| - 1;
      var front := RevokeAll(acl[..n], g, ids);
      var tail := RevokeEntry(acl[n], g, ids);
      RevokeSame(acl[..n], g, ids);
      assert acl[..n] + [acl[n]] == acl;
      if IsOwn(acl[n], g) {
        KeptAll(acl[n].targets.value, g.endpoint, ids);
      }
      assert Untouched(acl, g, ids) <==> Untouched(acl[..n], g, ids) && Untouched([acl[n]], g, ids) by {
        if Untouched(acl, g, ids) {
          assert acl[n] == [acl[n]][0];
        }
        if Untouched(acl[..n], g, ids) && Untouched([acl[n]], g, ids) {
          forall i | 0 <= i < |acl| && IsOwn(acl[i], g)
            ensures acl[i].targets.value != [] && !AnyUnwanted(acl[i].targets.value, g.endpoint, ids)
          {
            assert i < n ==> acl[i] == acl[..n][i];
            assert i == n ==> acl[i] == [acl[n]][0];
          }
        }
      }
      assert Untouched([acl[n]], g, ids) <==> tail == [acl[n]];
      if front + tail == acl {
        assert |front| == n && |tail| == 1;
        assert (front + tail)[..n] == front && (front + tail)[n] == tail[0];
      }
    }
  }

  /**
   * Revoking a grant gives back the list as it was exactly when the grantee had none of the
   * clusters before and no own entry was without targets.
   */
  lemma RevokeUndoesGrantExactly(acl: Acl, q: GrantRequest)
    requires Grant(acl, q).Done?
    ensures Revoke(Grant(acl, q).value, q.g, q.clusters, q.sheNode) == Done(acl) <==> Untouched(acl, q.g, q.clusters)
  {
    var admin := FindAdminEntry(acl, q.sheNode).value;
    GrantExtends(acl, q);
    PlaceAllRevoked(acl, q.g, Missing(acl, q.g, Dedup(q.clusters)), q.clusters, EffectiveLimits(q.limits),
                    if q.fabricIndex.Some? then q.fabricIndex else admin.fabricIndex);
    RevokeSame(acl, q.g, q.clusters);
  }

  // ----- the clusters that are granted -----

  /** The clusters are collected without repeats: exactly those the grantee is granted. */
  method GrantedClusters(acl: Acl, g: Grantee) returns (ids: set<nat>)
    ensures forall id :: id in ids <==> Grants(acl, g, id)
  {
    ids := {};
    for i := 0 to |acl|
      invariant forall id :: id in ids <==> exists k :: 0 <= k < i && EntryGrants(acl[k], g, id)
    {
      if IsOwn(acl[i], g) {
        var targets := acl[i].targets.value;
        ghost var before := ids;
        for j := 0 to |targets|
          invariant forall id :: id in ids <==>
                                 id in before || exists n :: 0 <= n < j && TargetMatches(targets[n], g.endpoint, id)
        {
          if targets[j].endpoint == Some(g.endpoint) && targets[j].cluster.Some? {
            ids := ids + {targets[j].cluster.value};
          }
        }
        assert forall id :: HasTarget(targets, g.endpoint, id) <==> EntryGrants(acl[i], g, id);
      }
    }
  }

  // ---------------------------------------------------------------------------
  // The binding list of a source
  // ---------------------------------------------------------------------------

  datatype Binding = Binding(node: Option<nat>, group: Option<nat>, endpoint: Option<nat>, cluster: Option<nat>,
                             fabricIndex: Option<nat>)

  /** What a binding names: an endpoint of a node, or a group. */
  datatype Bound = Unicast(node: nat, endpoint: nat) | Multicast(group: nat)

  predicate BindingMatches(b: Binding, to: Bound, id: nat) {
    b.cluster == Some(id) &&
    match to
    case Multicast(group) => b.group == Some(group) && b.node.None?
    case Unicast(node, endpoint) => b.node == Some(node) && b.endpoint == Some(endpoint)
  }

  predicate Binds(list: seq<Binding>, to: Bound, id: nat) {
    exists i :: 0 <= i < |list| && BindingMatches(list[i], to, id)
  }

  function NewBinding(to: Bound, id: nat, fabricIndex: Option<nat>): Binding {
    match to
    case Multicast(group) => Binding(None, Some(group), None, Some(id), fabricIndex)
    case Unicast(node, endpoint) => Binding(Some(node), None, Some(endpoint), Some(id), fabricIndex)
  }

  /** Those of the clusters not bound yet, each once. */
  function Unbound(list: seq<Binding>, to: Bound, ids: seq<nat>): (r: seq<nat>)
    ensures NoRepeats(r) && forall id :: id in r <==> id in ids && !Binds(list, to, id)
  {
    if ids == [] then []
    else
      var rest := Unbound(list, to, ids[..|ids| - 1]);
      var last := ids[|ids| - 1];
      if Binds(list, to, last) || last in rest then rest else rest + [last]
  }

  function NewBindings(to: Bound, ids: seq<nat>, fabricIndex: Option<nat>): (r: seq<Binding>)
    ensures |r| == |ids| && forall i :: 0 <= i < |ids| ==> r[i] == NewBinding(to, ids[i], fabricIndex)
  {
    if ids == [] then []
    else NewBindings(to, ids[..|ids| - 1], fabricIndex) + [NewBinding(to, ids[|ids| - 1], fabricIndex)]
  }

  lemma BindsAppend(x: seq<Binding>, y: seq<Binding>, to: Bound, id: nat)
    ensures Binds(x + y, to, id) <==> Binds(x, to, id) || Binds(y, to, id)
  {
    var all := x + y;
    if i :| 0 <= i < |x| && BindingMatches(x[i], to, id) {
      assert all[i] == x[i];
    }
    if i :| 0 <= i < |y| && BindingMatches(y[i], to, id) {
      assert all[|x| + i] == y[i];
    }
    if i :| 0 <= i < |all| && BindingMatches(all[i], to, id) {
      assert if i < |x| then all[i] == x[i] else all[i] == y[i - |x|];
    }
  }

  lemma NewBindingsBind(to: Bound, ids: seq<nat>, fabricIndex: Option<nat>, other: Bound, id: nat)
    ensures Binds(NewBindings(to, ids, fabricIndex), other, id) <==> other == to && id in ids
  {
  }

  /** Appends an entry for every cluster not bound yet, and leaves the others as they are. */
  method AddBindingEntries(list: seq<Binding>, to: Bound, clusters: seq<nat>, fabricIndex: Option<nat>)
    returns (out: seq<Binding>, added: seq<nat>)
    ensures added == Unbound(list, to, clusters)
    ensures out == Added(list, to, clusters, fabricIndex)
  {
    out, added := list, [];
    assert clusters[..0] == [];
    for i := 0 to |clusters|
      invariant added == Unbound(list, to, clusters[..i])
      invariant out == Added(list, to, clusters[..i], fabricIndex)
    {
      AddBindsExactly(list, to, clusters[..i], fabricIndex, to, clusters[i]);
      AddedStep(list, to, clusters, i, fabricIndex);
      if !Binds(out, to, clusters[i]) {
        out := out + [NewBinding(to, clusters[i], fabricIndex)];
        added := added + [clusters[i]];
      }
    }
    assert clusters[..|clusters|] == clusters;
  }

  lemma AddedStep(list: seq<Binding>, to: Bound, clusters: seq<nat>, i: nat, fabricIndex: Option<nat>)
    requires i < |clusters|
    ensures Unbound(list, to, clusters[..i + 1]) ==
            Unbound(list, to, clusters[..i])
            + (if Binds(list, to, clusters[i]) || clusters[i] in clusters[..i] then [] else [clusters[i]])
    ensures Added(list, to, clusters[..i + 1], fabricIndex) ==
            Added(list, to, clusters[..i], fabricIndex)
            + (if Binds(list, to, clusters[i]) || clusters[i] in clusters[..i] then []
               else [NewBinding(to, clusters[i], fabricIndex)])
  {
    var before := Unbound(list, to, clusters[..i]);
    assert clusters[..i + 1][..i] == clusters[..i];
    assert (before + [clusters[i]])[..|before|] == before;
  }

  function Added(list: seq<Binding>, to: Bound, clusters: seq<nat>, fabricIndex: Option<nat>): seq<Binding> {
    list + NewBindings(to, Unbound(list, to, clusters), fabricIndex)
  }

  /** Adding binds exactly the clusters more. */
  lemma AddBindsExactly(list: seq<Binding>, to: Bound, clusters: seq<nat>, fabricIndex: Option<nat>, other: Bound,
      id: nat)
    ensures Binds(Added(list, to, clusters, fabricIndex), other, id) <==>
            Binds(list, other, id) || (other == to && id in clusters)
  {
    BindsAppend(list, NewBindings(to, Unbound(list, to, clusters), fabricIndex), other, id);
    NewBindingsBind(to, Unbound(list, to, clusters), fabricIndex, other, id);
  }

  predicate Hit(b: Binding, to: Bound, ids: seq<nat>) {
    exists i :: 0 <= i < |ids| && BindingMatches(b, to, ids[i])
  }

  function Removed(list: seq<Binding>, to: Bound, ids: seq<nat>): seq<Binding> {
    if list == [] then [] else (if Hit(list[0], to, ids) then [] else [list[0]]) + Removed(list[1..], to, ids)
  }

  /** The clusters of the entries that are removed, entry by entry. */
  function RemovedIds(list: seq<Binding>, to: Bound, ids: seq<nat>): seq<nat> {
    if list == [] then []
    else (if Hit(list[0], to, ids) then [list[0].cluster.value] else []) + RemovedIds(list[1..], to, ids)
  }

  function RemoveBindingEntries(list: seq<Binding>, to: Bound, ids: seq<nat>): (r: (seq<Binding>, seq<nat>))
    ensures |r.0| + |r.1| == |list|
  {
    RemovedCount(list, to, ids);
    (Removed(list, to, ids), RemovedIds(list, to, ids))
  }

  lemma {:induction false} RemovedCount(list: seq<Binding>, to: Bound, ids: seq<nat>)
    ensures |Removed(list, to, ids)| + |RemovedIds(list, to, ids)| == |list|
  {
    if list != [] {
      RemovedCount(list[1..], to, ids);
    }
  }

  /** Removing unbinds exactly the clusters. */
  lemma {:induction false} RemoveBindsExactly(list: seq<Binding>, to: Bound, ids: seq<nat>, other: Bound, id: nat)
    ensures Binds(Removed(list, to, ids), other, id) <==>
            exists i :: 0 <= i < |list| && BindingMatches(list[i], other, id) && !Hit(list[i], to, ids)
    ensures !(other == to && id in ids && Binds(Removed(list, to, ids), other, id))
    ensures other.Unicast? && to.Unicast? ==>
              (Binds(Removed(list, to, ids), other, id) <==> Binds(list, other, id) && !(other == to && id in ids))
  {
    if list != [] {
      var rest := list[1..];
      RemoveBindsExactly(rest, to, ids, other, id);
      BindsAppend([list[0]], Removed(rest, to, ids), other, id);
      assert [] + Removed(rest, to, ids) == Removed(rest, to, ids);
      BindsAppend([list[0]], rest, other, id);
      assert [list[0]] + rest == list;
      assert Binds([list[0]], other, id) <==> BindingMatches(list[0], other, id) by {
        assert [list[0]][0] == list[0];
      }
      if i :| 0 <= i < |rest| && BindingMatches(rest[i], other, id) && !Hit(rest[i], to, ids) {
        assert list[i + 1] == rest[i];
      }
      if i :| 0 <= i < |list| && BindingMatches(list[i], other, id) && !Hit(list[i], to, ids) {
        assert i > 0 ==> rest[i - 1] == list[i];
      }
    }
  }

  lemma {:induction false} RemovedAppend(x: seq<Binding>, y: seq<Binding>, to: Bound, ids: seq<nat>)
    ensures Removed(x + y, to, ids) == Removed(x, to, ids) + Removed(y, to, ids)
  {
    if x == [] {
      assert x + y == y;
    } else {
      assert (x + y)[1..] == x[1..] + y;
      RemovedAppend(x[1..], y, to, ids);
    }
  }

  lemma {:induction false} RemovedAllHit(list: seq<Binding>, to: Bound, ids: seq<nat>)
    ensures |Removed(list, to, ids)| <= |list|
    ensures Removed(list, to, ids) == list <==> forall i :: 0 <= i < |list| ==> !Hit(list[i], to, ids)
    ensures (exists i :: 0 <= i < |list| && Hit(list[i], to, ids)) ==> |Removed(list, to, ids)| < |list|
    ensures (forall i :: 0 <= i < |list| ==> Hit(list[i], to, ids)) ==> Removed(list, to, ids) == []
  {
    if list != [] {
      RemovedAllHit(list[1..], to, ids);
      assert [list[0]] + list[1..] == list;
      forall i | 0 <= i < |list| - 1 ensures list[1..][i] == list[i + 1] {
      }
      if i :| 0 <= i < |list| && Hit(list[i], to, ids) {
        assert i > 0 ==> Hit(list[1..][i - 1], to, ids);
      }
    }
  }

  lemma HitsAreBound(list: seq<Binding>, to: Bound, clusters: seq<nat>)
    ensures (exists i :: 0 <= i < |list| && Hit(list[i], to, clusters)) <==>
            exists id :: id in clusters && Binds(list, to, id)
  {
    if id :| id in clusters && Binds(list, to, id) {
      var i :| 0 <= i < |list| && BindingMatches(list[i], to, id);
      var k :| 0 <= k < |clusters| && clusters[k] == id;
      assert BindingMatches(list[i], to, clusters[k]);
      assert Hit(list[i], to, clusters);
    }
    if i :| 0 <= i < |list| && Hit(list[i], to, clusters) {
      var k :| 0 <= k < |clusters| && BindingMatches(list[i], to, clusters[k]);
      assert Binds(list, to, clusters[k]);
    }
  }

  /** Removing what was added gives back the list exactly when none of the clusters was bound before. */
  lemma RemoveUndoesAddExactly(list: seq<Binding>, to: Bound, clusters: seq<nat>, fabricIndex: Option<nat>)
    ensures Removed(Added(list, to, clusters, fabricIndex), to, clusters) == list <==>
            forall id :: id in clusters ==> !Binds(list, to, id)
  {
    var added := Unbound(list, to, clusters);
    var more := NewBindings(to, added, fabricIndex);
    RemovedAppend(list, more, to, clusters);
    forall i | 0 <= i < |more| ensures Hit(more[i], to, clusters) {
      assert added[i] in clusters;
      var k :| 0 <= k < |clusters| && clusters[k] == added[i];
      assert BindingMatches(more[i], to, clusters[k]);
    }
    RemovedAllHit(more, to, clusters);
    RemovedAllHit(list, to, clusters);
    assert Removed(list, to, clusters) + [] == Removed(list, to, clusters);
    HitsAreBound(list, to, clusters);
    hide Removed, Binds, Hit;
  }

  /** The clusters some entry still binds for the target. */
  predicate StillBinds(list: seq<Binding>, to: Bound, id: nat) {
    exists i :: 0 <= i < |list| && StillMatches(list[i], to, id)
  }

  predicate StillMatches(b: Binding, to: Bound, id: nat) {
    b.cluster == Some(id) &&
    match to
    case Multicast(group) => b.group == Some(group)
    case Unicast(node, endpoint) => b.node == Some(node) && b.endpoint == Some(endpoint)
  }

  method ClustersStillBound(list: seq<Binding>, to: Bound) returns (ids: set<nat>)
    ensures forall id :: id in ids <==> StillBinds(list, to, id)
    ensures to.Unicast? ==> forall id :: id in ids <==> Binds(list, to, id)
  {
    ids := {};
    for i := 0 to |list|
      invariant forall id :: id in ids <==> exists k :: 0 <= k < i && StillMatches(list[k], to, id)
    {
      var b := list[i];
      var hit := match to
                 case Multicast(group) => b.group == Some(group)
                 case Unicast(node, endpoint) => b.node == Some(node) && b.endpoint == Some(endpoint);
      if b.cluster.Some? && hit {
        assert StillMatches(list[i], to, b.cluster.value);
        ids := ids + {b.cluster.value};
      }
    }
    if to.Unicast? {
      forall id ensures StillBinds(list, to, id) <==> Binds(list, to, id) {
        UnicastStill(list, to, id);
      }
    }
  }

  lemma UnicastStill(list: seq<Binding>, to: Bound, id: nat)
    requires to.Unicast?
    ensures StillBinds(list, to, id) <==> Binds(list, to, id)
  {
  }
}
