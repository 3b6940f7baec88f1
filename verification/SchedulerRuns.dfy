/** Runs of the scheduler together with the vpods it places: schedule, commit, evict, change, resize, in any order. */
module SchedulerRuns {
  import opened PodNames
  import opened Placements
  import opened Arithmetic
  import opened Sums
  import opened Snapshots
  import opened SnapshotLaws
  import opened Scheduling

  /** The vpods as stored, the scheduler's memory, and for each vpod the latest result of Schedule that has not been
      committed and whose base, the placements it was computed from, is still what is stored. */
  datatype System = System(vpods: map<Key, VPod>, memory: Memory, latest: map<Key, seq<Placement>>) {
    function Committed(): Committed {
      map k | k in vpods :: vpods[k].placements
    }
  }

  datatype Step =
    | Reschedule(key: Key, world: World)
    | Commit(key: Key)
    | Evict(key: Key, podName: string)
    | SetVReplicas(key: Key, vreplicas: int)
    | Resize(replicas: int)
    | Create(key: Key, vreplicas: int)
    | Delete(key: Key)

  /** The list holds exactly the stored vpods, in some order. */
  predicate ListsAll(list: seq<VPod>, vpods: map<Key, VPod>) {
    && DistinctKeys(list) && KeySet(list) == vpods.Keys
    && forall i :: 0 <= i < |list| ==> list[i].key in vpods && vpods[list[i].key] == list[i]
  }

  ghost predicate Shown(cfg: Setting, s: System, w: World) {
    && Answers(cfg, w)
    && (w.vpods.Some? ==>
          && ListsAll(w.vpods.value, s.vpods)
          && Enumerates(w.order, Pruned(cfg.capacity, w.vpods.value, s.memory.reserved)))
  }

  ghost predicate Enabled(cfg: Setting, s: System, step: Step) {
    match step
    case Reschedule(key, w) => key in s.vpods && 0 <= s.vpods[key].vreplicas && Shown(cfg, s, w)
    case Commit(key) => key in s.latest && key in s.vpods
    case Evict(key, _) => key in s.vpods
    case SetVReplicas(key, v) => key in s.vpods && 0 <= v
    case Resize(replicas) => 0 <= replicas <= MAX_INT32
    case Create(key, v) => key !in s.vpods && 0 <= v
    case Delete(key) => key in s.vpods
  }

  /** The evictor keeps every entry but those of the given pod. */
  function Without(ps: seq<Placement>, podName: string): seq<Placement> {
    if ps == [] then []
    else (if ps[0].podName != podName then [ps[0]] else []) + Without(ps[1..], podName)
  }

  ghost function Apply(cfg: Setting, s: System, step: Step): System
    requires Enabled(cfg, s, step)
  {
    match step
    case Reschedule(key, w) =>
      var (memory, out) := Schedule(cfg, s.memory, s.vpods[key], w);
      s.(memory := memory, latest := if out.Unavailable? then s.latest else s.latest[key := out.placements])
    case Commit(key) =>
      s.(vpods := s.vpods[key := s.vpods[key].(placements := s.latest[key])], latest := s.latest - {key})
    case Evict(key, podName) =>
      s.(vpods := s.vpods[key := s.vpods[key].(placements := Without(s.vpods[key].placements, podName))],
         latest := s.latest - {key})
    case SetVReplicas(key, v) => s.(vpods := s.vpods[key := s.vpods[key].(vreplicas := v)])
    case Resize(replicas) => s.(memory := s.memory.(replicas := replicas))
    case Create(key, v) => s.(vpods := s.vpods[key := VPod(key, v, [])])
    case Delete(key) => s.(vpods := s.vpods - {key}, latest := s.latest - {key})
  }

  /** Stored data is well formed. */
  ghost predicate Basics(cfg: Setting, s: System) {
    && (forall k :: k in s.vpods ==>
         s.vpods[k].key == k && 0 <= s.vpods[k].vreplicas && WellPlaced(cfg.name, s.vpods[k].placements))
    && GoodReserved(cfg.name, s.memory.reserved)
    && s.memory.replicas <= MAX_INT32
    && (forall k :: k in s.latest ==> k in s.vpods && WellPlaced(cfg.name, s.latest[k]))
  }

  ghost function DemandOn(cfg: Setting, s: System, o: nat): int {
    Demand(cfg.name, s.Committed(), s.memory.reserved, o)
  }

  /** No pod is promised beyond its capacity. */
  ghost predicate Safe(cfg: Setting, s: System) {
    forall o: nat :: o <= MAX_INT32 ==> DemandOn(cfg, s, o) <= cfg.capacity
  }

  /** A result waiting to be committed asks for nothing its vpod does not already claim. */
  ghost predicate Covered(cfg: Setting, s: System) {
    forall k :: k in s.latest ==> WithinClaim(cfg, s, k, s.latest[k])
  }

  ghost predicate WithinClaim(cfg: Setting, s: System, k: Key, ps: seq<Placement>) {
    forall o: nat :: o <= MAX_INT32 ==> CountAt(ps, o) <= Claim(cfg.name, s.Committed(), s.memory.reserved, k, o)
  }

  /** The step takes no snapshot while a key mixes placed and unplaced reservations, and does not add replicas under
      EVENSPREAD to a vpod whose recorded zones are out of date. */
  ghost predicate Clean(cfg: Setting, s: System, step: Step) {
    step.Reschedule? && step.world.vpods.Some? && step.key in s.vpods ==>
      && NoMix(s.Committed(), Pruned(cfg.capacity, step.world.vpods.value, s.memory.reserved))
      && ZonesCurrent(cfg, Zones(cfg, step.world).0, Zones(cfg, step.world).1, s.memory.replicas, s.vpods[step.key])
  }

  // ----- one call of Schedule -----

  lemma ListingCommitted(list: seq<VPod>, s: System)
    requires ListsAll(list, s.vpods)
    ensures CommittedOf(list) == s.Committed()
  {
    CommittedOfAgrees(list);
    forall k | k in s.vpods
      ensures k in CommittedOf(list) && CommittedOf(list)[k] == s.vpods[k].placements
    {
      assert k in KeySet(list);
      var i :| 0 <= i < |list| && list[i].key == k;
      assert CommittedOf(list)[list[i].key] == list[i].placements;
    }
  }

  lemma ShownIsWellCalled(cfg: Setting, s: System, key: Key, w: World)
    requires Basics(cfg, s) && key in s.vpods && Shown(cfg, s, w)
    ensures WellCalled(cfg, s.memory, s.vpods[key], w)
    ensures w.vpods.Some? ==> CommittedOf(w.vpods.value) == s.Committed()
  {
    hide OrdinalFromPodName, PodNameFromOrdinal, WellPlaced, Pruned, Enumerates;
    if w.vpods.Some? { ListingCommitted(w.vpods.value, s); }
  }

  /** The effect of reserving a result on the claim of its own vpod, and on the claims of all others. */
  lemma ReserveClaim(name: string, committed: Committed, pruned: Reserved, key: Key, ps: seq<Placement>, k: Key, o: nat)
    requires GoodCommitted(name, committed) && GoodReserved(name, pruned) && key in committed
    requires WellPlaced(name, ps) && o <= MAX_INT32
    ensures var after := Reserve(pruned, key, committed[key], ps);
            var before, now := Claim(name, committed, pruned, k, o), Claim(name, committed, after, k, o);
            && (k != key ==> now == before)
            && (k == key ==> now <= before + Pos(CountAt(ps, o) - CountAt(committed[key], o)) && CountAt(ps, o) <= now)
  {
    hide OrdinalFromPodName, PodNameFromOrdinal, Reserve, Weight;
    ReserveAt(name, pruned, key, committed[key], ps, o);
    ReserveKeeps(name, pruned, key, committed[key], ps);
  }

  lemma {:induction false} ReserveWithin(
    name: string, reserved: Reserved, key: Key, existing: seq<Placement>, ps: seq<Placement>, o: nat, bound: int)
    requires AllCanonical(name, ps) && o <= MAX_INT32 && ReservedAt(name, reserved, key, o) <= bound
    requires forall i :: 0 <= i < |ps| && Ord(ps[i]) == o ==> ps[i].vreplicas <= bound
    ensures ReservedAt(name, Reserve(reserved, key, existing, ps), key, o) <= bound
    decreases ps
  {
    hide OrdinalFromPodName, PodNameFromOrdinal, Find;
    if ps != [] {
      OrdinalRoundTrip(name, o);
      assert Canonical(name, ps[0]);
      ReserveWithin(name, ReserveOne(reserved, key, existing, ps[0]), key, existing, ps[1..], o, bound);
    }
  }

  /** Why a pod must not be listed twice: the entries overwrite each other's reservation, so what is recorded for the
      vpod falls short of what committing the result takes. */
  lemma DoubleListingIsUncovered(
    name: string, committed: Committed, pruned: Reserved, key: Key, ps: seq<Placement>, i: nat, j: nat)
    requires key in committed && AllCanonical(name, ps) && i < j < |ps| && Ord(ps[i]) == Ord(ps[j])
    requires 0 < ps[i].vreplicas && 0 < ps[j].vreplicas
    requires Claim(name, committed, pruned, key, Ord(ps[i])) < CountAt(ps, Ord(ps[i]))
    ensures Claim(name, committed, Reserve(pruned, key, committed[key], ps), key, Ord(ps[i])) < CountAt(ps, Ord(ps[i]))
  {
    hide OrdinalFromPodName, PodNameFromOrdinal, Reserve, Weight;
    var o := Ord(ps[i]);
    forall k | 0 <= k < |ps| && Ord(ps[k]) == o ensures ps[k].vreplicas < CountAt(ps, o) {
      var other := if k == i then j else i;
      assert forall x :: 0 <= x < |ps| ==> Canonical(name, ps[x]) && 0 <= OnOrdinal(o)(ps[x]);
      PairWithinWeight(ps, OnOrdinal(o), if k < other then k else other, if k < other then other else k);
    }
    ReserveWithin(name, pruned, key, committed[key], ps, o, CountAt(ps, o) - 1);
  }

  /** What a call does to the reservations: it drops the committed ones and records its result. */
  lemma ScheduleReserves(cfg: Setting, s: System, key: Key, w: World)
    requires Basics(cfg, s) && key in s.vpods && Shown(cfg, s, w)
    requires ZonesCurrent(cfg, Zones(cfg, w).0, Zones(cfg, w).1, s.memory.replicas, s.vpods[key])
    ensures var (memory', out) := Schedule(cfg, s.memory, s.vpods[key], w);
            && (w.vpods.None? ==> memory' == s.memory && out.Unavailable?)
            && (w.vpods.Some? ==>
                  var pruned := Pruned(cfg.capacity, w.vpods.value, s.memory.reserved);
                  && (out.Unavailable? ==> memory'.reserved == pruned)
                  && (!out.Unavailable? ==>
                        && WellPlaced(cfg.name, out.placements)
                        && memory'.reserved == Reserve(pruned, key, s.vpods[key].placements, out.placements)))
  {
    hide OrdinalFromPodName, PodNameFromOrdinal, Canonical, Weight, Rearrange, SortByOrdinal, Reserve, AccountVPods,
         AccountReserved, Once, AllCanonical, ZonesCurrent, Enumerates, GoodReserved, AllOwed, Tight, Demand;
    ShownIsWellCalled(cfg, s, key, w);
    ScheduleLaw(cfg, s.memory, s.vpods[key], w);
    if w.vpods.Some? {
      SnapshotRefinesDemand(cfg.name, cfg.capacity, w.vpods.value, s.memory.reserved, w.order, 0);
    }
  }

  /** Demand after a call: it grows on a pod by no more than the vpod's own count there. */
  lemma ScheduleDemand(cfg: Setting, s: System, key: Key, w: World, o: nat)
    requires Basics(cfg, s) && key in s.vpods && Shown(cfg, s, w) && o <= MAX_INT32
    requires ZonesCurrent(cfg, Zones(cfg, w).0, Zones(cfg, w).1, s.memory.replicas, s.vpods[key])
    ensures var (memory', out) := Schedule(cfg, s.memory, s.vpods[key], w);
            var committed, before, after := s.Committed(), s.memory.reserved, memory'.reserved;
            && GoodReserved(cfg.name, after)
            && (out.Unavailable? ==> Demand(cfg.name, committed, after, o) == Demand(cfg.name, committed, before, o))
            && (out.Unavailable? ==> forall k ::
                 Claim(cfg.name, committed, after, k, o) == Claim(cfg.name, committed, before, k, o))
            && (!out.Unavailable? ==>
                  && WellPlaced(cfg.name, out.placements)
                  && Demand(cfg.name, committed, after, o)
                     <= Demand(cfg.name, committed, before, o)
                         + Pos(CountAt(out.placements, o) - CountAt(s.vpods[key].placements, o))
                  && CountAt(out.placements, o) <= Claim(cfg.name, committed, after, key, o)
                  && forall k :: k != key ==>
                     Claim(cfg.name, committed, after, k, o) == Claim(cfg.name, committed, before, k, o))
  {
    hide OrdinalFromPodName, PodNameFromOrdinal, Canonical, Weight, Schedule, Reserve, Pruned, AllCanonical, Once,
         Claim, ZonesCurrent, Enumerates, GoodReserved, Zones;
    ScheduleReserves(cfg, s, key, w);
    if w.vpods.Some? {
      var committed, before := s.Committed(), s.memory.reserved;
      var keys := committed.Keys + before.Keys;
      ShownIsWellCalled(cfg, s, key, w);
      PruningKeepsClaims(cfg.name, cfg.capacity, w.vpods.value, before);
      var (memory', out) := Schedule(cfg, s.memory, s.vpods[key], w);
      if out.Unavailable? {
        SumEqual(keys, Claims(cfg.name, committed, before, o), Claims(cfg.name, committed, memory'.reserved, o));
      } else {
        ReserveDemand(cfg.name, committed, before, Pruned(cfg.capacity, w.vpods.value, before), key, out.placements, o);
      }
    }
  }

  lemma ReserveDemand(
    name: string, committed: Committed, before: Reserved, pruned: Reserved, key: Key, ps: seq<Placement>, o: nat)
    requires GoodCommitted(name, committed) && GoodReserved(name, pruned) && key in committed
    requires WellPlaced(name, ps) && o <= MAX_INT32
    requires committed.Keys + pruned.Keys == committed.Keys + before.Keys
    requires forall k :: Claim(name, committed, pruned, k, o) == Claim(name, committed, before, k, o)
    ensures var after := Reserve(pruned, key, committed[key], ps);
            && GoodReserved(name, after)
            && Demand(name, committed, after, o)
               <= Demand(name, committed, before, o) + Pos(CountAt(ps, o) - CountAt(committed[key], o))
            && CountAt(ps, o) <= Claim(name, committed, after, key, o)
            && forall k :: k != key ==> Claim(name, committed, after, k, o) == Claim(name, committed, before, k, o)
  {
    hide OrdinalFromPodName, PodNameFromOrdinal, Canonical, Weight, Reserve, Once, Claim, GoodReserved;
    var after, keys := Reserve(pruned, key, committed[key], ps), committed.Keys + before.Keys;
    ReserveKeeps(name, pruned, key, committed[key], ps);
    forall k: Key ensures k != key ==> Claim(name, committed, after, k, o) == Claim(name, committed, before, k, o) {
      ReserveClaim(name, committed, pruned, key, ps, k, o);
    }
    ReserveClaim(name, committed, pruned, key, ps, key, o);
    assert committed.Keys + after.Keys == keys;
    SumUpdate(keys, Claims(name, committed, before, o), Claims(name, committed, after, o), key);
  }

  // ----- the invariant -----

  ghost predicate Inv(cfg: Setting, s: System) {
    Basics(cfg, s) && Safe(cfg, s) && Covered(cfg, s)
  }

  /** Changing the placements of one vpod so that it claims no more than before lowers no one's share. */
  lemma DemandFalls(name: string, committed: Committed, committed': Committed, reserved: Reserved, o: nat)
    requires committed'.Keys <= committed.Keys
    requires forall k :: k in committed.Keys + reserved.Keys ==>
               0 <= Claim(name, committed', reserved, k, o) <= Claim(name, committed, reserved, k, o)
    ensures Demand(name, committed', reserved, o) <= Demand(name, committed, reserved, o)
  {
    hide Claim;
    var keys, keys' := committed.Keys + reserved.Keys, committed'.Keys + reserved.Keys;
    SumMonotone(keys, Claims(name, committed', reserved, o), Claims(name, committed, reserved, o));
    SumSubset(keys', keys, Claims(name, committed', reserved, o));
  }

  lemma {:induction false} WithoutLaw(name: string, ps: seq<Placement>, podName: string, o: nat)
    requires AllCanonical(name, ps)
    ensures var r := Without(ps, podName);
            && AllCanonical(name, r)
            && 0 <= CountAt(r, o) <= CountAt(ps, o) && 0 <= Listings(r, o) <= Listings(ps, o)
            && (o <= MAX_INT32 && podName == PodNameFromOrdinal(name, o) ==> Listings(r, o) == 0 && CountAt(r, o) == 0)
            && (o <= MAX_INT32 && podName != PodNameFromOrdinal(name, o) ==> CountAt(r, o) == CountAt(ps, o))
  {
    hide OrdinalFromPodName, PodNameFromOrdinal;
    if ps != [] {
      var first := if ps[0].podName != podName then [ps[0]] else [];
      WithoutLaw(name, ps[1..], podName, o);
      WeightConcat(first, Without(ps[1..], podName), OnOrdinal(o));
      WeightConcat(first, Without(ps[1..], podName), ListedOn(o));
      WeightOne(ps[0], OnOrdinal(o));
      WeightOne(ps[0], ListedOn(o));
      assert Canonical(name, ps[0]);
      if o <= MAX_INT32 { OrdinalRoundTrip(name, o); }
    }
  }

  lemma WithoutIsWellPlaced(name: string, ps: seq<Placement>, podName: string)
    requires WellPlaced(name, ps)
    ensures WellPlaced(name, Without(ps, podName))
  {
    hide OrdinalFromPodName, PodNameFromOrdinal, Canonical, Weight;
    WithoutLaw(name, ps, podName, 0);
    forall o: nat ensures Listings(Without(ps, podName), o) <= 1 {
      WithoutLaw(name, ps, podName, o);
      assert Listings(ps, o) <= 1;
    }
  }

  /** A step that replaces one vpod's placements by ones within its claim, and drops its pending result. */
  lemma ReplaceKeepsInv(cfg: Setting, s: System, key: Key, ps: seq<Placement>)
    requires Inv(cfg, s) && key in s.vpods && WellPlaced(cfg.name, ps)
    requires WithinClaim(cfg, s, key, ps)
    ensures Inv(cfg, s.(vpods := s.vpods[key := s.vpods[key].(placements := ps)], latest := s.latest - {key}))
  {
    hide OrdinalFromPodName, PodNameFromOrdinal, Canonical, Weight, Demand;
    var s' := s.(vpods := s.vpods[key := s.vpods[key].(placements := ps)], latest := s.latest - {key});
    var committed, committed' := s.Committed(), s'.Committed();
    assert committed' == committed[key := ps];
    forall o: nat | o <= MAX_INT32
      ensures DemandOn(cfg, s', o) <= cfg.capacity
    {
      forall k: Key
        ensures 0 <= Claim(cfg.name, committed', s.memory.reserved, k, o)
                <= Claim(cfg.name, committed, s.memory.reserved, k, o)
      {
        ClaimNonNegative(cfg, s, k, o);
        CountsNonNegative(cfg.name, ps, o);
      }
      DemandFalls(cfg.name, committed, committed', s.memory.reserved, o);
      assert DemandOn(cfg, s, o) <= cfg.capacity;
    }
  }

  lemma ClaimNonNegative(cfg: Setting, s: System, k: Key, o: nat)
    requires Basics(cfg, s)
    ensures 0 <= CommittedAt(s.Committed(), k, o) && 0 <= ReservedAt(cfg.name, s.memory.reserved, k, o)
  {
    hide OrdinalFromPodName, PodNameFromOrdinal, Canonical, Weight;
    if k in s.vpods { CountsNonNegative(cfg.name, s.vpods[k].placements, o); }
  }

  lemma RescheduleKeepsInv(cfg: Setting, s: System, key: Key, w: World)
    requires Inv(cfg, s) && Enabled(cfg, s, Reschedule(key, w)) && Clean(cfg, s, Reschedule(key, w))
    ensures Inv(cfg, Apply(cfg, s, Reschedule(key, w)))
  {
    hide OrdinalFromPodName, PodNameFromOrdinal, Canonical, Weight, Demand, Schedule, GoodReserved, WellPlaced,
         Claim, Pruned, Mixed;
    var s' := Apply(cfg, s, Reschedule(key, w));
    assert s'.Committed() == s.Committed();
    if w.vpods.None? {
      ScheduleUnavailable(cfg, s, key, w);
    } else {
      ScheduleDemand(cfg, s, key, w, 0);
      ShownIsWellCalled(cfg, s, key, w);
      ScheduleLaw(cfg, s.memory, s.vpods[key], w);
      forall o: nat | o <= MAX_INT32
        ensures DemandOn(cfg, s', o) <= cfg.capacity
      {
        assert DemandOn(cfg, s, o) <= cfg.capacity;
        ScheduleDemand(cfg, s, key, w, o);
        RoomIsTrue(cfg, s, key, w, o);
      }
      forall k, o: nat | k in s'.latest && o <= MAX_INT32
        ensures CountAt(s'.latest[k], o) <= Claim(cfg.name, s'.Committed(), s'.memory.reserved, k, o)
      {
        ScheduleDemand(cfg, s, key, w, o);
        assert k in s.latest ==> WithinClaim(cfg, s, k, s.latest[k]);
      }
    }
  }

  lemma ScheduleUnavailable(cfg: Setting, s: System, key: Key, w: World)
    requires key in s.vpods && 0 <= s.vpods[key].vreplicas && Answers(cfg, w) && w.vpods.None?
    ensures Schedule(cfg, s.memory, s.vpods[key], w) == (s.memory, Unavailable)
  {
  }

  /** Without mixed reservations, what a call adds on a pod fits what is truly free there. */
  lemma RoomIsTrue(cfg: Setting, s: System, key: Key, w: World, o: nat)
    requires Basics(cfg, s) && key in s.vpods && Shown(cfg, s, w) && o <= MAX_INT32 && w.vpods.Some?
    requires NoMix(s.Committed(), Pruned(cfg.capacity, w.vpods.value, s.memory.reserved))
    ensures var out := Schedule(cfg, s.memory, s.vpods[key], w).1;
            !out.Unavailable? ==>
              CountAt(out.placements, o) - CountAt(s.vpods[key].placements, o)
                  <= Pos(cfg.capacity - DemandOn(cfg, s, o))
  {
    hide OrdinalFromPodName, PodNameFromOrdinal, Canonical, Weight, Rearrange, SortByOrdinal, Reserve, Build, Pruned,
         Demand, Enumerates, Mixed, Once;
    var vpod := s.vpods[key];
    ShownIsWellCalled(cfg, s, key, w);
    SnapshotRefinesDemand(cfg.name, cfg.capacity, w.vpods.value, s.memory.reserved, w.order, o);
    var b := Build(cfg.capacity, w.vpods.value, s.memory.reserved, w.order);
    if !(cfg.policy.EVENSPREAD? && w.nodes.None?) {
      var (numZones, c) := Zones(cfg, w);
      var a := Rearrange(cfg, numZones, c, s.memory.replicas, b.snap, vpod);
      RearrangeLaw(cfg, numZones, c, s.memory.replicas, b.snap, vpod);
      SortKeepsWeight(a.placed, OnOrdinal(o));
      if Total(vpod.placements) <= vpod.vreplicas {
        assert CountAt(a.placed, o) <= CountAt(vpod.placements, o) + Pos(b.snap.Free(o));
      } else {
        assert CountAt(a.placed, o) <= CountAt(vpod.placements, o);
      }
    }
  }

  /** Every clean step keeps the invariant. */
  lemma StepKeepsInv(cfg: Setting, s: System, step: Step)
    requires Inv(cfg, s) && Enabled(cfg, s, step) && Clean(cfg, s, step)
    ensures Inv(cfg, Apply(cfg, s, step))
  {
    hide OrdinalFromPodName, PodNameFromOrdinal, Canonical, Weight, Demand, Schedule, Claim, Without;
    match step
    case Reschedule(key, w) => RescheduleKeepsInv(cfg, s, key, w);
    case Commit(key) => ReplaceKeepsInv(cfg, s, key, s.latest[key]);
    case Evict(key, podName) =>
      EvictionWithinClaim(cfg, s, key, podName);
      ReplaceKeepsInv(cfg, s, key, Without(s.vpods[key].placements, podName));
    case SetVReplicas(key, v) =>
      assert Apply(cfg, s, step).Committed() == s.Committed();
      SameClaims(cfg, s, Apply(cfg, s, step));
    case Resize(replicas) => SameClaims(cfg, s, Apply(cfg, s, step));
    case Create(key, v) => CreateKeepsInv(cfg, s, key, v);
    case Delete(key) => DeleteKeepsInv(cfg, s, key);
  }

  lemma SameClaims(cfg: Setting, s: System, s': System)
    requires Inv(cfg, s) && s'.Committed() == s.Committed() && s'.memory.reserved == s.memory.reserved
            && s'.latest == s.latest
    ensures Safe(cfg, s') && Covered(cfg, s')
  {
    hide OrdinalFromPodName, PodNameFromOrdinal, Canonical, Weight, Demand, Claim;
    forall o: nat | o <= MAX_INT32 ensures DemandOn(cfg, s', o) <= cfg.capacity {
      assert DemandOn(cfg, s, o) <= cfg.capacity;
    }
  }

  lemma EvictionWithinClaim(cfg: Setting, s: System, key: Key, podName: string)
    requires Basics(cfg, s) && key in s.vpods
    ensures var ps := Without(s.vpods[key].placements, podName);
            && WellPlaced(cfg.name, ps)
            && WithinClaim(cfg, s, key, ps)
  {
    hide OrdinalFromPodName, PodNameFromOrdinal, Canonical, Weight, Without;
    var ps := s.vpods[key].placements;
    WithoutIsWellPlaced(cfg.name, ps, podName);
    forall o: nat | o <= MAX_INT32
      ensures CountAt(Without(ps, podName), o) <= Claim(cfg.name, s.Committed(), s.memory.reserved, key, o)
    {
      WithoutLaw(cfg.name, ps, podName, o);
    }
  }

  lemma CreateKeepsInv(cfg: Setting, s: System, key: Key, v: nat)
    requires Inv(cfg, s) && key !in s.vpods
    ensures Inv(cfg, s.(vpods := s.vpods[key := VPod(key, v, [])]))
  {
    hide OrdinalFromPodName, PodNameFromOrdinal, Canonical, Weight, Demand, Claim;
    var s' := s.(vpods := s.vpods[key := VPod(key, v, [])]);
    assert s'.Committed() == s.Committed()[key := []];
    forall o: nat | o <= MAX_INT32
      ensures DemandOn(cfg, s', o) <= cfg.capacity
    {
      EmptyVPodClaims(cfg, s, key, o);
      assert DemandOn(cfg, s, o) <= cfg.capacity;
    }
    forall k, o: nat | k in s.latest && o <= MAX_INT32
      ensures CountAt(s.latest[k], o) <= Claim(cfg.name, s'.Committed(), s'.memory.reserved, k, o)
    {
      EmptyVPodClaims(cfg, s, key, o);
      assert WithinClaim(cfg, s, k, s.latest[k]);
    }
    assert WellPlaced(cfg.name, []) by {
      forall o: nat ensures Listings([], o) <= 1 { WeightNil(ListedOn(o)); }
    }
  }

  /** A vpod without placements claims what is still reserved for its key. */
  lemma EmptyVPodClaims(cfg: Setting, s: System, key: Key, o: nat)
    requires Basics(cfg, s) && key !in s.vpods
    ensures var committed' := s.Committed()[key := []];
            && Demand(cfg.name, committed', s.memory.reserved, o)
               == Demand(cfg.name, s.Committed(), s.memory.reserved, o)
            && forall k ::
                 Claim(cfg.name, committed', s.memory.reserved, k, o)
                 == Claim(cfg.name, s.Committed(), s.memory.reserved, k, o)
  {
    hide OrdinalFromPodName, PodNameFromOrdinal, Canonical, Weight, GoodReserved, WellPlaced;
    var committed, reserved := s.Committed(), s.memory.reserved;
    var committed' := committed[key := []];
    var keys, keys' := committed.Keys + reserved.Keys, committed'.Keys + reserved.Keys;
    WeightNil(OnOrdinal(o));
    SumEqual(keys', Claims(cfg.name, committed', reserved, o), Claims(cfg.name, committed, reserved, o));
    SumWiden(keys, keys', Claims(cfg.name, committed, reserved, o));
  }

  lemma DeleteKeepsInv(cfg: Setting, s: System, key: Key)
    requires Inv(cfg, s) && key in s.vpods
    ensures Inv(cfg, s.(vpods := s.vpods - {key}, latest := s.latest - {key}))
  {
    hide OrdinalFromPodName, PodNameFromOrdinal, Canonical, Weight;
    var s' := s.(vpods := s.vpods - {key}, latest := s.latest - {key});
    var committed, committed', reserved := s.Committed(), s'.Committed(), s.memory.reserved;
    assert committed' == committed - {key};
    forall o: nat | o <= MAX_INT32
      ensures DemandOn(cfg, s', o) <= cfg.capacity
    {
      forall k: Key
        ensures 0 <= Claim(cfg.name, committed', reserved, k, o) <= Claim(cfg.name, committed, reserved, k, o)
      {
        ClaimNonNegative(cfg, s, k, o);
      }
      DemandFalls(cfg.name, committed, committed', reserved, o);
      assert DemandOn(cfg, s, o) <= cfg.capacity;
    }
  }

  // ----- whole runs -----

  /** A run: each step is enabled and clean where it is taken. */
  ghost predicate CleanRun(cfg: Setting, s: System, steps: seq<Step>)
    decreases steps
  {
    steps != [] ==>
      && Enabled(cfg, s, steps[0]) && Clean(cfg, s, steps[0])
      && CleanRun(cfg, Apply(cfg, s, steps[0]), steps[1..])
  }

  ghost function Final(cfg: Setting, s: System, steps: seq<Step>): System
    requires CleanRun(cfg, s, steps)
    decreases steps
  {
    if steps == [] then s else Final(cfg, Apply(cfg, s, steps[0]), steps[1..])
  }

  lemma StartIsSafe(cfg: Setting, replicas: nat)
    requires 0 <= cfg.capacity && replicas <= MAX_INT32
    ensures Inv(cfg, System(map[], Memory(replicas, map[], map[]), map[]))
  {
    hide OrdinalFromPodName, PodNameFromOrdinal, Claim;
    var s := System(map[], Memory(replicas, map[], map[]), map[]);
    forall o: nat ensures DemandOn(cfg, s, o) == 0 {
      assert s.Committed().Keys + s.memory.reserved.Keys == {};
    }
  }

  /** Safety over whole runs: from a safe state, no clean run ever promises a pod beyond its capacity. */
  lemma {:induction false} RunsAreSafe(cfg: Setting, s: System, steps: seq<Step>)
    requires Inv(cfg, s) && CleanRun(cfg, s, steps)
    ensures Inv(cfg, Final(cfg, s, steps))
    ensures forall o: nat :: o <= MAX_INT32 ==> DemandOn(cfg, Final(cfg, s, steps), o) <= cfg.capacity
    decreases steps
  {
    if steps != [] {
      StepKeepsInv(cfg, s, steps[0]);
      RunsAreSafe(cfg, Apply(cfg, s, steps[0]), steps[1..]);
    }
  }
}
