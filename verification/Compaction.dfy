/** Compaction of the last pod makes progress (pkg/common/scheduler/statefulset/autoscaler.go). */
module Compaction {
  import opened PodNames
  import opened Placements
  import opened Arithmetic
  import opened Sums
  import opened Snapshots
  import opened SnapshotLaws
  import opened FillUp
  import opened EvenSpread
  import opened Scheduling
  import opened SchedulerRuns
  import opened Autoscaling

  /** The free capacity of all pods up to the last ordinal. */
  ghost function FreeCapacity(b: Building): int {
    SumOver(Below(b.last + 1), FreeOf(b.snap))
  }

  /** The pods below the last one have room for all it holds. */
  ghost predicate MayCompact(cfg: Setting, b: Building) {
    && cfg.policy.MAXFILLUP? && 1 <= b.last
    && FreeCapacity(b) - b.snap.Free(b.last) >= cfg.capacity - b.snap.Free(b.last)
  }

  /** Every vpod after its placements on one pod are gone. */
  function EvictedFrom(vpods: map<Key, VPod>, podName: string): map<Key, VPod> {
    map k | k in vpods :: vpods[k].(placements := Without(vpods[k].placements, podName))
  }

  predicate Positive(ps: seq<Placement>) {
    forall i :: 0 <= i < |ps| ==> 0 < ps[i].vreplicas
  }

  /** Every vpod has as many replicas placed as it wants. */
  predicate FullyPlaced(vpods: map<Key, VPod>) {
    forall k :: k in vpods ==> Total(vpods[k].placements) == vpods[k].vreplicas
  }

  predicate UsesOnly(vpods: map<Key, VPod>, pods: set<nat>) {
    forall k :: k in vpods ==> OrdSet(vpods[k].placements) <= pods
  }

  function TurnKeys(turns: seq<Turn>): set<Key> {
    set i | 0 <= i < |turns| :: turns[i].key
  }

  lemma TurnKeysHead(turns: seq<Turn>)
    requires turns != []
    ensures TurnKeys(turns) == {turns[0].key} + TurnKeys(turns[1..])
    ensures DistinctTurns(turns) ==> turns[0].key !in TurnKeys(turns[1..])
  {
    assert forall i :: 1 <= i < |turns| ==> turns[i] == turns[1..][i - 1];
  }

  // ----- the round after the eviction -----

  /** Rescheduling and committing vpods whose deficits fit below the bound places them all, and leaves the others
      alone. */
  lemma {:induction false} RoundCompacts(cfg: Setting, s: System, turns: seq<Turn>, bound: nat)
    requires cfg.policy.MAXFILLUP? && Basics(cfg, s) && RoundEnabled(cfg, s, turns) && DistinctTurns(turns)
    requires bound <= s.memory.replicas && Deficits(s.vpods, turns) <= Room(cfg, s, bound)
    requires forall i :: 0 <= i < |turns| ==> turns[i].commit
    ensures var s' := After(cfg, s, turns);
            && s'.vpods.Keys == s.vpods.Keys && Basics(cfg, s')
            && (forall k :: k in s.vpods && k !in TurnKeys(turns) ==> s'.vpods[k] == s.vpods[k])
            && (forall k :: k in s.vpods && k in TurnKeys(turns) ==>
                  && Total(s'.vpods[k].placements) == s'.vpods[k].vreplicas == s.vpods[k].vreplicas
                  && (OrdSet(s.vpods[k].placements) <= Below(bound) ==> OrdSet(s'.vpods[k].placements) <= Below(bound)))
    decreases turns
  {
    hide OrdinalFromPodName, PodNameFromOrdinal, Canonical, Weight, Demand, Schedule, WellPlaced, Below, Basics, Room,
         TurnEnabled, Take, TurnOutcome, OrdSet;
    if turns != [] {
      var t, s1 := turns[0], Take(cfg, s, turns[0]);
      DeficitsNonNegative(s.vpods, turns[1..]);
      EnabledKey(cfg, s, t);
      TurnFits(cfg, s, t, bound);
      TakeLaw(cfg, s, t, 0);
      TurnKeysHead(turns);
      DeficitsElsewhere(s.vpods, s1.vpods, turns[1..]);
      RoundCompacts(cfg, s1, turns[1..], bound);
    }
  }

  // ----- entries above the bound -----

  /** Nothing is claimed of the pods at or above the bound. */
  ghost predicate FreeFrom(cfg: Setting, s: System, bound: nat) {
    forall o: nat :: bound <= o <= MAX_INT32 ==> DemandOn(cfg, s, o) <= 0
  }

  /** Where nothing is claimed, nothing is placed. */
  lemma NoCountWithoutDemand(cfg: Setting, s: System, k: Key, o: nat)
    requires Basics(cfg, s) && k in s.vpods && DemandOn(cfg, s, o) <= 0
    ensures CountAt(s.vpods[k].placements, o) == 0
  {
    hide OrdinalFromPodName, PodNameFromOrdinal, Weight;
    var committed, reserved := s.Committed(), s.memory.reserved;
    forall x: Key ensures 0 <= Claims(cfg.name, committed, reserved, o)(x) {
      ClaimNonNegative(cfg, s, x, o);
    }
    SumNonNegative(committed.Keys + reserved.Keys, Claims(cfg.name, committed, reserved, o));
    assert CommittedAt(committed, k, o) <= Claims(cfg.name, committed, reserved, o)(k) <= 0;
    ClaimNonNegative(cfg, s, k, o);
  }

  /** The snapshot a turn is shown. */
  ghost function Sight(cfg: Setting, s: System, t: Turn): Snapshot
    requires t.world.vpods.Some?
  {
    Build(cfg.capacity, t.world.vpods.value, s.memory.reserved, t.world.order).snap
  }

  /** Judged before the call: the vpod lists no pod at or above the bound, or the pods it lists before the first such
      one have room for all it lacks. */
  ghost predicate TurnStaysBelow(cfg: Setting, s: System, t: Turn, bound: nat)
    requires TurnEnabled(cfg, s, t)
  {
    StaysBelow(Sight(cfg, s, t), s.vpods[t.key].placements, Deficit(s.vpods[t.key]), bound)
  }

  ghost predicate RoundStaysBelow(cfg: Setting, s: System, turns: seq<Turn>, bound: nat)
    requires RoundEnabled(cfg, s, turns)
    decreases turns
  {
    turns != [] ==>
      && TurnStaysBelow(cfg, s, turns[0], bound)
      && RoundStaysBelow(cfg, Take(cfg, s, turns[0]), turns[1..], bound)
  }

  /** A vpod has come to use a pod at or above the bound that it listed before. */
  ghost predicate Rises(before: seq<Placement>, after: seq<Placement>, bound: nat) {
    exists o: nat :: bound <= o && o in OrdSet(before) && CountAt(after, o) > 0
  }

  ghost predicate UsedOnlyBelow(ps: seq<Placement>, bound: nat) {
    forall o: nat :: bound <= o ==> CountAt(ps, o) == 0
  }

  lemma RearrangeStaysBelowIff(cfg: Setting, replicas: int, snap: Snapshot, vpod: VPod, c: Cluster, bound: nat)
    requires cfg.policy.MAXFILLUP? && 0 <= vpod.vreplicas && WellPlaced(cfg.name, vpod.placements)
    requires bound <= replicas <= MAX_INT32 && Deficit(vpod) <= SumOver(Below(bound), RoomOf(snap))
    requires UsedOnlyBelow(vpod.placements, bound)
    requires forall o: nat :: bound <= o && o in OrdSet(vpod.placements) ==> 0 < snap.Free(o)
    ensures var a := Rearrange(cfg, 0, c, replicas, snap, vpod);
            var fits := StaysBelow(snap, vpod.placements, Deficit(vpod), bound);
            && (fits ==> UsedOnlyBelow(a.placed, bound))
            && (!fits ==> Rises(vpod.placements, a.placed, bound))
  {
    hide OrdinalFromPodName, PodNameFromOrdinal, Canonical, Weight, Once, Below, RemoveReplicas, AddReplicas, OrdSet;
    var ps, v := vpod.placements, vpod.vreplicas;
    var a := Rearrange(cfg, 0, c, replicas, snap, vpod);
    RearrangeLaw(cfg, 0, c, replicas, snap, vpod);
    if Total(ps) < v {
      StaysBelowIff(snap, cfg.name, replicas, v - Total(ps), ps, bound);
    } else {
      SumNonNegative(OrdSet(Before(ps, bound)), RoomOf(snap));
      forall o: nat | bound <= o ensures CountAt(a.placed, o) == 0 {
        assert CountAt(ps, o) == 0;
        CountsNonNegative(cfg.name, a.placed, o);
      }
    }
  }

  /** A turn leaves the pods from the bound on unused exactly if it was judged to; otherwise it uses one of them. */
  lemma TurnStaysBelowIff(cfg: Setting, s: System, t: Turn, bound: nat)
    requires cfg.policy.MAXFILLUP? && 0 < cfg.capacity && Basics(cfg, s) && TurnEnabled(cfg, s, t)
    requires bound <= s.memory.replicas && Deficit(s.vpods[t.key]) <= Room(cfg, s, bound) && FreeFrom(cfg, s, bound)
    ensures var ps, out := s.vpods[t.key].placements, TurnOutcome(cfg, s, t);
            && out.Scheduled?
            && (TurnStaysBelow(cfg, s, t, bound) ==> UsedOnlyBelow(out.placements, bound))
            && (!TurnStaysBelow(cfg, s, t, bound) ==> Rises(ps, out.placements, bound))
            && UsedOnlyBelow(ps, bound)
  {
    hide OrdinalFromPodName, PodNameFromOrdinal, Canonical, Weight, Demand, Build, WellPlaced, Below, Enumerates,
         Rearrange, SortByOrdinal, Reserve, OrdSet, GoodReserved, Room, Deficit, StaysBelow, Tight, AllOwed, NoMix;
    var vpod, w, snap := s.vpods[t.key], t.world, Sight(cfg, s, t);
    var a := Rearrange(cfg, 0, Zones(cfg, w).1, s.memory.replicas, snap, vpod);
    FreeMeansUnused(cfg, s, t.key, bound);
    ListingCommitted(w.vpods.value, s);
    forall o: nat | bound <= o && o in OrdSet(vpod.placements) ensures 0 < snap.Free(o) {
      OrdSetBounded(vpod.placements, o);
      SnapshotRefinesDemand(cfg.name, cfg.capacity, w.vpods.value, s.memory.reserved, w.order, o);
      assert DemandOn(cfg, s, o) <= 0;
    }
    SnapshotShowsRoom(cfg, s, w, bound);
    RearrangeStaysBelowIff(cfg, s.memory.replicas, snap, vpod, Zones(cfg, w).1, bound);
    TurnFits(cfg, s, t, bound);
    assert TurnOutcome(cfg, s, t).placements == SortByOrdinal(a.placed);
    forall o: nat ensures CountAt(SortByOrdinal(a.placed), o) == CountAt(a.placed, o) {
      SortKeepsWeight(a.placed, OnOrdinal(o));
    }
  }

  /** A whole round: it leaves the pods from the bound on free exactly if every turn is judged to stay below, in the
      state it is taken in; otherwise a vpod ends up on one of them. */
  lemma {:induction false} RoundStaysBelowIff(cfg: Setting, s: System, turns: seq<Turn>, bound: nat)
    requires cfg.policy.MAXFILLUP? && 0 < cfg.capacity && Basics(cfg, s)
    requires RoundEnabled(cfg, s, turns) && DistinctTurns(turns)
    requires bound <= s.memory.replicas && Deficits(s.vpods, turns) <= Room(cfg, s, bound) && FreeFrom(cfg, s, bound)
    requires forall i :: 0 <= i < |turns| ==> turns[i].commit
    ensures var s' := After(cfg, s, turns);
            && (RoundStaysBelow(cfg, s, turns, bound) ==> FreeFrom(cfg, s', bound))
            && (!RoundStaysBelow(cfg, s, turns, bound) ==>
                  exists k ::
                    && k in s.vpods && k in s'.vpods
                    && Rises(s.vpods[k].placements, s'.vpods[k].placements, bound))
    decreases turns
  {
    hide OrdinalFromPodName, PodNameFromOrdinal, Canonical, Weight, DemandOn, Schedule, WellPlaced, Below, Basics, Room,
         TurnEnabled, Take, TurnOutcome, OrdSet, TurnStaysBelow, Rises;
    if turns != [] {
      var t, s1 := turns[0], Take(cfg, s, turns[0]);
      DeficitsNonNegative(s.vpods, turns[1..]);
      EnabledKey(cfg, s, t);
      TurnFits(cfg, s, t, bound);
      TakeLaw(cfg, s, t, 0);
      TurnKeysHead(turns);
      DeficitsElsewhere(s.vpods, s1.vpods, turns[1..]);
      TurnStaysBelowIff(cfg, s, t, bound);
      if TurnStaysBelow(cfg, s, t, bound) {
        forall o: nat | bound <= o <= MAX_INT32 ensures DemandOn(cfg, s1, o) <= 0 { TakeLaw(cfg, s, t, o); }
        RoundStaysBelowIff(cfg, s1, turns[1..], bound);
        if !RoundStaysBelow(cfg, s1, turns[1..], bound) {
          var s' := After(cfg, s, turns);
          var k :| k in s1.vpods && k in s'.vpods && Rises(s1.vpods[k].placements, s'.vpods[k].placements, bound);
          RoundCompacts(cfg, s1, turns[1..], bound);
          if k == t.key { NotRisen(s1.vpods[k].placements, s'.vpods[k].placements, bound); }
        }
      } else {
        RoundCompacts(cfg, s1, turns[1..], bound);
      }
    }
  }

  lemma NotRisen(before: seq<Placement>, after: seq<Placement>, bound: nat)
    requires before == after && UsedOnlyBelow(before, bound)
    ensures !Rises(before, after, bound)
  {
  }

  /** Vpods that list no pod at or above the bound stay below it. */
  lemma {:induction false} ListedBelowStaysBelow(cfg: Setting, s: System, turns: seq<Turn>, bound: nat)
    requires cfg.policy.MAXFILLUP? && Basics(cfg, s) && RoundEnabled(cfg, s, turns) && DistinctTurns(turns)
    requires forall k :: k in s.vpods && k in TurnKeys(turns) ==> OrdSet(s.vpods[k].placements) <= Below(bound)
    ensures RoundStaysBelow(cfg, s, turns, bound)
    decreases turns
  {
    hide OrdinalFromPodName, PodNameFromOrdinal, Canonical, Weight, DemandOn, Schedule, WellPlaced, Below, Basics,
         Take, OrdSet, Build, TurnOutcome, Deficit, Before;
    if turns != [] {
      var t, s1 := turns[0], Take(cfg, s, turns[0]);
      TakeLaw(cfg, s, t, 0);
      TurnKeysHead(turns);
      BeforeLaw(s.vpods[t.key].placements, bound);
      ListedBelowStaysBelow(cfg, s1, turns[1..], bound);
    }
  }

  // ----- the eviction -----

  lemma {:induction false} WithoutTotal(name: string, ps: seq<Placement>, o: nat)
    requires AllCanonical(name, ps) && o <= MAX_INT32
    ensures Total(Without(ps, PodNameFromOrdinal(name, o))) == Total(ps) - CountAt(ps, o)
  {
    hide OrdinalFromPodName, PodNameFromOrdinal;
    var podName := PodNameFromOrdinal(name, o);
    if ps != [] {
      WithoutTotal(name, ps[1..], o);
      WeightConcat(if ps[0].podName != podName then [ps[0]] else [], Without(ps[1..], podName), Replicas());
      WeightOne(ps[0], Replicas());
      OrdinalRoundTrip(name, o);
      assert Canonical(name, ps[0]);
    }
  }

  lemma {:induction false} WithoutEntries(ps: seq<Placement>, podName: string)
    ensures forall p :: p in Without(ps, podName) <==> p in ps && p.podName != podName
  {
    if ps != [] {
      WithoutEntries(ps[1..], podName);
      assert forall p :: p in ps <==> p == ps[0] || p in ps[1..];
    }
  }

  lemma WithoutOrdSet(name: string, ps: seq<Placement>, o: nat)
    requires AllCanonical(name, ps) && o <= MAX_INT32
    ensures OrdSet(Without(ps, PodNameFromOrdinal(name, o))) <= OrdSet(ps) - {o}
  {
    hide OrdinalFromPodName, PodNameFromOrdinal, Without;
    var r := Without(ps, PodNameFromOrdinal(name, o));
    WithoutEntries(ps, PodNameFromOrdinal(name, o));
    forall i | 0 <= i < |r| ensures Ord(r[i]) in OrdSet(ps) - {o} {
      assert r[i] in r;
      var j :| 0 <= j < |ps| && ps[j] == r[i];
      assert Canonical(name, ps[j]);
      EntryInOrdSet(ps, j);
    }
  }

  /** A pod nothing is claimed of holds no entry, since entries are not empty. */
  lemma NoEntryWithoutDemand(cfg: Setting, s: System, k: Key, o: nat)
    requires Basics(cfg, s) && k in s.vpods && Positive(s.vpods[k].placements) && DemandOn(cfg, s, o) == 0
    ensures o !in OrdSet(s.vpods[k].placements)
  {
    hide OrdinalFromPodName, PodNameFromOrdinal;
    NoCountWithoutDemand(cfg, s, k, o);
    var ps := s.vpods[k].placements;
    if o in OrdSet(ps) {
      var i :| 0 <= i < |ps| && Ord(ps[i]) == o;
      WeightNonNegative(ps, OnOrdinal(o));
      assert false;
    }
  }

  /** The claims on one pod, when there are no reservations. */
  function CountsOn(vpods: map<Key, VPod>, o: nat): Key -> int {
    (k: Key) => if k in vpods then CountAt(vpods[k].placements, o) else 0
  }

  lemma PlainDemand(cfg: Setting, s: System, o: nat)
    requires Basics(cfg, s) && s.memory.reserved == map[]
    ensures DemandOn(cfg, s, o) == SumOver(s.vpods.Keys, CountsOn(s.vpods, o))
  {
    hide OrdinalFromPodName, PodNameFromOrdinal, Weight, Canonical;
    var committed, reserved := s.Committed(), s.memory.reserved;
    assert committed.Keys + reserved.Keys == s.vpods.Keys;
    forall k: Key | k in s.vpods ensures Claims(cfg.name, committed, reserved, o)(k) == CountsOn(s.vpods, o)(k) {
      ClaimNonNegative(cfg, s, k, o);
    }
    SumEqual(s.vpods.Keys, Claims(cfg.name, committed, reserved, o), CountsOn(s.vpods, o));
  }

  /** After the eviction the deficits of any vpods add up to no more than what the pod held. */
  lemma {:induction false} EvictedDeficits(
    cfg: Setting, vpods: map<Key, VPod>, o: nat, turns: seq<Turn>, keys: set<Key>)
    requires o <= MAX_INT32 && DistinctTurns(turns) && TurnKeys(turns) <= keys <= vpods.Keys
    requires forall k :: k in vpods ==>
            AllCanonical(cfg.name, vpods[k].placements) && Total(vpods[k].placements) == vpods[k].vreplicas
    ensures Deficits(EvictedFrom(vpods, PodNameFromOrdinal(cfg.name, o)), turns) <= SumOver(keys, CountsOn(vpods, o))
  {
    hide OrdinalFromPodName, PodNameFromOrdinal, Canonical, Weight, Without;
    forall k | k in vpods ensures 0 <= CountsOn(vpods, o)(k) { CountsNonNegative(cfg.name, vpods[k].placements, o); }
    if turns == [] {
      SumNonNegative(keys, CountsOn(vpods, o));
    } else {
      var k := turns[0].key;
      TurnKeysHead(turns);
      WithoutTotal(cfg.name, vpods[k].placements, o);
      EvictedDeficits(cfg, vpods, o, turns[1..], keys - {k});
      SumRemove(keys, CountsOn(vpods, o), k);
    }
  }

  ghost function AfterEviction(cfg: Setting, s: System, last: nat): System {
    s.(vpods := EvictedFrom(s.vpods, PodNameFromOrdinal(cfg.name, last)), latest := map[])
  }

  lemma EvictionKeepsBasics(cfg: Setting, s: System, last: nat)
    requires Basics(cfg, s) && last <= MAX_INT32
    ensures Basics(cfg, AfterEviction(cfg, s, last))
    ensures AfterEviction(cfg, s, last).vpods.Keys == s.vpods.Keys
  {
    hide OrdinalFromPodName, PodNameFromOrdinal, WellPlaced, Without, GoodReserved;
    var podName := PodNameFromOrdinal(cfg.name, last);
    forall k | k in s.vpods ensures WellPlaced(cfg.name, Without(s.vpods[k].placements, podName)) {
      WithoutIsWellPlaced(cfg.name, s.vpods[k].placements, podName);
    }
  }

  /** The eviction leaves the demand on the other pods unchanged. */
  lemma EvictionDemand(cfg: Setting, s: System, last: nat, o: nat)
    requires Basics(cfg, s) && s.memory.reserved == map[] && last <= MAX_INT32 && o <= MAX_INT32 && o != last
    ensures DemandOn(cfg, AfterEviction(cfg, s, last), o) == DemandOn(cfg, s, o)
  {
    hide OrdinalFromPodName, PodNameFromOrdinal, Once, Canonical, Weight, Without, GoodReserved, DemandOn;
    var podName := PodNameFromOrdinal(cfg.name, last);
    var s1 := AfterEviction(cfg, s, last);
    EvictionKeepsBasics(cfg, s, last);
    PlainDemand(cfg, s, o);
    PlainDemand(cfg, s1, o);
    forall k | k in s.vpods ensures CountsOn(s1.vpods, o)(k) == CountsOn(s.vpods, o)(k) {
      PodNamesDiffer(cfg.name, last, o);
      WithoutLaw(cfg.name, s.vpods[k].placements, podName, o);
    }
    SumEqual(s.vpods.Keys, CountsOn(s1.vpods, o), CountsOn(s.vpods, o));
  }

  /** After the eviction nothing is claimed of the last pod or of any above it. */
  lemma EvictionFrees(cfg: Setting, s: System, vpods: seq<VPod>, last: nat)
    requires Basics(cfg, s) && s.memory.reserved == map[] && ListsAll(vpods, s.vpods)
    requires last == PlainSnapshot(cfg, vpods).last && last <= MAX_INT32
    ensures FreeFrom(cfg, AfterEviction(cfg, s, last), last)
  {
    hide OrdinalFromPodName, PodNameFromOrdinal, Once, Canonical, Weight, Without, GoodReserved, DemandOn, Build;
    var s1 := AfterEviction(cfg, s, last);
    EvictionKeepsBasics(cfg, s, last);
    forall o: nat | last <= o <= MAX_INT32 ensures DemandOn(cfg, s1, o) <= 0 {
      if o == last {
        PlainDemand(cfg, s1, o);
        forall k | k in s1.vpods ensures CountsOn(s1.vpods, o)(k) == 0 {
          WithoutLaw(cfg.name, s.vpods[k].placements, PodNameFromOrdinal(cfg.name, last), o);
        }
        SumWiden({}, s1.vpods.Keys, CountsOn(s1.vpods, o));
      } else {
        EvictionDemand(cfg, s, last, o);
        SameSightWithoutReservations(cfg, s, vpods, o);
      }
    }
  }

  /** After the eviction no vpod lists the last pod. */
  lemma EvictionUsesOnly(cfg: Setting, s: System, last: nat, k: Key)
    requires Basics(cfg, s) && last <= MAX_INT32 && k in s.vpods
    ensures var ps := AfterEviction(cfg, s, last).vpods[k].placements;
            && last !in OrdSet(ps)
            && (OrdSet(s.vpods[k].placements) <= Below(last + 1) ==> OrdSet(ps) <= Below(last))
  {
    hide OrdinalFromPodName, PodNameFromOrdinal, Once, Canonical, Weight, Without, GoodReserved, OrdSet, Below;
    WithoutOrdSet(cfg.name, s.vpods[k].placements, last);
  }

  /** Vpods without empty entries list no pod above the last ordinal. */
  lemma PositiveUsesOnly(cfg: Setting, s: System, vpods: seq<VPod>)
    requires Basics(cfg, s) && s.memory.reserved == map[] && ListsAll(vpods, s.vpods)
    requires forall k :: k in s.vpods ==> Positive(s.vpods[k].placements)
    ensures UsesOnly(s.vpods, Below(PlainSnapshot(cfg, vpods).last + 1))
  {
    hide OrdinalFromPodName, PodNameFromOrdinal, Once, Canonical, Weight, GoodReserved, DemandOn, Build, OrdSet, Below;
    var last := PlainSnapshot(cfg, vpods).last;
    forall k, o: nat | k in s.vpods && o in OrdSet(s.vpods[k].placements)
      ensures o in Below(last + 1)
    {
      OrdSetBounded(s.vpods[k].placements, o);
      if last < o {
        SameSightWithoutReservations(cfg, s, vpods, o);
        NoEntryWithoutDemand(cfg, s, k, o);
      }
    }
  }

  lemma OrdSetBounded(ps: seq<Placement>, o: nat)
    requires o in OrdSet(ps)
    ensures o <= MAX_INT32
  {
    hide OrdinalFromPodName;
  }

  /** The test passes exactly when there is a pod below the last one and what the last one holds fits the room below
      it. */
  lemma TestIffFits(cfg: Setting, s: System, vpods: seq<VPod>)
    requires cfg.policy.MAXFILLUP? && Basics(cfg, s) && Safe(cfg, s) && s.memory.reserved == map[]
    requires ListsAll(vpods, s.vpods)
    ensures var b := PlainSnapshot(cfg, vpods);
            MayCompact(cfg, b) <==> 1 <= b.last && DemandOn(cfg, s, b.last) <= Room(cfg, s, b.last)
  {
    hide OrdinalFromPodName, PodNameFromOrdinal, Basics, Build, DemandOn, Demand, Below, ListsAll;
    var b := PlainSnapshot(cfg, vpods);
    PlainSnapshotIsExact(cfg, s, vpods, 0);
    if 1 <= b.last {
      var last: nat := b.last;
      var room := RoomFor(cfg, DemandFor(cfg, s));
      assert Below(last + 1) == Below(last) + {last};
      SumAdd(Below(last), FreeOf(b.snap), last);
      forall o: nat | o <= last ensures FreeOf(b.snap)(o) == cfg.capacity - DemandOn(cfg, s, o) == room(o) {
        PlainSnapshotIsExact(cfg, s, vpods, o);
        NoOtherDemand(cfg, s, o);
        assert DemandOn(cfg, s, o) <= cfg.capacity;
        assert room(o) == Pos(cfg.capacity - DemandOn(cfg, s, o));
      }
      SumEqual(Below(last), FreeOf(b.snap), room);
    }
  }

  /** The room below the last pod is enough for what it held. */
  lemma RoomForEvicted(cfg: Setting, s: System, vpods: seq<VPod>, turns: seq<Turn>)
    requires Basics(cfg, s) && Safe(cfg, s) && s.memory.reserved == map[]
    requires ListsAll(vpods, s.vpods) && FullyPlaced(s.vpods)
    requires MayCompact(cfg, PlainSnapshot(cfg, vpods)) && PlainSnapshot(cfg, vpods).last <= MAX_INT32
    requires DistinctTurns(turns) && TurnKeys(turns) <= s.vpods.Keys
    ensures var last := PlainSnapshot(cfg, vpods).last;
            var s1 := AfterEviction(cfg, s, last);
            Deficits(s1.vpods, turns) <= Room(cfg, s1, last)
  {
    hide OrdinalFromPodName, PodNameFromOrdinal, Once, Canonical, Weight, Without, GoodReserved, DemandOn, Build,
         Below, Deficits, Claim, AfterEviction, Room, Safe, Tight;
    var b := PlainSnapshot(cfg, vpods);
    var last: nat := b.last;
    assert Below(last + 1) == Below(last) + {last};
    SumAdd(Below(last), FreeOf(b.snap), last);
    RoomIsFree(cfg, s, vpods);
    PlainSnapshotIsExact(cfg, s, vpods, last);
    NoOtherDemand(cfg, s, last);
    PlainDemand(cfg, s, last);
    EvictedDeficits(cfg, s.vpods, last, turns, s.vpods.Keys);
    EvictedVPods(cfg, s, last);
  }

  lemma EvictedVPods(cfg: Setting, s: System, last: nat)
    ensures AfterEviction(cfg, s, last).vpods == EvictedFrom(s.vpods, PodNameFromOrdinal(cfg.name, last))
  {
  }

  /** Below the last pod, the room after the eviction is what the snapshot shows as free. */
  lemma RoomIsFree(cfg: Setting, s: System, vpods: seq<VPod>)
    requires Basics(cfg, s) && Safe(cfg, s) && s.memory.reserved == map[] && ListsAll(vpods, s.vpods)
    requires 0 <= PlainSnapshot(cfg, vpods).last <= MAX_INT32
    ensures var b := PlainSnapshot(cfg, vpods);
            Room(cfg, AfterEviction(cfg, s, b.last), b.last) == SumOver(Below(b.last), FreeOf(b.snap))
  {
    hide OrdinalFromPodName, PodNameFromOrdinal, WellPlaced, GoodReserved, DemandOn, Build, Below, AfterEviction,
         Tight, ListsAll;
    var b := PlainSnapshot(cfg, vpods);
    var room := RoomFor(cfg, DemandFor(cfg, AfterEviction(cfg, s, b.last)));
    forall o: nat | o in Below(b.last) ensures FreeOf(b.snap)(o) == room(o) {
      PlainSnapshotIsExact(cfg, s, vpods, o);
      EvictionDemand(cfg, s, b.last, o);
      NoOtherDemand(cfg, s, o);
      assert DemandOn(cfg, s, o) <= cfg.capacity;
    }
    SumEqual(Below(b.last), FreeOf(b.snap), room);
  }

  lemma NoOtherDemand(cfg: Setting, s: System, o: nat)
    requires s.memory.reserved == map[]
    ensures DemandOn(cfg, s, o) == Demand(cfg.name, s.Committed(), map[], o)
  {
  }

  /** The last ordinal of the next snapshot is below a bound exactly when nothing is placed from the bound on. */
  lemma LastIsBelow(cfg: Setting, s: System, vpods: seq<VPod>, bound: nat)
    requires Basics(cfg, s) && ListsAll(vpods, s.vpods)
    requires forall k :: k in s.vpods ==> UsedOnlyBelow(s.vpods[k].placements, bound)
    ensures PlainSnapshot(cfg, vpods).last < bound
  {
    hide OrdinalFromPodName, PodNameFromOrdinal, Once, Canonical, Weight, Build;
    var b := PlainSnapshot(cfg, vpods);
    PlainSnapshotIsExact(cfg, s, vpods, 0);
    if bound <= b.last {
      var o: nat := b.last;
      PlainCounts(cfg, s, vpods, o);
      assert forall k :: k in s.vpods ==> UsedOnlyBelow(s.vpods[k].placements, bound) && CountsOn(s.vpods, o)(k) == 0;
      SumWiden({}, s.vpods.Keys, CountsOn(s.vpods, o));
      assert false;
    }
  }

  lemma LastIsAtLeast(cfg: Setting, s: System, vpods: seq<VPod>, k: Key, o: nat)
    requires Basics(cfg, s) && ListsAll(vpods, s.vpods) && k in s.vpods && o <= MAX_INT32
    requires CountAt(s.vpods[k].placements, o) > 0
    ensures o <= PlainSnapshot(cfg, vpods).last
  {
    hide OrdinalFromPodName, PodNameFromOrdinal, Once, Canonical, Weight, Build;
    PlainCounts(cfg, s, vpods, o);
    forall x | x in s.vpods ensures 0 <= CountsOn(s.vpods, o)(x) {
      CountsNonNegative(cfg.name, s.vpods[x].placements, o);
    }
    SumNonNegative(s.vpods.Keys, CountsOn(s.vpods, o));
    assert CountsOn(s.vpods, o)(k) > 0;
  }

  lemma PlainCounts(cfg: Setting, s: System, vpods: seq<VPod>, o: nat)
    requires Basics(cfg, s) && ListsAll(vpods, s.vpods) && o <= MAX_INT32
    ensures var b := PlainSnapshot(cfg, vpods);
            Tight(b) && b.snap.capacity == cfg.capacity
            && b.snap.Free(o) == cfg.capacity - SumOver(s.vpods.Keys, CountsOn(s.vpods, o))
  {
    hide OrdinalFromPodName, PodNameFromOrdinal, Once, Canonical, Weight, Build, Tight;
    var plain := s.(memory := s.memory.(reserved := map[]));
    assert plain.Committed() == s.Committed();
    PlainSnapshotIsExact(cfg, s, vpods, o);
    PlainDemand(cfg, plain, o);
    NoOtherDemand(cfg, plain, o);
  }

  /** The state in which the last pod may be compacted, and a round of turns after its eviction: MAXFILLUP, no
      reservations, no overcommitted pod, every vpod fully placed, and every evicted vpod rescheduled and committed,
      in any order. */
  ghost predicate CompactionRound(cfg: Setting, s: System, vpods: seq<VPod>, turns: seq<Turn>) {
    var b := PlainSnapshot(cfg, vpods);
    && Basics(cfg, s) && Safe(cfg, s) && s.memory.reserved == map[] && ListsAll(vpods, s.vpods) && FullyPlaced(s.vpods)
    && MayCompact(cfg, b) && b.last <= s.memory.replicas
    && RoundEnabled(cfg, AfterEviction(cfg, s, b.last), turns)
    && DistinctTurns(turns) && TurnKeys(turns) <= s.vpods.Keys && (forall i :: 0 <= i < |turns| ==> turns[i].commit)
    && (forall k :: k in s.vpods && b.last in OrdSet(s.vpods[k].placements) ==> k in TurnKeys(turns))
  }

  lemma CapacityIsPositive(cfg: Setting, s: System, vpods: seq<VPod>)
    requires Basics(cfg, s) && Safe(cfg, s) && ListsAll(vpods, s.vpods) && s.memory.reserved == map[]
    requires 0 <= PlainSnapshot(cfg, vpods).last <= MAX_INT32
    ensures 0 < cfg.capacity
  {
    hide OrdinalFromPodName, PodNameFromOrdinal, Basics, Build, DemandOn, Demand, Tight;
    var last := PlainSnapshot(cfg, vpods).last;
    PlainSnapshotIsExact(cfg, s, vpods, last);
    NoOtherDemand(cfg, s, last);
    assert DemandOn(cfg, s, last) <= cfg.capacity;
    TightLast(PlainSnapshot(cfg, vpods));
  }

  lemma LastIsBounded(cfg: Setting, s: System, vpods: seq<VPod>, turns: seq<Turn>)
    requires CompactionRound(cfg, s, vpods, turns)
    ensures 1 <= PlainSnapshot(cfg, vpods).last <= s.memory.replicas <= MAX_INT32
  {
  }

  lemma TightLast(b: Building)
    requires Tight(b) && 0 <= b.last
    ensures b.snap.Free(b.last) < b.snap.capacity
  {
  }

  /** What a compaction round always achieves: it succeeds, and every vpod is fully placed again. */
  lemma CompactionPlacesAll(cfg: Setting, s: System, vpods: seq<VPod>, turns: seq<Turn>)
    requires CompactionRound(cfg, s, vpods, turns)
    ensures var last: nat := PlainSnapshot(cfg, vpods).last;
            var s1 := AfterEviction(cfg, s, last);
            var s2 := After(cfg, s1, turns);
            && Deficits(s1.vpods, turns) <= Room(cfg, s1, last) && Basics(cfg, s1) && Basics(cfg, s2)
            && AllScheduled(cfg, s1, turns)
            && forall k :: k in s.vpods ==> k in s2.vpods && Total(s2.vpods[k].placements) == s.vpods[k].vreplicas
  {
    hide OrdinalFromPodName, PodNameFromOrdinal, Once, Canonical, Weight, Without, GoodReserved, DemandOn, Build,
         Below, Deficits, Claim, RoundEnabled, After, AllScheduled, OrdSet, Room, Safe, Deficit;
    var last: nat := PlainSnapshot(cfg, vpods).last;
    var s1 := AfterEviction(cfg, s, last);
    EvictionKeepsBasics(cfg, s, last);
    RoomForEvicted(cfg, s, vpods, turns);
    RoundFits(cfg, s1, turns, last);
    RoundCompacts(cfg, s1, turns, last);
    forall k | k in s.vpods ensures Total(After(cfg, s1, turns).vpods[k].placements) == s.vpods[k].vreplicas {
      if k !in TurnKeys(turns) {
        WithoutTotal(cfg.name, s.vpods[k].placements, last);
        CountOutside(s.vpods[k].placements, last);
      }
    }
  }

  lemma FreeMeansUnused(cfg: Setting, s: System, k: Key, bound: nat)
    requires Basics(cfg, s) && k in s.vpods && FreeFrom(cfg, s, bound)
    ensures UsedOnlyBelow(s.vpods[k].placements, bound)
  {
    hide OrdinalFromPodName, PodNameFromOrdinal, Canonical, Weight, DemandOn, WellPlaced, OrdSet;
    var ps := s.vpods[k].placements;
    forall o: nat | bound <= o ensures CountAt(ps, o) == 0 {
      if o <= MAX_INT32 {
        NoCountWithoutDemand(cfg, s, k, o);
      } else {
        if o in OrdSet(ps) { OrdSetBounded(ps, o); }
        CountOutside(ps, o);
      }
    }
  }

  lemma FreeLast(cfg: Setting, s: System, vpods: seq<VPod>, bound: nat)
    requires Basics(cfg, s) && ListsAll(vpods, s.vpods) && FreeFrom(cfg, s, bound)
    ensures PlainSnapshot(cfg, vpods).last < bound
  {
    hide OrdinalFromPodName, PodNameFromOrdinal, Basics, DemandOn, Build, UsedOnlyBelow, ListsAll;
    forall k | k in s.vpods ensures UsedOnlyBelow(s.vpods[k].placements, bound) { FreeMeansUnused(cfg, s, k, bound); }
    LastIsBelow(cfg, s, vpods, bound);
  }

  lemma RisenLast(cfg: Setting, s1: System, s2: System, vpods: seq<VPod>, last: nat, k: Key)
    requires Basics(cfg, s2) && ListsAll(vpods, s2.vpods) && k in s1.vpods && k in s2.vpods
    requires last !in OrdSet(s1.vpods[k].placements) && Rises(s1.vpods[k].placements, s2.vpods[k].placements, last)
    ensures PlainSnapshot(cfg, vpods).last > last
  {
    hide OrdinalFromPodName, PodNameFromOrdinal, Basics, Build, OrdSet, ListsAll, Weight;
    var o: nat :| last <= o && o in OrdSet(s1.vpods[k].placements) && CountAt(s2.vpods[k].placements, o) > 0;
    OrdSetBounded(s1.vpods[k].placements, o);
    LastIsAtLeast(cfg, s2, vpods, k, o);
  }

  /** Compaction, exactly: the last ordinal strictly decreases if every turn is judged to stay below it, and otherwise
      it strictly rises. */
  lemma CompactionIff(cfg: Setting, s: System, vpods: seq<VPod>, turns: seq<Turn>)
    requires CompactionRound(cfg, s, vpods, turns)
    ensures var last: nat := PlainSnapshot(cfg, vpods).last;
            var s1 := AfterEviction(cfg, s, last);
            forall vpods' :: ListsAll(vpods', After(cfg, s1, turns).vpods) ==>
              if RoundStaysBelow(cfg, s1, turns, last) then PlainSnapshot(cfg, vpods').last < last
              else PlainSnapshot(cfg, vpods').last > last
  {
    hide OrdinalFromPodName, PodNameFromOrdinal, Basics, DemandOn, Build, Deficits, After, AllScheduled, OrdSet,
         Room, Safe, RoundStaysBelow, ListsAll, Rises, FullyPlaced, RoundEnabled, TurnKeys, DistinctTurns;
    var last: nat := PlainSnapshot(cfg, vpods).last;
    var s1 := AfterEviction(cfg, s, last);
    var s2 := After(cfg, s1, turns);
    LastIsBounded(cfg, s, vpods, turns);
    CapacityIsPositive(cfg, s, vpods);
    CompactionPlacesAll(cfg, s, vpods, turns);
    EvictionFrees(cfg, s, vpods, last);
    RoundStaysBelowIff(cfg, s1, turns, last);
    forall vpods' | ListsAll(vpods', s2.vpods)
      ensures if RoundStaysBelow(cfg, s1, turns, last) then PlainSnapshot(cfg, vpods').last < last
              else PlainSnapshot(cfg, vpods').last > last
    {
      if RoundStaysBelow(cfg, s1, turns, last) {
        FreeLast(cfg, s2, vpods', last);
      } else {
        var k :| k in s1.vpods && k in s2.vpods && Rises(s1.vpods[k].placements, s2.vpods[k].placements, last);
        EvictionUsesOnly(cfg, s, last, k);
        RisenLast(cfg, s1, s2, vpods', last, k);
      }
    }
  }

  /** Compaction makes progress. If the test passes and no vpod that is rescheduled lists a pod above the last
      ordinal, then evicting the last pod and rescheduling and committing the evicted vpods, in any order, succeeds on
      lower ordinals only, and the last ordinal strictly decreases. */
  lemma CompactionProgress(cfg: Setting, s: System, vpods: seq<VPod>, turns: seq<Turn>)
    requires CompactionRound(cfg, s, vpods, turns)
    requires forall k :: k in TurnKeys(turns) ==>
            OrdSet(s.vpods[k].placements) <= Below(PlainSnapshot(cfg, vpods).last + 1)
    ensures var last: nat := PlainSnapshot(cfg, vpods).last;
            var s1 := AfterEviction(cfg, s, last);
            var s2 := After(cfg, s1, turns);
            && AllScheduled(cfg, s1, turns)
            && (forall k :: k in s.vpods ==> k in s2.vpods && Total(s2.vpods[k].placements) == s.vpods[k].vreplicas)
            && (forall k :: k in TurnKeys(turns) ==> OrdSet(s2.vpods[k].placements) <= Below(last))
            && forall vpods' :: ListsAll(vpods', s2.vpods) ==> PlainSnapshot(cfg, vpods').last < last
  {
    hide OrdinalFromPodName, PodNameFromOrdinal, Once, Canonical, Weight, Without, GoodReserved, DemandOn, Build,
         Below, Deficits, Claim, After, AllScheduled, OrdSet, Room, Safe, Deficit, RoundStaysBelow;
    var last: nat := PlainSnapshot(cfg, vpods).last;
    var s1 := AfterEviction(cfg, s, last);
    CompactionPlacesAll(cfg, s, vpods, turns);
    CompactionIff(cfg, s, vpods, turns);
    forall k | k in TurnKeys(turns) ensures OrdSet(s1.vpods[k].placements) <= Below(last) {
      EvictionUsesOnly(cfg, s, last, k);
    }
    RoundCompacts(cfg, s1, turns, last);
    ListedBelowStaysBelow(cfg, s1, turns, last);
  }
}
