/** Sizing the statefulset and compacting its last pod (pkg/common/scheduler/statefulset/autoscaler.go). */
module Autoscaling {
  import opened PodNames
  import opened Placements
  import opened Arithmetic
  import opened Sums
  import opened Snapshots
  import opened SnapshotLaws
  import opened FillUp
  import opened EvenSpread
  import opened Scheduling
  import opened SchedulerRuns

  // ----- the number of pods -----

  function NewReplicas(last: int, capacity: int, pending: int, current: int, attemptScaleDown: bool): int
    requires 0 < capacity
  {
    var ideal := last + 1 + if pending > 0 then Ceil(pending, capacity) else 0;
    var n := if ideal <= last then last + 1 else ideal;
    if !attemptScaleDown && n < current then current else n
  }

  /** What the number of pods must provide: all ordinals in use, empty pods for what is pending, and no fewer pods
      than now unless scaling down is permitted. */
  predicate Provides(n: int, last: int, capacity: int, pending: int, current: int, attemptScaleDown: bool) {
    && last + 1 <= n
    && pending <= (n - (last + 1)) * capacity
    && (!attemptScaleDown ==> current <= n)
  }

  /** The number chosen provides all this, and it is the least that does: less than one pod too many, except that the
      current number is kept where scaling down is not permitted. */
  lemma NewReplicasLaw(last: int, capacity: int, pending: int, current: int, attemptScaleDown: bool)
    requires 0 < capacity && -1 <= last
    ensures var n := NewReplicas(last, capacity, pending, current, attemptScaleDown);
            && Provides(n, last, capacity, pending, current, attemptScaleDown)
            && (forall m :: Provides(m, last, capacity, pending, current, attemptScaleDown) ==> n <= m)
            && (attemptScaleDown || n != current ==> (n - (last + 1)) * capacity < Pos(pending) + capacity)
  {
    var n := NewReplicas(last, capacity, pending, current, attemptScaleDown);
    var extra := if pending > 0 then Ceil(pending, capacity) else 0;
    if pending > 0 { CeilLaw(pending, capacity, 0); }
    MulMonotone(extra, n - (last + 1), capacity);
    forall m | Provides(m, last, capacity, pending, current, attemptScaleDown) ensures n <= m {
      if pending > 0 { CeilLaw(pending, capacity, m - (last + 1)); }
    }
    if n == last + 1 + extra && extra > 0 {
      assert (n - (last + 1)) * capacity == (extra - 1) * capacity + capacity;
    }
  }

  // ----- room -----

  function RoomFor(cfg: Setting, demand: nat -> int): nat -> int {
    (o: nat) => Pos(cfg.capacity - demand(o))
  }

  ghost function DemandFor(cfg: Setting, s: System): nat -> int {
    (o: nat) => DemandOn(cfg, s, o)
  }

  /** What the pods below a bound can still take, given what is truly claimed of them. */
  ghost function Room(cfg: Setting, s: System, bound: int): int {
    SumOver(Below(bound), RoomFor(cfg, DemandFor(cfg, s)))
  }

  function Deficit(vpod: VPod): int {
    Pos(vpod.vreplicas - Total(vpod.placements))
  }

  /** A vpod's turn: it is rescheduled, and the result is committed at once or left reserved. */
  datatype Turn = Turn(key: Key, world: World, commit: bool)

  ghost predicate TurnEnabled(cfg: Setting, s: System, t: Turn) {
    t.key in s.vpods && 0 <= s.vpods[t.key].vreplicas && Shown(cfg, s, t.world) && t.world.vpods.Some?
  }

  ghost function TurnOutcome(cfg: Setting, s: System, t: Turn): Outcome
    requires TurnEnabled(cfg, s, t)
  {
    Schedule(cfg, s.memory, s.vpods[t.key], t.world).1
  }

  ghost function Take(cfg: Setting, s: System, t: Turn): System
    requires TurnEnabled(cfg, s, t)
  {
    var s1 := Apply(cfg, s, Reschedule(t.key, t.world));
    if t.commit && t.key in s1.latest then Apply(cfg, s1, Commit(t.key)) else s1
  }

  lemma TakeShape(cfg: Setting, s: System, t: Turn)
    requires cfg.policy.MAXFILLUP? && Basics(cfg, s) && TurnEnabled(cfg, s, t)
    ensures var out, s' := TurnOutcome(cfg, s, t), Take(cfg, s, t);
            && Basics(cfg, s') && !out.Unavailable? && WellPlaced(cfg.name, out.placements)
            && s'.memory == Schedule(cfg, s.memory, s.vpods[t.key], t.world).0
            && s'.memory.replicas == s.memory.replicas
            && s'.vpods == (if t.commit then s.vpods[t.key := s.vpods[t.key].(placements := out.placements)]
               else s.vpods)
  {
    hide OrdinalFromPodName, PodNameFromOrdinal, Schedule, GoodReserved, WellPlaced, Demand, Claim, Pruned,
         Enumerates, Zones, Shown, StrictlyOrdered, Weight, WellCalled;
    ShownIsWellCalled(cfg, s, t.key, t.world);
    ScheduleLaw(cfg, s.memory, s.vpods[t.key], t.world);
    ScheduleDemand(cfg, s, t.key, t.world, 0);
  }

  /** What a turn leaves behind: demand on a pod grows by no more than the vpod's own count there. */
  lemma TakeLaw(cfg: Setting, s: System, t: Turn, o: nat)
    requires cfg.policy.MAXFILLUP? && Basics(cfg, s) && TurnEnabled(cfg, s, t) && o <= MAX_INT32
    ensures var out, s' := TurnOutcome(cfg, s, t), Take(cfg, s, t);
            && Basics(cfg, s') && !out.Unavailable? && WellPlaced(cfg.name, out.placements)
            && s'.memory.replicas == s.memory.replicas
            && s'.vpods == (if t.commit then s.vpods[t.key := s.vpods[t.key].(placements := out.placements)]
               else s.vpods)
            && DemandOn(cfg, s', o)
               <= DemandOn(cfg, s, o) + Pos(CountAt(out.placements, o) - CountAt(s.vpods[t.key].placements, o))
  {
    hide OrdinalFromPodName, PodNameFromOrdinal, Canonical, Weight, Demand, Schedule, GoodReserved, WellPlaced,
         Claim, Pruned, Enumerates, Zones, Take, Basics, Shown, ListsAll;
    var out, s' := TurnOutcome(cfg, s, t), Take(cfg, s, t);
    TakeShape(cfg, s, t);
    ScheduleDemand(cfg, s, t.key, t.world, o);
    if t.commit {
      assert s'.Committed() == s.Committed()[t.key := out.placements];
      var s1 := s.(memory := s'.memory);
      assert Basics(cfg, s1) by { SameBasics(cfg, s, s'); }
      assert s1.Committed() == s.Committed();
      CommitDemand(cfg, s1, t.key, out.placements, o);
    } else {
      assert s'.Committed() == s.Committed();
    }
  }

  lemma SameBasics(cfg: Setting, s: System, s': System)
    requires Basics(cfg, s) && Basics(cfg, s')
    ensures Basics(cfg, s.(memory := s'.memory))
  {
  }

  /** Committing placements the vpod already claims raises no demand. */
  lemma CommitDemand(cfg: Setting, s: System, key: Key, ps: seq<Placement>, o: nat)
    requires Basics(cfg, s) && key in s.vpods && WellPlaced(cfg.name, ps) && o <= MAX_INT32
    requires CountAt(ps, o) <= Claim(cfg.name, s.Committed(), s.memory.reserved, key, o)
    ensures Demand(cfg.name, s.Committed()[key := ps], s.memory.reserved, o)
            <= Demand(cfg.name, s.Committed(), s.memory.reserved, o)
  {
    hide OrdinalFromPodName, PodNameFromOrdinal, Canonical, Weight;
    var committed, committed' := s.Committed(), s.Committed()[key := ps];
    forall k: Key
      ensures 0 <= Claim(cfg.name, committed', s.memory.reserved, k, o)
              <= Claim(cfg.name, committed, s.memory.reserved, k, o)
    {
      ClaimNonNegative(cfg, s, k, o);
      CountsNonNegative(cfg.name, ps, o);
    }
    DemandFalls(cfg.name, committed, committed', s.memory.reserved, o);
  }

  /** The snapshot shows at least the room that is truly there. */
  lemma SnapshotShowsRoom(cfg: Setting, s: System, w: World, bound: nat)
    requires Basics(cfg, s) && Shown(cfg, s, w) && w.vpods.Some? && bound <= MAX_INT32
    ensures Room(cfg, s, bound)
         <= SumOver(Below(bound), RoomOf(Build(cfg.capacity, w.vpods.value, s.memory.reserved, w.order).snap))
  {
    hide OrdinalFromPodName, PodNameFromOrdinal, Canonical, Weight, Demand, Build, WellPlaced, Below, Enumerates;
    ListingCommitted(w.vpods.value, s);
    var snap := Build(cfg.capacity, w.vpods.value, s.memory.reserved, w.order).snap;
    forall o: nat | o in Below(bound) ensures RoomFor(cfg, DemandFor(cfg, s))(o) <= RoomOf(snap)(o) {
      SnapshotRefinesDemand(cfg.name, cfg.capacity, w.vpods.value, s.memory.reserved, w.order, o);
    }
    SumMonotone(Below(bound), RoomFor(cfg, DemandFor(cfg, s)), RoomOf(snap));
  }

  lemma ShrunkOrdSet(before: seq<Placement>, after: seq<Placement>)
    requires forall o: nat :: ShrinksAt(before, after, o)
    ensures OrdSet(after) <= OrdSet(before)
  {
    hide OrdinalFromPodName, Weight;
    forall i | 0 <= i < |after| ensures Ord(after[i]) in OrdSet(before) {
      EntryIsListed(after, i);
      assert ShrinksAt(before, after, Ord(after[i]));
      ListedSomewhere(before, Ord(after[i]));
    }
  }

  function Growth(ps: seq<Placement>, qs: seq<Placement>): nat -> int {
    (o: nat) => Pos(CountAt(qs, o) - CountAt(ps, o))
  }

  /** Where counts only grow, the growth below a bound is at most the growth of the total. */
  lemma GrowthIsBounded(ps: seq<Placement>, qs: seq<Placement>, bound: nat)
    requires forall o: nat :: CountAt(ps, o) <= CountAt(qs, o)
    ensures SumOver(Below(bound), Growth(ps, qs)) <= Total(qs) - Total(ps)
  {
    hide OrdinalFromPodName, Weight, Below;
    var all := OrdSet(ps) + OrdSet(qs) + Below(bound);
    assert forall i :: 0 <= i < |ps| ==> Ord(ps[i]) in OrdSet(ps);
    assert forall i :: 0 <= i < |qs| ==> Ord(qs[i]) in OrdSet(qs);
    SumOfCounts(ps, all);
    SumOfCounts(qs, all);
    SumPlus(all, (o: nat) => CountAt(ps, o), Growth(ps, qs), (o: nat) => CountAt(qs, o));
    SumSubset(Below(bound), all, Growth(ps, qs));
  }

  lemma {:induction false} GrowthIsNothing(ps: seq<Placement>, qs: seq<Placement>, s: set<nat>)
    requires forall o: nat :: CountAt(qs, o) <= CountAt(ps, o)
    ensures SumOver(s, Growth(ps, qs)) == 0
  {
    hide OrdinalFromPodName, Weight;
    SumWiden({}, s, Growth(ps, qs));
  }

  /** A turn uses no more room below the bound than the vpod's deficit. */
  lemma TurnUsesDeficit(cfg: Setting, s: System, t: Turn, bound: nat)
    requires cfg.policy.MAXFILLUP? && Basics(cfg, s) && TurnEnabled(cfg, s, t) && bound <= s.memory.replicas
    ensures Room(cfg, Take(cfg, s, t), bound) >= Room(cfg, s, bound) - Deficit(s.vpods[t.key])
  {
    hide OrdinalFromPodName, PodNameFromOrdinal, Canonical, Weight, Demand, Schedule, WellPlaced, Below, Pruned,
         Enumerates, GoodReserved, Zones, Take;
    var vpod, out, s' := s.vpods[t.key], TurnOutcome(cfg, s, t), Take(cfg, s, t);
    var ps := vpod.placements;
    ShownIsWellCalled(cfg, s, t.key, t.world);
    ScheduleLaw(cfg, s.memory, vpod, t.world);
    if Total(ps) < vpod.vreplicas {
      GrowthIsBounded(ps, out.placements, bound);
      assert Total(out.placements) <= vpod.vreplicas;
    } else {
      GrowthIsNothing(ps, out.placements, Below(bound));
    }
    var before, after := RoomFor(cfg, DemandFor(cfg, s)), RoomFor(cfg, DemandFor(cfg, s'));
    var both := (o: nat) => after(o) + Growth(ps, out.placements)(o);
    forall o: nat | o in Below(bound) ensures before(o) <= both(o) {
      TakeLaw(cfg, s, t, o);
    }
    SumMonotone(Below(bound), before, both);
    SumPlus(Below(bound), after, Growth(ps, out.placements), both);
  }

  /** The allocation behind a turn: nothing is left over, and a vpod using only pods below the bound still does. */
  lemma TurnPlaces(cfg: Setting, replicas: int, snap: Snapshot, vpod: VPod, c: Cluster, bound: nat)
    requires cfg.policy.MAXFILLUP? && 0 <= vpod.vreplicas && WellPlaced(cfg.name, vpod.placements)
    requires bound <= replicas <= MAX_INT32 && Deficit(vpod) <= SumOver(Below(bound), RoomOf(snap))
    ensures var a := Rearrange(cfg, 0, c, replicas, snap, vpod);
            && a.left == 0 && Total(a.placed) == vpod.vreplicas
            && (OrdSet(vpod.placements) <= Below(bound) ==> OrdSet(a.placed) <= Below(bound))
  {
    hide OrdinalFromPodName, PodNameFromOrdinal, Canonical, Weight, Once, Below, RemoveReplicas, AddReplicas, OrdSet;
    var ps, v, name := vpod.placements, vpod.vreplicas, cfg.name;
    var a := Rearrange(cfg, 0, c, replicas, snap, vpod);
    RearrangeLaw(cfg, 0, c, replicas, snap, vpod);
    if Total(ps) < v {
      AddReplicasClosedForm(snap, name, replicas, v - Total(ps), ps);
      SumSubset(Below(bound), OrdSet(ps) + Below(replicas), RoomOf(snap));
      if OrdSet(ps) <= Below(bound) { AddReplicasStaysBelow(snap, name, replicas, v - Total(ps), ps, bound); }
    } else if Total(ps) > v {
      RemoveReplicasLaw(name, Total(ps) - v, ps);
      ShrunkOrdSet(ps, a.placed);
    }
  }

  /** A vpod whose deficit fits the room below the bound is fully placed, and the room shrinks by no more than the
      deficit. If it uses only pods below the bound, it still does. */
  lemma TurnFits(cfg: Setting, s: System, t: Turn, bound: nat)
    requires cfg.policy.MAXFILLUP? && Basics(cfg, s) && TurnEnabled(cfg, s, t)
    requires bound <= s.memory.replicas && Deficit(s.vpods[t.key]) <= Room(cfg, s, bound)
    ensures var vpod, out := s.vpods[t.key], TurnOutcome(cfg, s, t);
            && out.Scheduled? && Total(out.placements) == vpod.vreplicas
            && Room(cfg, Take(cfg, s, t), bound) >= Room(cfg, s, bound) - Deficit(vpod)
            && (OrdSet(vpod.placements) <= Below(bound) ==> OrdSet(out.placements) <= Below(bound))
  {
    hide OrdinalFromPodName, PodNameFromOrdinal, Canonical, Weight, Demand, Build, WellPlaced, Below, Enumerates,
         Rearrange, SortByOrdinal, Reserve, OrdSet, GoodReserved, Room, Take, Deficit;
    var vpod, w := s.vpods[t.key], t.world;
    var snap := Build(cfg.capacity, w.vpods.value, s.memory.reserved, w.order).snap;
    var a := Rearrange(cfg, 0, Zones(cfg, w).1, s.memory.replicas, snap, vpod);
    SnapshotShowsRoom(cfg, s, w, bound);
    TurnPlaces(cfg, s.memory.replicas, snap, vpod, Zones(cfg, w).1, bound);
    assert TurnOutcome(cfg, s, t) == Scheduled(SortByOrdinal(a.placed));
    SortedOrdSet(a.placed);
    SortKeepsWeight(a.placed, Replicas());
    TurnUsesDeficit(cfg, s, t, bound);
  }

  lemma SortedOrdSet(ps: seq<Placement>)
    ensures OrdSet(SortByOrdinal(ps)) <= OrdSet(ps)
  {
    hide OrdinalFromPodName, SortByOrdinal;
    SortOrders(ps);
    var r := SortByOrdinal(ps);
    forall i | 0 <= i < |r| ensures Ord(r[i]) in OrdSet(ps) {
      assert r[i] in r;
      var j :| 0 <= j < |ps| && ps[j] == r[i];
      assert Ord(ps[j]) in OrdSet(ps);
    }
  }

  // ----- rounds of turns -----

  ghost predicate RoundEnabled(cfg: Setting, s: System, turns: seq<Turn>)
    decreases turns
  {
    turns != [] ==> TurnEnabled(cfg, s, turns[0]) && RoundEnabled(cfg, Take(cfg, s, turns[0]), turns[1..])
  }

  ghost function After(cfg: Setting, s: System, turns: seq<Turn>): System
    requires RoundEnabled(cfg, s, turns)
    decreases turns
  {
    if turns == [] then s else After(cfg, Take(cfg, s, turns[0]), turns[1..])
  }

  ghost predicate AllScheduled(cfg: Setting, s: System, turns: seq<Turn>)
    requires RoundEnabled(cfg, s, turns)
    decreases turns
  {
    turns != [] ==> TurnOutcome(cfg, s, turns[0]).Scheduled? && AllScheduled(cfg, Take(cfg, s, turns[0]), turns[1..])
  }

  predicate DistinctTurns(turns: seq<Turn>) {
    forall i, j :: 0 <= i < j < |turns| ==> turns[i].key != turns[j].key
  }

  function Deficits(vpods: map<Key, VPod>, turns: seq<Turn>): int {
    if turns == [] then 0
    else (if turns[0].key in vpods then Deficit(vpods[turns[0].key]) else 0) + Deficits(vpods, turns[1..])
  }

  lemma {:induction false} DeficitsElsewhere(vpods: map<Key, VPod>, vpods': map<Key, VPod>, turns: seq<Turn>)
    requires vpods.Keys == vpods'.Keys
    requires forall i :: 0 <= i < |turns| && turns[i].key in vpods ==> vpods[turns[i].key] == vpods'[turns[i].key]
    ensures Deficits(vpods, turns) == Deficits(vpods', turns)
  {
    if turns != [] { DeficitsElsewhere(vpods, vpods', turns[1..]); }
  }

  lemma {:induction false} DeficitsNonNegative(vpods: map<Key, VPod>, turns: seq<Turn>)
    ensures 0 <= Deficits(vpods, turns)
  {
    if turns != [] { DeficitsNonNegative(vpods, turns[1..]); }
  }

  /** Vpods whose deficits together fit the room below the bound are all fully placed, in whatever order they take
      their turn and whether or not results are committed in between. */
  lemma {:induction false} RoundFits(cfg: Setting, s: System, turns: seq<Turn>, bound: nat)
    requires cfg.policy.MAXFILLUP? && Basics(cfg, s) && RoundEnabled(cfg, s, turns) && DistinctTurns(turns)
    requires bound <= s.memory.replicas && Deficits(s.vpods, turns) <= Room(cfg, s, bound)
    ensures AllScheduled(cfg, s, turns) && Basics(cfg, After(cfg, s, turns))
    decreases turns
  {
    hide OrdinalFromPodName, PodNameFromOrdinal, Canonical, Weight, Demand, Schedule, WellPlaced, Below, Basics,
         Room, TurnEnabled, Take, TurnOutcome;
    if turns != [] {
      var t, s' := turns[0], Take(cfg, s, turns[0]);
      DeficitsNonNegative(s.vpods, turns[1..]);
      assert t.key in s.vpods by { EnabledKey(cfg, s, t); }
      TurnFits(cfg, s, t, bound);
      TakeLaw(cfg, s, t, 0);
      DeficitsElsewhere(s.vpods, s'.vpods, turns[1..]);
      RoundFits(cfg, s', turns[1..], bound);
    }
  }

  lemma EnabledKey(cfg: Setting, s: System, t: Turn)
    requires TurnEnabled(cfg, s, t)
    ensures t.key in s.vpods
  {
  }

  // ----- autoscaling is sufficient -----

  /** The autoscaler's own snapshot, which knows no reservations. */
  function PlainSnapshot(cfg: Setting, vpods: seq<VPod>): Building {
    Build(cfg.capacity, vpods, map[], [])
  }

  lemma {:induction false} NoReservations(capacity: int, vpods: seq<VPod>)
    ensures Pruned(capacity, vpods, map[]) == map[]
    ensures Enumerates([], Pruned(capacity, vpods, map[]))
  {
    hide OrdinalFromPodName;
    StaysWithout(Empty(capacity, map[]), vpods);
  }

  lemma {:induction false} StaysWithout(b: Building, vpods: seq<VPod>)
    requires b.reserved == map[]
    ensures AccountVPods(b, vpods).reserved == map[]
    decreases vpods
  {
    hide OrdinalFromPodName;
    if vpods != [] {
      PlacementsStayWithout(b, vpods[0].key, vpods[0].placements);
      StaysWithout(AccountPlacements(b, vpods[0].key, vpods[0].placements), vpods[1..]);
    }
  }

  lemma {:induction false} PlacementsStayWithout(b: Building, key: Key, ps: seq<Placement>)
    requires b.reserved == map[]
    ensures AccountPlacements(b, key, ps).reserved == map[]
    decreases ps
  {
    hide OrdinalFromPodName;
    if ps != [] { PlacementsStayWithout(AccountPlacement(b, key, ps[0]), key, ps[1..]); }
  }

  /** What the plain snapshot shows is the committed demand, exactly. */
  lemma PlainSnapshotIsExact(cfg: Setting, s: System, vpods: seq<VPod>, o: nat)
    requires Basics(cfg, s) && ListsAll(vpods, s.vpods) && o <= MAX_INT32
    ensures var b := PlainSnapshot(cfg, vpods);
            && Tight(b) && b.snap.capacity == cfg.capacity
            && b.snap.Free(o) == cfg.capacity - Demand(cfg.name, s.Committed(), map[], o)
  {
    hide OrdinalFromPodName, PodNameFromOrdinal, WellPlaced, Demand, Tight, Build, Pruned;
    NoReservations(cfg.capacity, vpods);
    ListingCommitted(vpods, s);
    SnapshotRefinesDemand(cfg.name, cfg.capacity, vpods, map[], [], o);
  }

  lemma {:induction false} RoomAbove(f: nat -> int, m: nat, n: int, c: nat)
    requires forall o: nat :: 0 <= f(o) && (m <= o < n ==> f(o) == c)
    ensures SumOver(Below(n), f) >= (n - m) * c
    decreases n
  {
    if n > m {
      RoomAbove(f, m, n - 1, c);
      SumAdd<nat>(Below(n - 1), f, n - 1);
      assert (n - m) * c == (n - 1 - m) * c + c;
    } else {
      SumNonNegative(Below(n), f);
      MulMonotone(n - m, 0, c);
    }
  }

  /** Autoscaling is sufficient: with the number of pods the autoscaler chooses, all vpods whose deficits add up to at
      most what it was told is pending are fully placed, in any order, as long as no reservation lies beyond what it
      sees. */
  lemma AutoscalingSuffices(
    cfg: Setting, s: System, vpods: seq<VPod>, pending: int, current: int, attemptScaleDown: bool, turns: seq<Turn>)
    requires cfg.policy.MAXFILLUP? && 0 < cfg.capacity && Basics(cfg, s) && ListsAll(vpods, s.vpods)
    requires s.memory.replicas
            == NewReplicas(PlainSnapshot(cfg, vpods).last, cfg.capacity, pending, current, attemptScaleDown)
    requires forall o: nat :: PlainSnapshot(cfg, vpods).last < o <= MAX_INT32 ==> DemandOn(cfg, s, o) == 0
    requires RoundEnabled(cfg, s, turns) && DistinctTurns(turns) && Deficits(s.vpods, turns) <= pending
    ensures AllScheduled(cfg, s, turns)
  {
    hide OrdinalFromPodName, PodNameFromOrdinal, WellPlaced, Demand, Build, AllScheduled, RoundEnabled, Below, Deficits;
    var last, n := PlainSnapshot(cfg, vpods).last, s.memory.replicas;
    PlainSnapshotIsExact(cfg, s, vpods, 0);
    NewReplicasLaw(last, cfg.capacity, pending, current, attemptScaleDown);
    var f := (o: nat) => if o < n then RoomFor(cfg, DemandFor(cfg, s))(o) else 0;
    forall o: nat ensures 0 <= f(o) && (last + 1 <= o < n ==> f(o) == cfg.capacity) {
      assert RoomFor(cfg, DemandFor(cfg, s))(o) == Pos(cfg.capacity - DemandOn(cfg, s, o));
      assert last < o <= MAX_INT32 ==> DemandOn(cfg, s, o) == 0;
    }
    RoomAbove(f, last + 1, n, cfg.capacity);
    SumEqual(Below(n), f, RoomFor(cfg, DemandFor(cfg, s)));
    RoundFits(cfg, s, turns, n);
  }

  /** Without reservations the scheduler and the autoscaler see the same. */
  lemma SameSightWithoutReservations(cfg: Setting, s: System, vpods: seq<VPod>, o: nat)
    requires Basics(cfg, s) && ListsAll(vpods, s.vpods) && s.memory.reserved == map[]
    requires PlainSnapshot(cfg, vpods).last < o <= MAX_INT32
    ensures DemandOn(cfg, s, o) == 0
  {
    hide OrdinalFromPodName, PodNameFromOrdinal, WellPlaced, Demand, Build;
    PlainSnapshotIsExact(cfg, s, vpods, o);
  }
}
