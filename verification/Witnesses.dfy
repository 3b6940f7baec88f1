/** Inputs showing that the side conditions of the scheduler's guarantees are needed, and that they can be met. */
module Witnesses {
  import opened Options
  import opened PodNames
  import opened Placements
  import opened Arithmetic
  import opened Sums
  import opened Sequences
  import opened Snapshots
  import opened SnapshotLaws
  import opened FillUp
  import opened EvenSpread
  import opened Scheduling
  import opened SchedulerRuns
  import opened Autoscaling
  import opened Compaction

  function On(name: string, o: nat, n: int): Placement {
    Placement(PodNameFromOrdinal(name, o), "", n)
  }

  // ----- a reservation skipped by the early end of the run over a key -----

  function Cfg(name: string): Setting { Setting(name, 10, MAXFILLUP) }

  /** Vpod a holds 5 of the 15 replicas it wants, vpod b none of its 10; there are two pods of capacity 10. */
  function Start(name: string, a: Key, b: Key): System
    requires a != b
  {
    System(map[a := VPod(a, 15, [On(name, 0, 5)]), b := VPod(b, 10, [])], Memory(2, map[], map[]), map[])
  }

  function List(name: string, a: Key, b: Key): seq<VPod> {
    [VPod(a, 15, [On(name, 0, 5)]), VPod(b, 10, [])]
  }

  function First(name: string, a: Key, b: Key): Step {
    Reschedule(a, World(Some(List(name, a, b)), [], None, map[]))
  }

  /** What scheduling a reserves: more than is committed on pod 0, and something on pod 1 where nothing is committed. */
  function ReservedByA(name: string, a: Key): Reserved {
    map[a := map[PodNameFromOrdinal(name, 0) := 10, PodNameFromOrdinal(name, 1) := 5]]
  }

  function Second(name: string, a: Key, b: Key): Step {
    var visit := Visit(a, [PodNameFromOrdinal(name, 0), PodNameFromOrdinal(name, 1)]);
    Reschedule(b, World(Some(List(name, a, b)), [visit], None, map[]))
  }

  lemma Names(name: string)
    ensures OrdinalFromPodName(PodNameFromOrdinal(name, 0)) == 0
    ensures OrdinalFromPodName(PodNameFromOrdinal(name, 1)) == 1
    ensures PodNameFromOrdinal(name, 0) != PodNameFromOrdinal(name, 1)
  {
    hide OrdinalFromPodName, PodNameFromOrdinal;
    OrdinalRoundTrip(name, 0);
    OrdinalRoundTrip(name, 1);
  }

  /** With 5 taken on pod 0, the missing 10 go to pod 0 up to its capacity and then to pod 1. */
  lemma FirstAllocation(name: string)
    ensures AddReplicas(Snapshot([5], 10), name, 2, 10, [On(name, 0, 5)]).placed == [On(name, 0, 10), On(name, 1, 5)]
    ensures AddReplicas(Snapshot([5], 10), name, 2, 10, [On(name, 0, 5)]).left == 0
  {
    hide OrdinalFromPodName, PodNameFromOrdinal;
    Names(name);
    var ps := [On(name, 0, 5)];
    var a0 := Alloc(Snapshot([5], 10), [], 10);
    var a1 := FillOne(a0, ps[0]);
    assert ps[1..] == [];
    assert FillExisting(a0, ps) == FillExisting(a1, []) == a1;
    assert a1.snap.Free(0) == 0 && a1.snap.Free(1) == 10 && a1.left == 5 && a1.placed == [On(name, 0, 10)];
    assert FillNewOne(a1, name, 0) == a1;
    var a2 := FillNewOne(a1, name, 1);
    assert a2.left == 0 && a2.placed == [On(name, 0, 10), On(name, 1, 5)];
    assert FillNew(a1, name, 1, 2) == a2;
    assert FillNew(a1, name, 0, 2) == a2;
  }

  /** With pod 0 full and pod 1 seemingly empty, all 10 go to pod 1. */
  lemma SecondAllocation(name: string)
    ensures AddReplicas(Snapshot([0], 10), name, 2, 10, []).placed == [On(name, 1, 10)]
    ensures AddReplicas(Snapshot([0], 10), name, 2, 10, []).left == 0
  {
    hide OrdinalFromPodName, PodNameFromOrdinal;
    Names(name);
    var a0 := Alloc(Snapshot([0], 10), [], 10);
    assert FillExisting(a0, []) == a0;
    assert a0.snap.Free(0) == 0 && a0.snap.Free(1) == 10;
    assert FillNewOne(a0, name, 0) == a0;
    var a1 := FillNewOne(a0, name, 1);
    assert a1.placed == [On(name, 1, 10)] && a1.left == 0;
    assert FillNew(a0, name, 1, 2) == a1;
    assert FillNew(a0, name, 0, 2) == a1;
  }

  lemma ListSteps(name: string, a: Key, b: Key, b0: Building)
    ensures AccountVPods(b0, List(name, a, b)) == AccountPlacement(b0, a, On(name, 0, 5))
  {
    hide OrdinalFromPodName, PodNameFromOrdinal, AccountPlacement;
    var list := List(name, a, b);
    var ps := [On(name, 0, 5)];
    assert ps[1..] == [];
    var b1 := AccountPlacement(b0, a, On(name, 0, 5));
    assert AccountPlacements(b0, a, ps) == AccountPlacements(b1, a, []) == b1;
    assert list[1..] == [VPod(b, 10, [])] && list[1..][1..] == [];
    assert AccountVPods(b1, list[1..]) == AccountVPods(AccountPlacements(b1, b, []), []) == b1;
  }

  lemma FirstSnapshot(name: string, a: Key, b: Key)
    requires a != b
    ensures AccountVPods(Empty(10, map[]), List(name, a, b)) == Building(Snapshot([5], 10), 0, map[])
  {
    hide OrdinalFromPodName, PodNameFromOrdinal;
    Names(name);
    ListSteps(name, a, b, Empty(10, map[]));
    assert Grow([], 0, 10) == [10];
  }

  /** The second snapshot misses what is reserved on pod 1. */
  lemma SecondSnapshot(name: string, a: Key, b: Key)
    requires a != b
    ensures var reserved, order := ReservedByA(name, a), Second(name, a, b).world.order;
            && AccountVPods(Empty(10, reserved), List(name, a, b)) == Building(Snapshot([0], 10), 0, reserved)
            && Enumerates(order, reserved)
            && AccountReserved(Building(Snapshot([0], 10), 0, reserved), CommittedOf(List(name, a, b)), order)
               == Building(Snapshot([0], 10), 0, reserved)
  {
    hide OrdinalFromPodName, PodNameFromOrdinal;
    Names(name);
    var reserved, order := ReservedByA(name, a), Second(name, a, b).world.order;
    var n0, n1 := PodNameFromOrdinal(name, 0), PodNameFromOrdinal(name, 1);
    ListSteps(name, a, b, Empty(10, reserved));
    assert Grow([], 0, 10) == [10];
    assert order[0].pods[0] == n0 && order[0].pods[1] == n1;
    assert Elements(order[0].pods) == {n0, n1} by {
      assert forall x :: x in Elements(order[0].pods) <==> x == n0 || x == n1;
    }
    assert reserved[a].Keys == {n0, n1};
    assert VisitSet(order) == {a} == reserved.Keys;
    var committed := CommittedOf(List(name, a, b));
    CommittedOfAgrees(List(name, a, b));
    assert List(name, a, b)[0].key in committed && committed[a] == [On(name, 0, 5)];
    assert PodSet(committed[a]) == {n0};
    var b1 := Building(Snapshot([0], 10), 0, reserved);
    assert AccountPods(b1, PlacedFor(committed, a), reserved[a], order[0].pods) == b1;
    assert order[1..] == [];
  }

  lemma StartIsFine(name: string, a: Key, b: Key)
    requires a != b
    ensures Inv(Cfg(name), Start(name, a, b)) && ListsAll(List(name, a, b), Start(name, a, b).vpods)
  {
    hide OrdinalFromPodName, PodNameFromOrdinal;
    var s, list := Start(name, a, b), List(name, a, b);
    Names(name);
    assert KeySet(list) == {a, b} by {
      assert list[0].key == a && list[1].key == b;
      assert forall k :: k in KeySet(list) <==> k == a || k == b;
    }
    assert s.vpods.Keys == {a, b};
    var ps := [On(name, 0, 5)];
    forall o: nat ensures Listings(ps, o) <= 1 && Listings([], o) == 0 {
      WeightOne(ps[0], ListedOn(o));
    }
    forall o: nat ensures DemandOn(Cfg(name), s, o) <= 10 {
      StartDemand(name, a, b, o);
    }
  }

  lemma StartDemand(name: string, a: Key, b: Key, o: nat)
    requires a != b
    ensures DemandOn(Cfg(name), Start(name, a, b), o) <= 5
  {
    hide OrdinalFromPodName, PodNameFromOrdinal;
    var s := Start(name, a, b);
    var claims := Claims(name, s.Committed(), s.memory.reserved, o);
    WeightOne(On(name, 0, 5), OnOrdinal(o));
    assert s.Committed().Keys + s.memory.reserved.Keys == {b} + {a};
    SumAdd({b}, claims, a);
    SumAdd({}, claims, b);
    assert {} + {b} == {b};
  }

  /** Scheduling a reserves replicas on both pods. */
  lemma FirstResult(name: string, a: Key, b: Key)
    requires a != b
    ensures var cfg, s, step := Cfg(name), Start(name, a, b), First(name, a, b);
            && Enabled(cfg, s, step) && Clean(cfg, s, step)
            && Apply(cfg, s, step).vpods == s.vpods
            && Apply(cfg, s, step).memory == Memory(2, map[], ReservedByA(name, a))
  {
    hide OrdinalFromPodName, PodNameFromOrdinal, AccountVPods, AddReplicas, Inv;
    var cfg, s, step := Cfg(name), Start(name, a, b), First(name, a, b);
    StartIsFine(name, a, b);
    FirstSnapshot(name, a, b);
    FirstAllocation(name);
    Names(name);
    var w, vpod := step.world, s.vpods[a];
    assert Pruned(10, w.vpods.value, map[]) == map[];
    WeightOne(vpod.placements[0], Replicas());
    assert Total(vpod.placements) == 5;
    var result := [On(name, 0, 10), On(name, 1, 5)];
    assert SortByOrdinal(result) == result by {
      assert result[1..] == [On(name, 1, 5)] && result[1..][1..] == [];
      assert SortByOrdinal(result[1..]) == InsertByOrdinal(On(name, 1, 5), []) == [On(name, 1, 5)];
    }
    assert Reserve(map[], a, vpod.placements, result) == ReservedByA(name, a) by { FirstReservation(name, a); }
    var none: map<Key, int> := map[];
    assert none - {a} == none;
  }

  lemma FirstReservation(name: string, a: Key)
    ensures Reserve(map[], a, [On(name, 0, 5)], [On(name, 0, 10), On(name, 1, 5)]) == ReservedByA(name, a)
  {
    hide OrdinalFromPodName, PodNameFromOrdinal;
    Names(name);
    var existing, result := [On(name, 0, 5)], [On(name, 0, 10), On(name, 1, 5)];
    assert existing[1..] == [];
    assert Find(existing, PodNameFromOrdinal(name, 1)) == Find([], PodNameFromOrdinal(name, 1)) == None;
    var r1 := ReserveOne(map[], a, existing, result[0]);
    var r2 := ReserveOne(r1, a, existing, result[1]);
    assert result[1..] == [On(name, 1, 5)] && result[1..][1..] == [];
    assert Reserve(r1, a, existing, result[1..]) == Reserve(r2, a, existing, []) == r2;
  }

  /** Scheduling b then fills pod 1, although 5 of it are reserved for a: the pod is promised 15 of its 10. */
  lemma OvercommitRun(name: string, a: Key, b: Key)
    requires a != b
    ensures var cfg, s := Cfg(name), Start(name, a, b);
            && Inv(cfg, s) && Enabled(cfg, s, First(name, a, b)) && Clean(cfg, s, First(name, a, b))
            && var s1 := Apply(cfg, s, First(name, a, b));
            && Enabled(cfg, s1, Second(name, a, b))
            && Mixed(s1.Committed(), s1.memory.reserved, a)
            && DemandOn(cfg, Apply(cfg, s1, Second(name, a, b)), 1) == 15 > cfg.capacity
  {
    hide OrdinalFromPodName, PodNameFromOrdinal, AccountVPods, AccountReserved, AddReplicas, Inv, Claim, Enumerates;
    var cfg, s := Cfg(name), Start(name, a, b);
    StartIsFine(name, a, b);
    FirstResult(name, a, b);
    var s1, step := Apply(cfg, s, First(name, a, b)), Second(name, a, b);
    var reserved, w := ReservedByA(name, a), step.world;
    SecondSnapshot(name, a, b);
    SecondAllocation(name);
    Names(name);
    assert Enabled(cfg, s1, step);
    var result := [On(name, 1, 10)];
    assert result[1..] == [];
    assert SortByOrdinal(result) == InsertByOrdinal(result[0], []) == result;
    var after := Reserve(reserved, b, [], result);
    assert after == Reserve(ReserveOne(reserved, b, [], result[0]), b, [], [])
           == reserved[b := map[PodNameFromOrdinal(name, 1) := 10]];
    assert Apply(cfg, s1, step).memory.reserved == after;
    MixedAtA(name, a, b);
    FinalDemand(name, a, b);
  }

  lemma MixedAtA(name: string, a: Key, b: Key)
    requires a != b
    ensures Mixed(Start(name, a, b).Committed(), ReservedByA(name, a), a)
  {
    hide OrdinalFromPodName, PodNameFromOrdinal;
    Names(name);
    var committed := Start(name, a, b).Committed();
    assert committed[a] == [On(name, 0, 5)];
    assert PodSet(committed[a]) == {PodNameFromOrdinal(name, 0)} by {
      assert committed[a][0].podName == PodNameFromOrdinal(name, 0);
      assert forall x :: x in PodSet(committed[a]) <==> x == PodNameFromOrdinal(name, 0);
    }
    assert PodNameFromOrdinal(name, 0) in ReservedByA(name, a)[a]
           && PodNameFromOrdinal(name, 1) in ReservedByA(name, a)[a];
  }

  lemma FinalDemand(name: string, a: Key, b: Key)
    requires a != b
    ensures Demand(name, Start(name, a, b).Committed(),
            ReservedByA(name, a)[b := map[PodNameFromOrdinal(name, 1) := 10]], 1) == 15
  {
    hide OrdinalFromPodName, PodNameFromOrdinal;
    Names(name);
    var committed := Start(name, a, b).Committed();
    var reserved := ReservedByA(name, a)[b := map[PodNameFromOrdinal(name, 1) := 10]];
    var claims := Claims(name, committed, reserved, 1);
    WeightOne(On(name, 0, 5), OnOrdinal(1));
    WeightNil(OnOrdinal(1));
    assert claims(a) == 5 && claims(b) == 10;
    assert committed.Keys + reserved.Keys == {b} + {a};
    SumAdd({b}, claims, a);
    SumAdd({}, claims, b);
    assert {} + {b} == {b};
  }

  // ----- zones -----

  /** EVENSPREAD over two zones, on one pod of capacity 10. */
  function SpreadCfg(name: string): Setting { Setting(name, 10, EVENSPREAD) }

  function Recorded(name: string): Placement { Placement(PodNameFromOrdinal(name, 0), "a", 5) }

  function Again(name: string): Placement { Placement(PodNameFromOrdinal(name, 0), "b", 3) }

  function Other(name: string): Placement { Placement(PodNameFromOrdinal(name, 0), "b", 5) }

  function MovedList(name: string, a: Key, b: Key): seq<VPod> {
    [VPod(a, 8, [Recorded(name)]), VPod(b, 10, [])]
  }

  /** Vpod a holds 5 of the 8 replicas it wants on pod 0, recorded in zone a; vpod b holds none of its 10. */
  function MovedStart(name: string, a: Key, b: Key): System
    requires a != b
  {
    System(map[a := VPod(a, 8, [Recorded(name)]), b := VPod(b, 10, [])], Memory(1, map[], map[]), map[])
  }

  function TwoNodes(): seq<Node> { [Node("x", Some("a")), Node("y", Some("b"))] }

  /** Both zones have a node, and pod 0 now runs on the node in zone b. */
  function MovedWorld(name: string, a: Key, b: Key): World {
    World(Some(MovedList(name, a, b)), [], Some(TwoNodes()), map[PodNameFromOrdinal(name, 0) := "y"])
  }

  function TwoZones(name: string): Cluster {
    Cluster(map[PodNameFromOrdinal(name, 0) := "y"], map["x" := "a", "y" := "b"])
  }

  lemma MovedZones(name: string, a: Key, b: Key)
    ensures Zones(SpreadCfg(name), MovedWorld(name, a, b)) == (2, TwoZones(name))
    ensures ZoneNames(TwoNodes()) != {}
  {
    hide OrdinalFromPodName, PodNameFromOrdinal;
    var nodes := TwoNodes();
    assert nodes[..1] == [nodes[0]] && nodes[..1][..0] == [];
    assert NodeToZone(nodes[..1]) == map["x" := "a"];
    assert NodeToZone(nodes) == map["x" := "a", "y" := "b"];
    assert ZoneNames(nodes) == {"a", "b"} by {
      assert nodes[0].zone.value == "a" && nodes[1].zone.value == "b";
      assert forall z :: z in ZoneNames(nodes) <==> z == "a" || z == "b";
    }
  }

  /** The three missing replicas go to the same pod once more, since the recorded zone has reached its share of 4. */
  lemma MovedAllocation(name: string)
    ensures AddReplicasEvenSpread(Snapshot([5], 10), TwoZones(name), name, 1, 3, [Recorded(name)], 4).placed
         == [Recorded(name), Again(name)]
    ensures AddReplicasEvenSpread(Snapshot([5], 10), TwoZones(name), name, 1, 3, [Recorded(name)], 4).left == 0
  {
    hide OrdinalFromPodName, PodNameFromOrdinal;
    Names(name);
    var p, c := Recorded(name), TwoZones(name);
    var ps := [p];
    var a0 := Alloc(Snapshot([5], 10), [], 3);
    assert ps[1..] == [];
    assert ZonesOf(ps) == InsertZone("a", ZonesOf([])) == ["a"];
    assert InZoneOnly(ps, "a") == [p] + InZoneOnly([], "a") == ps;
    WeightOne(p, InZone("a"));
    var a1 := SpreadOne(Zoned(a0, 5), p, 4).alloc;
    assert a1 == Alloc(Snapshot([5], 10), [p], 3);
    assert SpreadZone(Zoned(a0, 5), ps, 4) == SpreadZone(SpreadOne(Zoned(a0, 5), p, 4), [], 4);
    assert ["a"][1..] == [];
    assert SpreadZones(a0, ps, ["a"], 4) == SpreadZones(a1, ps, [], 4) == a1;
    WeightOne(p, InZone("b"));
    var a2 := SpreadNewOne(a1, c, name, 0, 4);
    assert a2.placed == [p, Again(name)] && a2.left == 0;
    assert SpreadNew(a1, c, name, 0, 1, 4) == a2;
  }

  /** The other vpod takes what still looks free: its share of 5 in zone b. */
  lemma OtherAllocation(name: string)
    ensures AddReplicasEvenSpread(Snapshot([5], 10), TwoZones(name), name, 1, 10, [], 5).placed == [Other(name)]
    ensures AddReplicasEvenSpread(Snapshot([5], 10), TwoZones(name), name, 1, 10, [], 5).left == 5
  {
    hide OrdinalFromPodName, PodNameFromOrdinal;
    Names(name);
    var a0 := Alloc(Snapshot([5], 10), [], 10);
    assert ZonesOf([]) == [];
    assert SpreadZones(a0, [], [], 5) == a0;
    WeightNil(InZone("b"));
    var a1 := SpreadNewOne(a0, TwoZones(name), name, 0, 5);
    assert a1.placed == [Other(name)] && a1.left == 5;
    assert SpreadNew(a0, TwoZones(name), name, 0, 1, 5) == SpreadNew(a1, TwoZones(name), name, 1, 1, 5) == a1;
  }

  lemma MovedSnapshot(name: string, a: Key, b: Key)
    ensures AccountVPods(Empty(10, map[]), MovedList(name, a, b)) == Building(Snapshot([5], 10), 0, map[])
  {
    hide OrdinalFromPodName, PodNameFromOrdinal;
    Names(name);
    var list, ps, b0 := MovedList(name, a, b), [Recorded(name)], Empty(10, map[]);
    assert ps[1..] == [];
    var b1 := AccountPlacement(b0, a, ps[0]);
    assert Grow([], 0, 10) == [10];
    assert b1 == Building(Snapshot([5], 10), 0, map[]);
    assert AccountPlacements(b0, a, ps) == AccountPlacements(b1, a, []) == b1;
    assert list[1..] == [VPod(b, 10, [])] && list[1..][1..] == [];
    assert AccountVPods(b1, list[1..]) == AccountVPods(AccountPlacements(b1, b, []), []) == b1;
  }

  lemma MovedStartIsFine(name: string, a: Key, b: Key)
    requires a != b
    ensures Inv(SpreadCfg(name), MovedStart(name, a, b))
    ensures ListsAll(MovedList(name, a, b), MovedStart(name, a, b).vpods)
  {
    hide OrdinalFromPodName, PodNameFromOrdinal;
    var s, list := MovedStart(name, a, b), MovedList(name, a, b);
    Names(name);
    assert KeySet(list) == {a, b} by {
      assert list[0].key == a && list[1].key == b;
      assert forall k :: k in KeySet(list) <==> k == a || k == b;
    }
    var ps := [Recorded(name)];
    forall o: nat ensures Listings(ps, o) <= 1 && Listings([], o) == 0 { WeightOne(ps[0], ListedOn(o)); }
    forall o: nat ensures DemandOn(SpreadCfg(name), s, o) <= 10 {
      var claims := Claims(name, s.Committed(), map[], o);
      WeightOne(ps[0], OnOrdinal(o));
      assert s.Committed().Keys + s.memory.reserved.Keys == {b} + {a};
      SumAdd({b}, claims, a);
      SumAdd({}, claims, b);
      assert {} + {b} == {b};
    }
  }

  /** A pod whose recorded zone is out of date is listed twice by a real call, and nothing of what it gains is
      reserved. */
  lemma StaleZoneListsTwice(name: string, a: Key, b: Key)
    requires a != b
    ensures var cfg, s, w := SpreadCfg(name), MovedStart(name, a, b), MovedWorld(name, a, b);
            && Inv(cfg, s) && Shown(cfg, s, w) && !ZonesMatch(Zones(cfg, w).1, s.vpods[a].placements, s.memory.replicas)
            && Schedule(cfg, s.memory, s.vpods[a], w) == (s.memory, Scheduled([Recorded(name), Again(name)]))
            && Listings([Recorded(name), Again(name)], 0) == 2
  {
    hide OrdinalFromPodName, PodNameFromOrdinal, AccountVPods, AddReplicasEvenSpread, Inv, NodeToZone, ZoneNames,
         Weight;
    var cfg, s, w := SpreadCfg(name), MovedStart(name, a, b), MovedWorld(name, a, b);
    var p, q := Recorded(name), Again(name);
    Names(name);
    MovedStartIsFine(name, a, b);
    MovedZones(name, a, b);
    MovedSnapshot(name, a, b);
    MovedAllocation(name);
    NoReservations(10, w.vpods.value);
    assert Moved(TwoZones(name), p, 1);
    WeightOne(p, Replicas());
    assert [p, q][1..] == [q] && [q][1..] == [] && [p][1..] == [];
    assert SortByOrdinal([q]) == InsertByOrdinal(q, []) == [q];
    assert SortByOrdinal([p, q]) == InsertByOrdinal(p, [q]) == [p, q];
    assert Reserve(map[], a, [p], [p, q]) == Reserve(map[], a, [p], [q]) == map[];
    assert [p] + [q] == [p, q];
    WeightAppend([p], q, ListedOn(0));
    WeightOne(p, ListedOn(0));
    var none: map<Key, int> := map[];
    assert none - {a} == none;
  }

  /** What scheduling the other vpod then yields: the pod seems to have 5 left, and all of it is promised once more. */
  lemma OtherIsPlaced(name: string, a: Key, b: Key)
    requires a != b
    ensures var cfg, s, w := SpreadCfg(name), MovedStart(name, a, b), MovedWorld(name, a, b);
            && Answers(cfg, w)
            && Schedule(cfg, s.memory, s.vpods[b], w)
               == (Memory(1, map[b := 5], map[b := map[PodNameFromOrdinal(name, 0) := 5]]),
                   NotEnoughReplicas([Other(name)]))
  {
    hide OrdinalFromPodName, PodNameFromOrdinal, AccountVPods, AddReplicasEvenSpread, NodeToZone, ZoneNames, Weight;
    Names(name);
    MovedZones(name, a, b);
    MovedSnapshot(name, a, b);
    OtherAllocation(name);
    WeightNil(Replicas());
    var p := Other(name);
    assert [p][1..] == [];
    assert SortByOrdinal([p]) == InsertByOrdinal(p, []) == [p];
    assert Reserve(map[], b, [], [p]) == ReserveOne(map[], b, [], p);
  }

  lemma OtherIsClean(name: string, a: Key, b: Key, s: System)
    requires a != b && s.vpods == MovedStart(name, a, b).vpods && s.memory == MovedStart(name, a, b).memory
    ensures var cfg, w := SpreadCfg(name), MovedWorld(name, a, b);
            && NoMix(s.Committed(), Pruned(cfg.capacity, w.vpods.value, s.memory.reserved))
            && Clean(cfg, s, Reschedule(b, w))
  {
    hide OrdinalFromPodName, PodNameFromOrdinal, AccountVPods, Weight, Zones, Mixed;
    NoReservations(10, MovedWorld(name, a, b).vpods.value);
  }

  /** Safety needs current zones, too. No key ever mixes reservations here; but what the first call promises is recorded
      nowhere, the second call hands it out again, and committing the first result puts 13 on a pod of capacity 10. */
  lemma StaleZoneOvercommits(name: string, a: Key, b: Key)
    requires a != b
    ensures var cfg, s, w := SpreadCfg(name), MovedStart(name, a, b), MovedWorld(name, a, b);
            && Inv(cfg, s) && Enabled(cfg, s, Reschedule(a, w))
            && NoMix(s.Committed(), Pruned(cfg.capacity, w.vpods.value, s.memory.reserved))
            && var s1 := Apply(cfg, s, Reschedule(a, w));
            && Enabled(cfg, s1, Reschedule(b, w)) && Clean(cfg, s1, Reschedule(b, w))
            && var s2 := Apply(cfg, s1, Reschedule(b, w));
            && Enabled(cfg, s2, Commit(a)) && Clean(cfg, s2, Commit(a))
            && DemandOn(cfg, Apply(cfg, s2, Commit(a)), 0) == 13 > cfg.capacity
  {
    hide OrdinalFromPodName, PodNameFromOrdinal, Schedule, Inv, Shown, NoMix, ZonesMatch, Weight, Pruned, Demand,
         MovedWorld, ZonesCurrent, Listings;
    var cfg, s, w := SpreadCfg(name), MovedStart(name, a, b), MovedWorld(name, a, b);
    StaleZoneListsTwice(name, a, b);
    OtherIsPlaced(name, a, b);
    OtherIsClean(name, a, b, s);
    var s1 := Apply(cfg, s, Reschedule(a, w));
    assert s1.vpods == s.vpods && s1.memory == s.memory;
    assert Shown(cfg, s1, w) by { SameShown(cfg, s, s1, w); }
    OtherIsClean(name, a, b, s1);
    var s2 := Apply(cfg, s1, Reschedule(b, w));
    var s3 := Apply(cfg, s2, Commit(a));
    assert s3.Committed() == map[a := [Recorded(name), Again(name)], b := []];
    StaleDemand(name, a, b);
  }

  lemma SameShown(cfg: Setting, s: System, s1: System, w: World)
    requires Shown(cfg, s, w) && s1.vpods == s.vpods && s1.memory == s.memory
    ensures Shown(cfg, s1, w)
  {
  }

  lemma StaleDemand(name: string, a: Key, b: Key)
    requires a != b
    ensures Demand(name, map[a := [Recorded(name), Again(name)], b := []],
            map[b := map[PodNameFromOrdinal(name, 0) := 5]], 0) == 13
  {
    hide OrdinalFromPodName, PodNameFromOrdinal;
    Names(name);
    var committed: Committed := map[a := [Recorded(name), Again(name)], b := []];
    var reserved: Reserved := map[b := map[PodNameFromOrdinal(name, 0) := 5]];
    var claims := Claims(name, committed, reserved, 0);
    assert [Recorded(name)] + [Again(name)] == [Recorded(name), Again(name)];
    WeightAppend([Recorded(name)], Again(name), OnOrdinal(0));
    WeightOne(Recorded(name), OnOrdinal(0));
    WeightNil(OnOrdinal(0));
    assert claims(a) == 8 && claims(b) == 5;
    assert committed.Keys + reserved.Keys == {b} + {a};
    SumAdd({b}, claims, a);
    SumAdd({}, claims, b);
    assert {} + {b} == {b};
  }

  /** A vpod that occupies more zones than the cluster still has may not shrink at all. */
  lemma LostZonesKeepSurplus(name: string)
    ensures var ps := [Placement(PodNameFromOrdinal(name, 0), "a", 1), Placement(PodNameFromOrdinal(name, 1), "b", 1)];
            && WellPlaced(name, ps) && Total(ps) == 2 && |ZonesOf(ps)| == 2
            && Total(RemoveReplicasEvenSpread(Total(ps) - 1, ps, 1 / 1)) == 2
  {
    hide OrdinalFromPodName, PodNameFromOrdinal;
    Names(name);
    var p, q := Placement(PodNameFromOrdinal(name, 0), "a", 1), Placement(PodNameFromOrdinal(name, 1), "b", 1);
    var ps := [p, q];
    assert ps == [p] + [q];
    forall o: nat ensures Listings(ps, o) <= 1 {
      WeightAppend([p], q, ListedOn(o));
      WeightOne(p, ListedOn(o));
    }
    forall w: Placement -> int ensures Weight(ps, w) == w(p) + w(q) {
      WeightAppend([p], q, w);
      WeightOne(p, w);
    }
    assert ps[1..] == [q] && ps[1..][1..] == [];
    assert ZonesOf(ps[1..]) == InsertZone("b", ZonesOf([])) == ["b"];
    assert Leq("a", "b");
    assert ZonesOf(ps) == ["a"] + ["b"] == ["a", "b"];
    assert ["a", "b"][1..] == ["b"] && ["b"][1..] == [];
    assert Excess(ps, ["b"], 1) == Pos(ZoneTotal(ps, "b") - 1) + Excess(ps, [], 1) == 0;
    assert Excess(ps, ["a", "b"], 1) == Pos(ZoneTotal(ps, "a") - 1) + Excess(ps, ["b"], 1) == 0;
    RemoveReplicasEvenSpreadLaw(name, 1, ps, 1);
  }

  // ----- compaction applies, and may fail -----

  /** What vpod b holds: one replica on pod 1, and with `spare` an empty entry on pod 2. */
  function Held(name: string, spare: bool): seq<Placement> {
    [On(name, 1, 1)] + Spare(name, spare)
  }

  function Spare(name: string, spare: bool): seq<Placement> {
    if spare then [On(name, 2, 0)] else []
  }

  /** Two fully placed vpods, one replica each, on two pods of capacity 10. */
  function Pair(name: string, a: Key, b: Key, spare: bool): System
    requires a != b
  {
    System(map[a := VPod(a, 1, [On(name, 0, 1)]), b := VPod(b, 1, Held(name, spare))], Memory(2, map[], map[]), map[])
  }

  function PairList(name: string, a: Key, b: Key, spare: bool): seq<VPod> {
    [VPod(a, 1, [On(name, 0, 1)]), VPod(b, 1, Held(name, spare))]
  }

  function EvictedList(name: string, a: Key, b: Key, spare: bool): seq<VPod> {
    [VPod(a, 1, [On(name, 0, 1)]), VPod(b, 1, Spare(name, spare))]
  }

  lemma OneEntry(name: string, o: nat, n: nat)
    requires o <= MAX_INT32
    ensures var ps := [On(name, o, n)];
            && WellPlaced(name, ps) && Total(ps) == n && OrdSet(ps) == {o}
            && forall x: nat ::
                 CountAt(ps, x) == (if x == o then n else 0) && Listings(ps, x) == if x == o then 1 else 0
  {
    hide OrdinalFromPodName, PodNameFromOrdinal;
    OrdinalRoundTrip(name, o);
    var ps := [On(name, o, n)];
    WeightOne(ps[0], Replicas());
    forall x: nat
      ensures CountAt(ps, x) == (if x == o then n else 0) && Listings(ps, x) == if x == o then 1 else 0
    {
      WeightOne(ps[0], ListedOn(x));
      WeightOne(ps[0], OnOrdinal(x));
    }
    assert Ord(ps[0]) in OrdSet(ps);
  }

  lemma HeldLaw(name: string, spare: bool)
    ensures var ps := Held(name, spare);
            && WellPlaced(name, ps) && Total(ps) == 1 && OrdSet(ps) == (if spare then {1, 2} else {1})
            && forall x: nat :: CountAt(ps, x) == if x == 1 then 1 else 0
  {
    hide OrdinalFromPodName, PodNameFromOrdinal, Canonical, Weight;
    OneEntry(name, 1, 1);
    OneEntry(name, 2, 0);
    var p, q := [On(name, 1, 1)], Spare(name, spare);
    WeightNil(Replicas());
    WeightConcat(p, q, Replicas());
    forall x: nat ensures CountAt(p + q, x) == (if x == 1 then 1 else 0) && Listings(p + q, x) <= 1 {
      WeightNil(OnOrdinal(x));
      WeightNil(ListedOn(x));
      assert CountAt(p, x) == (if x == 1 then 1 else 0) && Listings(p, x) == if x == 1 then 1 else 0;
      assert CountAt(q, x) == 0 && Listings(q, x) == if spare && x == 2 then 1 else 0;
      WeightConcat(p, q, OnOrdinal(x));
      WeightConcat(p, q, ListedOn(x));
    }
    assert Ord(p[0]) in OrdSet(p) && (spare ==> Ord(q[0]) in OrdSet(q));
    assert Ord((p + q)[0]) in OrdSet(p + q) && (spare ==> Ord((p + q)[1]) in OrdSet(p + q));
  }

  lemma PairIsWellFormed(name: string, a: Key, b: Key, spare: bool)
    requires a != b
    ensures var cfg, s := Cfg(name), Pair(name, a, b, spare);
            && Basics(cfg, s) && FullyPlaced(s.vpods) && ListsAll(PairList(name, a, b, spare), s.vpods)
            && forall o: nat :: DemandOn(cfg, s, o) <= 1
  {
    hide OrdinalFromPodName, PodNameFromOrdinal, WellPlaced, Weight, DemandOn, Held;
    var cfg, s, list := Cfg(name), Pair(name, a, b, spare), PairList(name, a, b, spare);
    OneEntry(name, 0, 1);
    HeldLaw(name, spare);
    assert KeySet(list) == {a, b} by {
      assert list[0].key == a && list[1].key == b;
      assert forall k :: k in KeySet(list) <==> k == a || k == b;
    }
    forall o: nat ensures DemandOn(cfg, s, o) <= 1 {
      PlainDemand(cfg, s, o);
      var counts := CountsOn(s.vpods, o);
      assert s.vpods.Keys == {b} + {a};
      SumAdd({b}, counts, a);
      SumAdd({}, counts, b);
      assert {} + {b} == {b};
    }
  }

  lemma PairSnapshot(name: string, a: Key, b: Key, spare: bool)
    ensures var r := PlainSnapshot(Cfg(name), PairList(name, a, b, spare));
            r.last == 1 && r.snap.capacity == 10 && r.snap.Free(0) == r.snap.Free(1) == 9
  {
    hide OrdinalFromPodName, PodNameFromOrdinal;
    Names(name);
    OrdinalRoundTrip(name, 2);
    var list := PairList(name, a, b, spare);
    var b0 := Empty(10, map[]);
    var b1 := AccountPlacement(b0, a, On(name, 0, 1));
    var b2 := AccountPlacement(b1, b, On(name, 1, 1));
    var b3 := if spare then AccountPlacement(b2, b, On(name, 2, 0)) else b2;
    var p, q := [On(name, 0, 1)], Held(name, spare);
    assert p[1..] == [] && q[1..] == Spare(name, spare) && Spare(name, true)[1..] == [];
    assert AccountPlacements(b0, a, p) == AccountPlacements(b1, a, []) == b1;
    assert AccountPlacements(b1, b, q) == AccountPlacements(b2, b, Spare(name, spare)) == b3;
    assert list[1..] == [VPod(b, 1, q)] && list[1..][1..] == [];
    assert AccountVPods(b1, list[1..]) == AccountVPods(b3, []) == b3;
  }

  lemma TwoPods(f: nat -> int)
    ensures SumOver(Below(2), f) == f(0) + f(1)
  {
    SumAdd<nat>(Below(1), f, 1);
    SumAdd<nat>(Below(0), f, 0);
    assert Below(2) == Below(1) + {1} && Below(1) == Below(0) + {0};
  }

  lemma PairEvicted(name: string, a: Key, b: Key, spare: bool)
    requires a != b
    ensures AfterEviction(Cfg(name), Pair(name, a, b, spare), 1).vpods
         == map[a := VPod(a, 1, [On(name, 0, 1)]), b := VPod(b, 1, Spare(name, spare))]
  {
    hide OrdinalFromPodName, PodNameFromOrdinal;
    Names(name);
    PodNamesDiffer(name, 1, 2);
    var n1 := PodNameFromOrdinal(name, 1);
    var p, q, r := [On(name, 0, 1)], Held(name, spare), Spare(name, spare);
    assert p[1..] == [] && q[1..] == r && Spare(name, true)[1..] == [];
    assert Without(p, n1) == [p[0]] + Without([], n1) == p;
    assert Without(r, n1) == r + [] == r;
    assert Without(q, n1) == [] + Without(r, n1) == r;
  }

  lemma EvictedIsListed(name: string, a: Key, b: Key, spare: bool)
    requires a != b
    ensures ListsAll(EvictedList(name, a, b, spare), AfterEviction(Cfg(name), Pair(name, a, b, spare), 1).vpods)
  {
    hide OrdinalFromPodName, PodNameFromOrdinal, AfterEviction, Pair;
    var list := EvictedList(name, a, b, spare);
    PairEvicted(name, a, b, spare);
    assert KeySet(list) == {a, b} by {
      assert list[0].key == a && list[1].key == b;
      assert forall k :: k in KeySet(list) <==> k == a || k == b;
    }
  }

  lemma PairMayCompact(name: string, a: Key, b: Key, spare: bool)
    ensures var snap := PlainSnapshot(Cfg(name), PairList(name, a, b, spare));
            MayCompact(Cfg(name), snap) && snap.last == 1
  {
    hide OrdinalFromPodName, PodNameFromOrdinal, Build, PairList, Below;
    var snap := PlainSnapshot(Cfg(name), PairList(name, a, b, spare));
    PairSnapshot(name, a, b, spare);
    TwoPods(FreeOf(snap.snap));
  }

  /** A round after the eviction of pod 1: vpod b is rescheduled and committed. */
  lemma PairRound(name: string, a: Key, b: Key, spare: bool) returns (turns: seq<Turn>)
    requires a != b
    ensures turns == [Turn(b, World(Some(EvictedList(name, a, b, spare)), [], None, map[]), true)]
    ensures PlainSnapshot(Cfg(name), PairList(name, a, b, spare)).last == 1 && TurnKeys(turns) == {b}
    ensures CompactionRound(Cfg(name), Pair(name, a, b, spare), PairList(name, a, b, spare), turns)
  {
    hide OrdinalFromPodName, PodNameFromOrdinal, WellPlaced, Weight, DemandOn, Take, Build, OrdSet, Held, ListsAll,
         Spare, MayCompact, AccountVPods;
    var cfg, s := Cfg(name), Pair(name, a, b, spare);
    var list1 := EvictedList(name, a, b, spare);
    PairIsWellFormed(name, a, b, spare);
    PairMayCompact(name, a, b, spare);
    PairEvicted(name, a, b, spare);
    EvictedIsListed(name, a, b, spare);
    NoReservations(10, list1);
    turns := [Turn(b, World(Some(list1), [], None, map[]), true)];
    assert TurnEnabled(cfg, AfterEviction(cfg, s, 1), turns[0]);
    assert turns[1..] == [];
    assert turns[0].key in TurnKeys(turns);
    OneEntry(name, 0, 1);
    assert forall k :: k in s.vpods && 1 in OrdSet(s.vpods[k].placements) ==> k in TurnKeys(turns);
    assert RoundEnabled(cfg, AfterEviction(cfg, s, 1), turns);
  }

  /** The premises of the compaction theorem can be met: the pod with ordinal 1 is emptied, and the last ordinal
      becomes 0. */
  lemma CompactionApplies(name: string, a: Key, b: Key) returns (turns: seq<Turn>)
    requires a != b
    ensures var cfg, s, list := Cfg(name), Pair(name, a, b, false), PairList(name, a, b, false);
            && CompactionRound(cfg, s, list, turns) && PlainSnapshot(cfg, list).last == 1
            && forall list' :: ListsAll(list', After(cfg, AfterEviction(cfg, s, 1), turns).vpods) ==>
                 PlainSnapshot(cfg, list').last < 1
  {
    hide OrdinalFromPodName, PodNameFromOrdinal, Basics, Weight, DemandOn, AllScheduled, Take, Build, OrdSet,
         CompactionRound, Held;
    turns := PairRound(name, a, b, false);
    HeldLaw(name, false);
    CompactionProgress(Cfg(name), Pair(name, a, b, false), PairList(name, a, b, false), turns);
  }

  /** Without the condition on listed pods the last ordinal may rise: with an empty entry on pod 2, what is evicted
      from pod 1 goes there, although pod 0 has room. */
  lemma CompactionRises(name: string, a: Key, b: Key) returns (turns: seq<Turn>)
    requires a != b
    ensures var cfg, s, list := Cfg(name), Pair(name, a, b, true), PairList(name, a, b, true);
            && CompactionRound(cfg, s, list, turns) && PlainSnapshot(cfg, list).last == 1
            && forall list' :: ListsAll(list', After(cfg, AfterEviction(cfg, s, 1), turns).vpods) ==>
                 PlainSnapshot(cfg, list').last > 1
  {
    hide OrdinalFromPodName, PodNameFromOrdinal, Basics, Weight, DemandOn, AllScheduled, Take, Build,
         CompactionRound, Held;
    turns := PairRound(name, a, b, true);
    CompactionIff(Cfg(name), Pair(name, a, b, true), PairList(name, a, b, true), turns);
    PairEvicted(name, a, b, true);
    OrdinalRoundTrip(name, 2);
    OneEntry(name, 2, 0);
    assert Before(Spare(name, true), 1) == [];
    assert OrdSet([]) == {};
  }
}
