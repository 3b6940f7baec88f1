/** The scheduler object: placement loops over the snapshot, and the memory kept between calls
    (pkg/common/scheduler/statefulset/scheduler.go, pkg/common/scheduler/placement.go). */
module StatefulSetScheduler {
  import opened Options
  import opened PodNames
  import opened Placements
  import opened Arithmetic
  import opened Sums
  import opened Snapshots
  import opened SnapshotLaws
  import opened FillUp
  import opened EvenSpread
  import opened Scheduling
  import opened State

  // ----- reading placements -----

  method GetTotalVReplicas(ps: seq<Placement>) returns (r: int)
    ensures r == Total(ps)
  {
    r := 0;
    for i := 0 to |ps|
      invariant r == Total(ps[..i])
    {
      WeightAppend(ps[..i], ps[i], Replicas());
      assert ps[..i] + [ps[i]] == ps[..i + 1];
      r := r + ps[i].vreplicas;
    }
    assert ps[..|ps|] == ps;
  }

  method GetPlacementForPod(ps: seq<Placement>, podName: string) returns (r: Option<Placement>)
    ensures r == Find(ps, podName)
    ensures r.Some? ==> r.value in ps && r.value.podName == podName
    ensures r.None? ==> forall i :: 0 <= i < |ps| ==> ps[i].podName != podName
  {
    for i := 0 to |ps|
      invariant Find(ps, podName) == Find(ps[i..], podName)
      invariant forall j :: 0 <= j < i ==> ps[j].podName != podName
    {
      if ps[i].podName == podName {
        return Some(ps[i]);
      }
      assert ps[i..][1..] == ps[i + 1..];
    }
    return None;
  }

  /** The pods that hold at least one replica. */
  function PodsInUse(ps: seq<Placement>): set<string> {
    set i | 0 <= i < |ps| && ps[i].vreplicas > 0 :: ps[i].podName
  }

  method GetPodCount(ps: seq<Placement>) returns (n: nat)
    ensures n == |PodsInUse(ps)|
  {
    var pods := {};
    for i := 0 to |ps|
      invariant pods == set j | 0 <= j < i && ps[j].vreplicas > 0 :: ps[j].podName
    {
      if ps[i].vreplicas > 0 {
        pods := pods + {ps[i].podName};
      }
    }
    assert pods == PodsInUse(ps);
    n := |pods|;
  }

  method GetTotalVReplicasInZone(ps: seq<Placement>, zone: string) returns (r: int)
    ensures r == ZoneTotal(ps, zone)
  {
    r := 0;
    for i := 0 to |ps|
      invariant r == ZoneTotal(ps[..i], zone)
    {
      WeightAppend(ps[..i], ps[i], InZone(zone));
      assert ps[..i] + [ps[i]] == ps[..i + 1];
      if ps[i].zoneName == zone {
        r := r + ps[i].vreplicas;
      }
    }
    assert ps[..|ps|] == ps;
  }

  /** The ordinals of a list of placements. */
  function Ords(ps: seq<Placement>): seq<nat> {
    if ps == [] then [] else [Ord(ps[0])] + Ords(ps[1..])
  }

  lemma {:induction false} OrdsAt(ps: seq<Placement>)
    ensures |Ords(ps)| == |ps| && forall i :: 0 <= i < |ps| ==> Ords(ps)[i] == Ord(ps[i])
  {
    hide OrdinalFromPodName;
    if ps != [] { OrdsAt(ps[1..]); }
  }

  lemma {:induction false} OrdsAppend(ps: seq<Placement>, p: Placement)
    ensures Ords(ps + [p]) == Ords(ps) + [Ord(p)]
  {
    hide OrdinalFromPodName;
    if ps != [] {
      assert (ps + [p])[1..] == ps[1..] + [p];
      OrdsAppend(ps[1..], p);
    } else {
      assert ps + [p] == [p];
      assert Ords([p]) == [Ord(p)] + Ords([p][1..]);
    }
  }

  lemma {:induction false} InZoneOnlyAppend(ps: seq<Placement>, p: Placement, z: string)
    ensures InZoneOnly(ps + [p], z) == if p.zoneName == z then InZoneOnly(ps, z) + [p] else InZoneOnly(ps, z)
  {
    if ps != [] {
      assert (ps + [p])[1..] == ps[1..] + [p];
      InZoneOnlyAppend(ps[1..], p, z);
    } else {
      assert ps + [p] == [p];
      assert InZoneOnly([p], z) == (if p.zoneName == z then [p] else []) + InZoneOnly([p][1..], z);
    }
  }

  /** What the map of zones says after a list of placements. */
  ghost predicate GroupsByZone(byZone: map<string, seq<nat>>, ps: seq<Placement>) {
    && (forall z :: z in byZone ==> byZone[z] == Ords(InZoneOnly(ps, z)))
    && (forall z :: z !in byZone ==> InZoneOnly(ps, z) == [])
    && (forall i :: 0 <= i < |ps| ==> ps[i].zoneName in byZone)
  }

  lemma GroupOneMore(byZone: map<string, seq<nat>>, ps: seq<Placement>, p: Placement)
    requires GroupsByZone(byZone, ps)
    ensures var soFar := if p.zoneName in byZone then byZone[p.zoneName] else [];
            GroupsByZone(byZone[p.zoneName := soFar + [Ord(p)]], ps + [p])
  {
    hide OrdinalFromPodName, InZoneOnly, Ords;
    var soFar := if p.zoneName in byZone then byZone[p.zoneName] else [];
    var byZone' := byZone[p.zoneName := soFar + [Ord(p)]];
    OrdsAppend(InZoneOnly(ps, p.zoneName), p);
    OrdsAt([]);
    forall z
      ensures z in byZone' ==> byZone'[z] == Ords(InZoneOnly(ps + [p], z))
      ensures z !in byZone' ==> InZoneOnly(ps + [p], z) == []
    {
      InZoneOnlyAppend(ps, p, z);
    }
  }

  lemma GroupNothing()
    ensures GroupsByZone(map[], [])
  {
  }

  method GetPlacementsByZoneKey(ps: seq<Placement>) returns (byZone: map<string, seq<nat>>)
    ensures GroupsByZone(byZone, ps)
  {
    hide OrdinalFromPodName, GroupsByZone;
    byZone := map[];
    GroupNothing();
    for i := 0 to |ps|
      invariant GroupsByZone(byZone, ps[..i])
    {
      GroupOneMore(byZone, ps[..i], ps[i]);
      assert ps[..i] + [ps[i]] == ps[..i + 1];
      var soFar := if ps[i].zoneName in byZone then byZone[ps[i].zoneName] else [];
      byZone := byZone[ps[i].zoneName := soFar + [Ord(ps[i])]];
    }
    assert ps[..|ps|] == ps;
  }

  class StatefulSetScheduler {
    const cfg: Setting
    var replicas: int
    var pending: map<Key, int>
    var reserved: Reserved

    constructor (cfg: Setting)
      ensures this.cfg == cfg && View() == Memory(0, map[], map[])
    {
      this.cfg := cfg;
      replicas, pending, reserved := 0, map[], map[];
    }

    function View(): Memory
      reads this
    {
      Memory(replicas, pending, reserved)
    }

    method GetPlacementFromPodOrdinal(ps: seq<Placement>, ordinal: nat) returns (p: Placement)
      ensures var r := Find(ps, PodNameFromOrdinal(cfg.name, ordinal));
              p == if r.Some? then r.value else Placement("", "", 0)
    {
      hide OrdinalFromPodName, PodNameFromOrdinal;
      for i := 0 to |ps|
        invariant Find(ps, PodNameFromOrdinal(cfg.name, ordinal))
                  == Find(ps[i..], PodNameFromOrdinal(cfg.name, ordinal))
      {
        if ps[i].podName == PodNameFromOrdinal(cfg.name, ordinal) {
          return ps[i];
        }
        assert ps[i..][1..] == ps[i + 1..];
      }
      return Placement("", "", 0);
    }

    // ----- MAXFILLUP -----

    method RemoveFromEnd(diff: int, ps: seq<Placement>) returns (kept: seq<Placement>)
      ensures kept == RemoveReplicas(diff, ps, [])
    {
      kept := [];
      var left, i := diff, |ps|;
      assert ps[..|ps|] == ps;
      while i > 0
        invariant 0 <= i <= |ps|
        invariant RemoveReplicas(diff, ps, []) == RemoveReplicas(left, ps[..i], kept)
      {
        i := i - 1;
        assert ps[..i + 1][..i] == ps[..i];
        if left >= ps[i].vreplicas {
          left := left - ps[i].vreplicas;
        } else {
          kept := kept + [Placement(ps[i].podName, "", ps[i].vreplicas - left)];
          left := 0;
        }
      }
    }

    method FillPods(st: State, diff: int, ps: seq<Placement>) returns (placed: seq<Placement>, left: int)
      modifies st`free
      ensures Alloc(st.View(), placed, left) == AddReplicas(old(st.View()), cfg.name, replicas, diff, ps)
    {
      hide OrdinalFromPodName, PodNameFromOrdinal;
      placed, left := [], diff;
      ghost var a0 := Alloc(st.View(), [], diff);
      for i := 0 to |ps|
        invariant FillExisting(a0, ps) == FillExisting(Alloc(st.View(), placed, left), ps[i..])
      {
        var ordinal := Ord(ps[i]);
        var f := st.Free(ordinal);
        if left >= 0 && f > 0 {
          var n := Min(f, left);
          placed := placed + [Placement(ps[i].podName, "", ps[i].vreplicas + n)];
          left := left - n;
          st.SetFree(ordinal, f - n);
        } else {
          placed := placed + [ps[i]];
        }
        assert ps[i..][0] == ps[i] && ps[i..][1..] == ps[i + 1..];
      }
      if left > 0 {
        ghost var a := Alloc(st.View(), placed, left);
        var ordinal := 0;
        while ordinal < replicas
          invariant 0 <= ordinal
          invariant left != 0
          invariant FillNew(a, cfg.name, 0, replicas)
                    == FillNew(Alloc(st.View(), placed, left), cfg.name, ordinal, replicas)
        {
          var f := st.Free(ordinal);
          if f > 0 {
            var n := Min(f, left);
            placed := placed + [Placement(PodNameFromOrdinal(cfg.name, ordinal), "", n)];
            left := left - n;
            st.SetFree(ordinal, f - n);
          }
          if left == 0 {
            break;
          }
          ordinal := ordinal + 1;
        }
      }
    }

    // ----- EVENSPREAD -----

    /** Looking a pod of the zone up by its ordinal gives back its placement. */
    lemma OwnPlacement(ps: seq<Placement>, z: string, i: nat)
      requires WellPlaced(cfg.name, ps) && i < |InZoneOnly(ps, z)|
      ensures var p := InZoneOnly(ps, z)[i];
              Ord(p) <= MAX_INT32 && Find(ps, PodNameFromOrdinal(cfg.name, Ord(p))) == Some(p)
    {
      hide OrdinalFromPodName, PodNameFromOrdinal;
      InZoneOnlyLaw(ps, z);
      FindOwn(cfg.name, ps, InZoneOnly(ps, z)[i]);
    }

    /** The pods of one zone, from the last listed to the first. */
    method RemoveFromZone(
      left0: int, kept0: seq<Placement>, ps: seq<Placement>, zone: string, ordinals: seq<nat>, spread: int)
      returns (left: int, kept: seq<Placement>)
      requires WellPlaced(cfg.name, ps) && ordinals == Ords(InZoneOnly(ps, zone))
      ensures var t := ShedZone(Shedding(left0, ZoneTotal(ps, zone), kept0), InZoneOnly(ps, zone), spread);
              left == t.left && kept == t.kept
    {
      hide OrdinalFromPodName, PodNameFromOrdinal, WellPlaced, Find, Weight, InZoneOnly, Ords;
      var total := GetTotalVReplicasInZone(ps, zone);
      ghost var own := InZoneOnly(ps, zone);
      left, kept := left0, kept0;
      ghost var s := Shedding(left, total, kept);
      OrdsAt(own);
      var j := |ordinals|;
      assert own[..j] == own;
      while j > 0
        invariant 0 <= j <= |own|
        invariant ShedZone(s, own, spread) == ShedZone(Shedding(left, total, kept), own[..j], spread)
      {
        j := j - 1;
        OwnPlacement(ps, zone, j);
        var p := GetPlacementFromPodOrdinal(ps, ordinals[j]);
        assert own[..j + 1][..j] == own[..j] && own[..j + 1][j] == p;
        if left > 0 && total >= spread {
          var n := Min(left, Min(p.vreplicas, total - spread));
          if n > 0 && n < p.vreplicas {
            kept := kept + [Placement(p.podName, p.zoneName, p.vreplicas - n)];
            left, total := left - n, total - n;
          } else if n >= p.vreplicas {
            left, total := left - p.vreplicas, total - p.vreplicas;
          } else {
            kept := kept + [Placement(p.podName, p.zoneName, p.vreplicas)];
          }
        } else {
          kept := kept + [Placement(p.podName, p.zoneName, p.vreplicas)];
        }
      }
    }

    method RemoveFromZones(diff: int, ps: seq<Placement>, spread: int) returns (kept: seq<Placement>)
      requires WellPlaced(cfg.name, ps)
      ensures kept == RemoveReplicasEvenSpread(diff, ps, spread)
    {
      hide OrdinalFromPodName, PodNameFromOrdinal, WellPlaced, Weight, InZoneOnly, ShedZone, Ords;
      kept := [];
      var left := diff;
      var byZone := GetPlacementsByZoneKey(ps);
      var zones := ZonesOf(ps);
      ZonesOfLaw(ps);
      for i := 0 to |zones|
        invariant ShedZones(diff, [], ps, zones, spread) == ShedZones(left, kept, ps, zones[i..], spread)
      {
        assert zones[i] in zones;
        left, kept := RemoveFromZone(left, kept, ps, zones[i], byZone[zones[i]], spread);
        assert zones[i..][0] == zones[i] && zones[i..][1..] == zones[i + 1..];
      }
    }

    method SpreadOverPods(st: State, pods: map<string, string>, diff: int, ps: seq<Placement>, spread: int)
      returns (placed: seq<Placement>, left: int)
      requires WellPlaced(cfg.name, ps)
      modifies st`free
      ensures Alloc(st.View(), placed, left)
           == AddReplicasEvenSpread(old(st.View()), Cluster(pods, st.nodeToZone), cfg.name, replicas, diff, ps, spread)
    {
      hide OrdinalFromPodName, PodNameFromOrdinal, SpreadNew;
      placed, left := SpreadOverOwnPods(st, diff, ps, spread);
      if left > 0 {
        placed, left := SpreadOverOtherPods(st, pods, placed, left, spread);
      }
    }

    method SpreadOverZone(
      st: State, left0: int, placed0: seq<Placement>, ps: seq<Placement>, zone: string, ordinals: seq<nat>, spread: int)
      returns (placed: seq<Placement>, left: int)
      requires WellPlaced(cfg.name, ps) && ordinals == Ords(InZoneOnly(ps, zone))
      modifies st`free
      ensures Alloc(st.View(), placed, left)
           == SpreadZone(
                Zoned(Alloc(old(st.View()), placed0, left0), ZoneTotal(ps, zone)), InZoneOnly(ps, zone), spread).alloc
    {
      hide OrdinalFromPodName, PodNameFromOrdinal, WellPlaced, Find, Weight, InZoneOnly, Ords;
      var total := GetTotalVReplicasInZone(ps, zone);
      ghost var own := InZoneOnly(ps, zone);
      placed, left := placed0, left0;
      ghost var s := Zoned(Alloc(st.View(), placed, left), total);
      OrdsAt(own);
      for j := 0 to |ordinals|
        invariant SpreadZone(s, own, spread)
                  == SpreadZone(Zoned(Alloc(st.View(), placed, left), total), own[j..], spread)
      {
        OwnPlacement(ps, zone, j);
        var p := GetPlacementFromPodOrdinal(ps, ordinals[j]);
        assert own[j..][0] == p && own[j..][1..] == own[j + 1..];
        var f := st.Free(ordinals[j]);
        if left >= 0 && f > 0 && total < spread {
          var n := Min(left, Min(f, spread - total));
          placed := placed + [Placement(p.podName, p.zoneName, p.vreplicas + n)];
          left := left - n;
          st.SetFree(ordinals[j], f - n);
          total := total + n;
        } else {
          placed := placed + [p];
        }
      }
    }

    method SpreadOverOwnPods(
      st: State, diff: int, ps: seq<Placement>, spread: int)
      returns (placed: seq<Placement>, left: int)
      requires WellPlaced(cfg.name, ps)
      modifies st`free
      ensures Alloc(st.View(), placed, left) == SpreadZones(Alloc(old(st.View()), [], diff), ps, ZonesOf(ps), spread)
    {
      hide OrdinalFromPodName, PodNameFromOrdinal, WellPlaced, Weight, InZoneOnly, SpreadZone, Ords;
      placed, left := [], diff;
      ghost var a0 := Alloc(st.View(), [], diff);
      var byZone := GetPlacementsByZoneKey(ps);
      var zones := ZonesOf(ps);
      ZonesOfLaw(ps);
      for i := 0 to |zones|
        invariant SpreadZones(a0, ps, zones, spread)
                  == SpreadZones(Alloc(st.View(), placed, left), ps, zones[i..], spread)
      {
        assert zones[i] in zones;
        placed, left := SpreadOverZone(st, left, placed, ps, zones[i], byZone[zones[i]], spread);
        assert zones[i..][0] == zones[i] && zones[i..][1..] == zones[i + 1..];
      }
    }

    method GetZoneNameFromPod(st: State, pods: map<string, string>, podName: string) returns (zone: Option<string>)
      ensures zone == ZoneOfPod(Cluster(pods, st.nodeToZone), podName)
    {
      if podName !in pods {
        return None;
      }
      var node := pods[podName];
      if node !in st.nodeToZone {
        return None;
      }
      return Some(st.nodeToZone[node]);
    }

    method SpreadOverOtherPods(st: State, pods: map<string, string>, placed0: seq<Placement>, left0: int, spread: int)
      returns (placed: seq<Placement>, left: int)
      requires left0 > 0
      modifies st`free
      ensures Alloc(st.View(), placed, left)
           == SpreadNew(
                Alloc(old(st.View()), placed0, left0), Cluster(pods, st.nodeToZone), cfg.name, 0, replicas, spread)
    {
      hide OrdinalFromPodName, PodNameFromOrdinal, ZoneOfPod, Weight;
      placed, left := placed0, left0;
      ghost var a, c := Alloc(st.View(), placed, left), Cluster(pods, st.nodeToZone);
      var ordinal := 0;
      while ordinal < replicas
        invariant 0 <= ordinal && left != 0
        invariant SpreadNew(a, c, cfg.name, 0, replicas, spread)
                  == SpreadNew(Alloc(st.View(), placed, left), c, cfg.name, ordinal, replicas, spread)
        decreases replicas - ordinal
      {
        var f := st.Free(ordinal);
        if f > 0 {
          var podName := PodNameFromOrdinal(cfg.name, ordinal);
          var zone := GetZoneNameFromPod(st, pods, podName);
          if zone.None? {
            ordinal := ordinal + 1;
            continue;
          }
          var total := GetTotalVReplicasInZone(placed, zone.value);
          if total >= spread {
            ordinal := ordinal + 1;
            continue;
          }
          var n := Min(left, Min(f, spread - total));
          placed := placed + [Placement(podName, zone.value, n)];
          left := left - n;
          st.SetFree(ordinal, f - n);
        }
        if left == 0 {
          break;
        }
        ordinal := ordinal + 1;
      }
    }

    // ----- one call -----

    /** The total of what is pending, whatever the order of the map. */
    method PendingVReplicas() returns (t: int)
      ensures t == PendingTotal(pending)
    {
      t := 0;
      var keys := pending.Keys;
      while keys != {}
        invariant keys <= pending.Keys && t + SumOver(keys, PendingOf(pending)) == PendingTotal(pending)
        decreases keys
      {
        var k :| k in keys;
        SumRemove(keys, PendingOf(pending), k);
        t := t + pending[k];
        keys := keys - {k};
      }
    }

    method UpdateStatefulset(specReplicas: Option<int>)
      modifies this`replicas
      ensures replicas == if specReplicas.Some? then specReplicas.value else 1
    {
      if specReplicas.None? {
        replicas := 1;
      } else if replicas != specReplicas.value {
        replicas := specReplicas.value;
      }
    }

    method ReservePlacements(vpod: VPod, ps: seq<Placement>)
      modifies this`reserved
      ensures reserved == Reserve(old(reserved), vpod.key, vpod.placements, ps)
    {
      for i := 0 to |ps|
        invariant Reserve(old(reserved), vpod.key, vpod.placements, ps)
                  == Reserve(reserved, vpod.key, vpod.placements, ps[i..])
      {
        var e := GetPlacementForPod(vpod.placements, ps[i].podName);
        var placed := if e.Some? then e.value.vreplicas else 0;
        if ps[i].vreplicas > placed {
          var rs := if vpod.key in reserved then reserved[vpod.key] else map[];
          reserved := reserved[vpod.key := rs[ps[i].podName := ps[i].vreplicas]];
        }
        assert ps[i..][0] == ps[i] && ps[i..][1..] == ps[i + 1..];
      }
    }

    /** The new placements of the vpod, before they are ordered and reserved; on failure the autoscaler is told the
        total that is pending. */
    method ScheduleVPod(vpod: VPod, w: World) returns (out: Outcome, hint: Option<int>)
      requires WellCalled(cfg, View(), vpod, w)
      modifies this`pending, this`reserved
      ensures w.vpods.None? ==> out == Unavailable && View() == old(View())
      ensures w.vpods.Some? ==>
                var b := Build(cfg.capacity, w.vpods.value, old(reserved), w.order);
                && reserved == b.reserved
                && (cfg.policy.EVENSPREAD? && w.nodes.None? ==> out == Unavailable && pending == old(pending))
                && (!(cfg.policy.EVENSPREAD? && w.nodes.None?) ==>
                      var a := Rearrange(cfg, Zones(cfg, w).0, Zones(cfg, w).1, replicas, b.snap, vpod);
                      && pending == UpdatePending(old(pending), vpod, a.left)
                      && out == (if a.left > 0 then NotEnoughReplicas(a.placed) else Scheduled(a.placed)))
      ensures hint == if out.NotEnoughReplicas? then Some(PendingTotal(pending)) else None
    {
      hide OrdinalFromPodName, PodNameFromOrdinal, Once, AllCanonical, Build, AccountVPods, Enumerates, Sound,
           RemoveReplicasEvenSpread, RemoveReplicas, AddReplicasEvenSpread, AddReplicas, ZonesOf, Weight;
      hint := None;
      var st, left;
      st, left := BuildState(cfg, w, reserved);
      reserved := left;
      if st == null {
        return Unavailable, None;
      }
      var ps, v := vpod.placements, vpod.vreplicas;
      var tr := GetTotalVReplicas(ps);
      if tr == v {
        pending := pending - {vpod.key};
        return Scheduled(ps), None;
      }
      if tr > v {
        if st.policy == EVENSPREAD {
          var spread := v / st.numZones;
          ps := RemoveFromZones(tr - v, ps, spread);
        } else {
          ps := RemoveFromEnd(tr - v, ps);
        }
        return Scheduled(ps), None;
      }
      var missing;
      if st.policy == EVENSPREAD {
        var spread := Ceil(v, st.numZones);
        ps, missing := SpreadOverPods(st, w.pods, v - tr, ps, spread);
      } else {
        ps, missing := FillPods(st, v - tr, ps);
      }
      if missing > 0 {
        pending := pending[vpod.key := missing];
        var total := PendingVReplicas();
        return NotEnoughReplicas(ps), Some(total);
      }
      pending := pending - {vpod.key};
      return Scheduled(ps), None;
    }

    /** Place a vpod: the result is what the specification says of the memory before, and so is the memory after. */
    method Schedule(vpod: VPod, w: World) returns (out: Outcome, hint: Option<int>)
      requires WellCalled(cfg, View(), vpod, w)
      modifies this`pending, this`reserved
      ensures (View(), out) == Scheduling.Schedule(cfg, old(View()), vpod, w)
      ensures hint == if out.NotEnoughReplicas? then Some(PendingTotal(pending)) else None
    {
      hide OrdinalFromPodName, PodNameFromOrdinal, Once, AllCanonical, Build, Pruned, Enumerates, Sound, Rearrange,
           Reserve, SortByOrdinal;
      out, hint := ScheduleVPod(vpod, w);
      if out.Unavailable? {
        return;
      }
      var ps := SortByOrdinal(out.placements);
      ReservePlacements(vpod, ps);
      out := out.(placements := ps);
    }
  }

  lemma {:induction false} FindOwn(name: string, ps: seq<Placement>, p: Placement)
    requires WellPlaced(name, ps) && p in ps
    ensures Canonical(name, p) && Find(ps, PodNameFromOrdinal(name, Ord(p))) == Some(p)
  {
    hide OrdinalFromPodName, PodNameFromOrdinal;
    if ps[0] != p {
      TailOnce(name, ps);
      FindOwn(name, ps[1..], p);
      HeadAndTail(name, ps, Ord(p));
      if Ord(ps[0]) == Ord(p) {
        var i :| 0 <= i < |ps[1..]| && ps[1..][i] == p;
        EntryIsListed(ps[1..], i);
      }
    }
  }
}
