/** The snapshot object and the loops that build it (pkg/common/scheduler/statefulset/state.go). */
module State {
  import opened PodNames
  import opened Placements
  import opened Sums
  import opened Snapshots
  import opened FillUp
  import opened Scheduling

  /** A snapshot; free is grown and overwritten in place while replicas are handed out. */
  class State {
    var free: seq<int>
    const lastOrdinal: int
    const capacity: int
    const numZones: int
    const policy: Policy
    const nodeToZone: map<string, string>

    constructor (
      free: seq<int>, lastOrdinal: int, capacity: int, numZones: int, policy: Policy, nodeToZone: map<string, string>)
      ensures this.free == free && this.lastOrdinal == lastOrdinal && this.capacity == capacity
      ensures this.numZones == numZones && this.policy == policy && this.nodeToZone == nodeToZone
    {
      this.free, this.lastOrdinal, this.capacity := free, lastOrdinal, capacity;
      this.numZones, this.policy, this.nodeToZone := numZones, policy, nodeToZone;
    }

    function View(): Snapshot
      reads this
    {
      Snapshot(free, capacity)
    }

    method Free(ordinal: nat) returns (f: int)
      ensures f == View().Free(ordinal)
    {
      if |free| <= ordinal {
        return capacity;
      }
      return free[ordinal];
    }

    method SetFree(ordinal: nat, value: int)
      modifies this`free
      ensures View() == old(View()).SetFree(ordinal, value)
    {
      free := GrowSlice(free, ordinal, capacity);
      free := free[ordinal := value];
    }

    /** The free capacity of the pods up to the last ordinal. */
    method FreeCapacity() returns (t: int)
      requires -1 <= lastOrdinal < |free|
      ensures t == SumOver(Below(lastOrdinal + 1), FreeOf(View()))
    {
      t := 0;
      var i := 0;
      while i <= lastOrdinal
        invariant 0 <= i <= lastOrdinal + 1
        invariant t == SumOver(Below(i), FreeOf(View()))
      {
        SumAdd<nat>(Below(i), FreeOf(View()), i);
        t := t + free[i];
        i := i + 1;
      }
    }
  }

  method GrowSlice(slice: seq<int>, ordinal: nat, def: int) returns (r: seq<int>)
    ensures r == Grow(slice, ordinal, def)
  {
    r := slice;
    var diff := ordinal - |slice| + 1;
    if diff <= 0 {
      return;
    }
    for i := 0 to diff
      invariant r == slice + seq(i, _ => def)
    {
      r := r + [def];
    }
  }

  method UpdateFreeCapacity(
    free: seq<int>, last: int, podName: string, vreplicas: int, capacity: int, ghost reserved: Reserved)
    returns (free': seq<int>, last': int)
    ensures Building(Snapshot(free', capacity), last', reserved)
         == Charge(Building(Snapshot(free, capacity), last, reserved), OrdinalFromPodName(podName), vreplicas)
  {
    hide OrdinalFromPodName;
    var ordinal := OrdinalFromPodName(podName);
    last' := last;
    free' := GrowSlice(free, ordinal, capacity);
    free' := free'[ordinal := free'[ordinal] - vreplicas];
    if ordinal > last && free'[ordinal] != capacity {
      last' := ordinal;
    }
  }

  lemma PodSetStart(ps: seq<Placement>)
    ensures PodSet(ps[..0]) == {}
  {
  }

  lemma PodSetStep(ps: seq<Placement>, j: nat)
    requires j < |ps|
    ensures PodSet(ps[..j + 1]) == PodSet(ps[..j]) + {ps[j].podName}
  {
    assert forall i :: 0 <= i < j ==> ps[..j + 1][i] == ps[..j][i];
    assert ps[..j + 1][j] == ps[j];
  }

  /** The placements of one vpod. */
  method AccountOne(capacity: int, free: seq<int>, last: int, reserved: Reserved, vpod: VPod)
    returns (free': seq<int>, last': int, left: Reserved, pods: set<string>)
    ensures Building(Snapshot(free', capacity), last', left)
         == AccountPlacements(Building(Snapshot(free, capacity), last, reserved), vpod.key, vpod.placements)
    ensures pods == PodSet(vpod.placements)
  {
    hide OrdinalFromPodName, PodSet, WithReserved, Charge;
    var key, ps := vpod.key, vpod.placements;
    PodSetStart(ps);
    ghost var b := Building(Snapshot(free, capacity), last, reserved);
    free', last', left, pods := free, last, reserved, {};
    for j := 0 to |ps|
      invariant AccountPlacements(b, key, ps)
                == AccountPlacements(Building(Snapshot(free', capacity), last', left), key, ps[j..])
      invariant pods == PodSet(ps[..j])
    {
      var (vreplicas, reserved') := WithReserved(key, ps[j].podName, ps[j].vreplicas, left);
      free', last' := UpdateFreeCapacity(free', last', ps[j].podName, vreplicas, capacity, reserved');
      left := reserved';
      PodSetStep(ps, j);
      pods := pods + {ps[j].podName};
      assert ps[j..][0] == ps[j] && ps[j..][1..] == ps[j + 1..];
    }
    assert ps[..|ps|] == ps;
  }

  /** The run over the committed placements, which also drops the reservations that have been committed. */
  method AccountCommitted(capacity: int, vpods: seq<VPod>, reserved: Reserved)
    returns (free: seq<int>, last: int, left: Reserved, withPlacement: map<Key, set<string>>)
    ensures Building(Snapshot(free, capacity), last, left) == AccountVPods(Empty(capacity, reserved), vpods)
    ensures withPlacement.Keys == CommittedOf(vpods).Keys
    ensures forall k :: k in withPlacement ==> withPlacement[k] == PodSet(CommittedOf(vpods)[k])
  {
    hide OrdinalFromPodName, AccountPlacements, PodSet;
    free, last, left, withPlacement := [], -1, reserved, map[];
    for i := 0 to |vpods|
      invariant AccountVPods(Empty(capacity, reserved), vpods)
             == AccountVPods(Building(Snapshot(free, capacity), last, left), vpods[i..])
      invariant withPlacement.Keys == CommittedOf(vpods[..i]).Keys
      invariant forall k :: k in withPlacement ==> withPlacement[k] == PodSet(CommittedOf(vpods[..i])[k])
    {
      var pods;
      free, last, left, pods := AccountOne(capacity, free, last, left, vpods[i]);
      withPlacement := withPlacement[vpods[i].key := pods];
      assert vpods[i..][0] == vpods[i] && vpods[i..][1..] == vpods[i + 1..];
      assert vpods[..i + 1][..i] == vpods[..i];
    }
    assert vpods[..|vpods|] == vpods;
  }

  /** The run over the reservations, in the order the map yields them. */
  method AccountUncommitted(
    capacity: int, free: seq<int>, last: int, reserved: Reserved, withPlacement: map<Key, set<string>>,
    order: seq<Visit>, ghost committed: Committed)
    returns (free': seq<int>, last': int)
    requires withPlacement.Keys == committed.Keys
    requires forall k :: k in withPlacement ==> withPlacement[k] == PodSet(committed[k])
    ensures Building(Snapshot(free', capacity), last', reserved)
         == AccountReserved(Building(Snapshot(free, capacity), last, reserved), committed, order)
  {
    hide OrdinalFromPodName;
    free', last' := free, last;
    for i := 0 to |order|
      invariant AccountReserved(Building(Snapshot(free, capacity), last, reserved), committed, order)
             == AccountReserved(Building(Snapshot(free', capacity), last', reserved), committed, order[i..])
    {
      var v := order[i];
      ghost var b := Building(Snapshot(free', capacity), last', reserved);
      ghost var placed := PlacedFor(committed, v.key);
      var rs := ReservedOf(reserved, v.key);
      var j := 0;
      while j < |v.pods|
        invariant 0 <= j <= |v.pods|
        invariant AccountPods(b, placed, rs, v.pods)
                  == AccountPods(Building(Snapshot(free', capacity), last', reserved), placed, rs, v.pods[j..])
      {
        if v.key in withPlacement && v.pods[j] in withPlacement[v.key] {
          // already accounted for; the remaining pods of this key are skipped as well
          break;
        }
        free', last' := UpdateFreeCapacity(free', last', v.pods[j], Amount(rs, v.pods[j]), capacity, reserved);
        assert v.pods[j..][1..] == v.pods[j + 1..];
        j := j + 1;
      }
      assert AccountPods(b, placed, rs, v.pods) == Building(Snapshot(free', capacity), last', reserved);
      assert order[i..][0] == v && order[i..][1..] == order[i + 1..];
    }
  }

  /** The zones of the nodes that have one. */
  method ReadZones(nodes: seq<Node>) returns (nodeToZone: map<string, string>, numZones: int)
    ensures nodeToZone == NodeToZone(nodes) && numZones == |ZoneNames(nodes)|
  {
    nodeToZone := map[];
    var zones := {};
    for i := 0 to |nodes|
      invariant nodeToZone == NodeToZone(nodes[..i]) && zones == ZoneNames(nodes[..i])
    {
      assert nodes[..i + 1][..i] == nodes[..i];
      if nodes[i].zone.Some? {
        assert ZoneNames(nodes[..i + 1]) == ZoneNames(nodes[..i]) + {nodes[i].zone.value} by {
          ZoneNamesStep(nodes, i);
        }
        nodeToZone := nodeToZone[nodes[i].name := nodes[i].zone.value];
        zones := zones + {nodes[i].zone.value};
      } else {
        assert ZoneNames(nodes[..i + 1]) == ZoneNames(nodes[..i]) by { ZoneNamesStep(nodes, i); }
      }
    }
    assert nodes[..|nodes|] == nodes;
    numZones := |zones|;
  }

  lemma ZoneNamesStep(nodes: seq<Node>, i: nat)
    requires i < |nodes|
    ensures ZoneNames(nodes[..i + 1])
         == ZoneNames(nodes[..i]) + if nodes[i].zone.Some? then {nodes[i].zone.value} else {}
  {
    assert forall j :: 0 <= j < i ==> nodes[..i + 1][j] == nodes[..i][j];
    assert nodes[..i + 1][i] == nodes[i];
  }

  /** Rebuild the snapshot from scratch. The reservations left are returned even if the nodes cannot be listed. */
  method BuildState(cfg: Setting, w: World, reserved: Reserved) returns (st: State?, left: Reserved)
    ensures w.vpods.None? ==> st == null && left == reserved
    ensures w.vpods.Some? ==>
              var b := Build(cfg.capacity, w.vpods.value, reserved, w.order);
              && left == b.reserved
              && (st == null <==> cfg.policy.EVENSPREAD? && w.nodes.None?)
              && (st != null ==>
                    && fresh(st) && st.View() == b.snap && st.lastOrdinal == b.last && st.policy == cfg.policy
                    && st.numZones == Zones(cfg, w).0 && st.nodeToZone == Zones(cfg, w).1.nodeToZone)
  {
    hide OrdinalFromPodName, AccountVPods, AccountReserved;
    if w.vpods.None? {
      return null, reserved;
    }
    var free, last, withPlacement;
    free, last, left, withPlacement := AccountCommitted(cfg.capacity, w.vpods.value, reserved);
    ghost var committed := CommittedOf(w.vpods.value);
    free, last := AccountUncommitted(cfg.capacity, free, last, left, withPlacement, w.order, committed);
    assert Build(cfg.capacity, w.vpods.value, reserved, w.order) == Building(Snapshot(free, cfg.capacity), last, left);
    if cfg.policy == EVENSPREAD {
      if w.nodes.None? {
        return null, left;
      }
      var nodeToZone, numZones := ReadZones(w.nodes.value);
      st := new State(free, last, cfg.capacity, numZones, cfg.policy, nodeToZone);
      return;
    }
    st := new State(free, last, cfg.capacity, 0, cfg.policy, map[]);
  }
}
