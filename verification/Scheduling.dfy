/** One call of Schedule as a function of the scheduler's memory and of what it is shown
    (pkg/common/scheduler/statefulset/scheduler.go). */
module Scheduling {
  import opened Options
  import opened PodNames
  import opened Placements
  import opened Arithmetic
  import opened Sums
  import opened Snapshots
  import opened SnapshotLaws
  import opened FillUp
  import opened EvenSpread

  datatype Policy = MAXFILLUP | EVENSPREAD

  datatype Node = Node(name: string, zone: Option<string>)

  /** What never changes: the statefulset's name, the capacity of a pod and the policy. */
  datatype Setting = Setting(name: string, capacity: int, policy: Policy)

  /** What the scheduler carries from call to call. */
  datatype Memory = Memory(replicas: int, pending: map<Key, int>, reserved: Reserved)

  /** What one call is shown: the listed vpods, the order the map of reservations is visited in, the nodes, and the
      node of each pod. A list that cannot be fetched is None. */
  datatype World = World(
    vpods: Option<seq<VPod>>, order: seq<Visit>, nodes: Option<seq<Node>>, pods: map<string, string>)

  datatype Outcome =
    | Unavailable
    | Scheduled(placements: seq<Placement>)
    | NotEnoughReplicas(placements: seq<Placement>)

  // ----- zones of the cluster -----

  /** Nodes without a zone label are ignored. */
  function NodeToZone(nodes: seq<Node>): map<string, string> {
    if nodes == [] then map[]
    else
      var n := |nodes| - 1;
      var m := NodeToZone(nodes[..n]);
      if nodes[n].zone.Some? then m[nodes[n].name := nodes[n].zone.value] else m
  }

  function ZoneNames(nodes: seq<Node>): set<string> {
    set i | 0 <= i < |nodes| && nodes[i].zone.Some? :: nodes[i].zone.value
  }

  predicate InZoneOf(nodes: seq<Node>, node: string, zone: string) {
    exists i :: 0 <= i < |nodes| && nodes[i] == Node(node, Some(zone))
  }

  predicate DistinctNodes(nodes: seq<Node>) {
    forall i, j :: 0 <= i < j < |nodes| ==> nodes[i].name != nodes[j].name
  }

  lemma {:induction false} NodeToZoneLaw(nodes: seq<Node>, node: string, zone: string)
    ensures node in NodeToZone(nodes) && NodeToZone(nodes)[node] == zone ==> InZoneOf(nodes, node, zone)
    ensures DistinctNodes(nodes) && InZoneOf(nodes, node, zone) ==>
            node in NodeToZone(nodes) && NodeToZone(nodes)[node] == zone
    decreases |nodes|
  {
    if nodes != [] {
      var n := |nodes| - 1;
      NodeToZoneLaw(nodes[..n], node, zone);
      if i :| 0 <= i < n && nodes[..n][i] == Node(node, Some(zone)) { assert nodes[i] == Node(node, Some(zone)); }
      if i :| 0 <= i < n && nodes[i] == Node(node, Some(zone)) { assert nodes[..n][i] == Node(node, Some(zone)); }
    }
  }

  /** The zone found for a pod is the label of the node it runs on, and it is one of the zones replicas are spread
      over; with distinct node names, a pod on a labelled node always has one. */
  lemma ZoneOfPodLaw(nodes: seq<Node>, pods: map<string, string>, podName: string, zone: string)
    ensures var found := ZoneOfPod(Cluster(pods, NodeToZone(nodes)), podName);
            && (found == Some(zone) ==>
                 podName in pods && InZoneOf(nodes, pods[podName], zone) && zone in ZoneNames(nodes))
            && (DistinctNodes(nodes) && podName in pods && InZoneOf(nodes, pods[podName], zone) ==> found == Some(zone))
  {
    hide NodeToZone;
    if podName in pods { NodeToZoneLaw(nodes, pods[podName], zone); }
  }

  // ----- ordering the result -----

  function InsertByOrdinal(p: Placement, ps: seq<Placement>): seq<Placement> {
    if ps == [] || Ord(p) <= Ord(ps[0]) then [p] + ps else [ps[0]] + InsertByOrdinal(p, ps[1..])
  }

  /** A stable sort by ordinal. */
  function SortByOrdinal(ps: seq<Placement>): seq<Placement> {
    if ps == [] then [] else InsertByOrdinal(ps[0], SortByOrdinal(ps[1..]))
  }

  lemma {:induction false} InsertKeepsWeight(p: Placement, ps: seq<Placement>, w: Placement -> int)
    ensures Weight(InsertByOrdinal(p, ps), w) == w(p) + Weight(ps, w)
  {
    hide OrdinalFromPodName;
    if ps != [] && Ord(p) > Ord(ps[0]) {
      InsertKeepsWeight(p, ps[1..], w);
    }
  }

  lemma {:induction false} SortKeepsWeight(ps: seq<Placement>, w: Placement -> int)
    ensures Weight(SortByOrdinal(ps), w) == Weight(ps, w)
  {
    hide OrdinalFromPodName;
    if ps != [] {
      SortKeepsWeight(ps[1..], w);
      InsertKeepsWeight(ps[0], SortByOrdinal(ps[1..]), w);
    }
  }

  predicate Ordered(ps: seq<Placement>) {
    forall i, j :: 0 <= i < j < |ps| ==> Ord(ps[i]) <= Ord(ps[j])
  }

  predicate StrictlyOrdered(ps: seq<Placement>) {
    forall i, j :: 0 <= i < j < |ps| ==> Ord(ps[i]) < Ord(ps[j])
  }

  lemma {:induction false} InsertOrders(p: Placement, ps: seq<Placement>)
    requires Ordered(ps)
    ensures Ordered(InsertByOrdinal(p, ps))
    ensures forall q :: q in InsertByOrdinal(p, ps) <==> q == p || q in ps
  {
    hide OrdinalFromPodName;
    if ps != [] && Ord(p) > Ord(ps[0]) {
      InsertOrders(p, ps[1..]);
      var r := InsertByOrdinal(p, ps[1..]);
      forall j | 0 <= j < |r| ensures Ord(ps[0]) <= Ord(r[j]) {
        assert r[j] in r;
      }
    }
  }

  lemma {:induction false} SortOrders(ps: seq<Placement>)
    ensures Ordered(SortByOrdinal(ps))
    ensures forall q :: q in SortByOrdinal(ps) <==> q in ps
  {
    hide OrdinalFromPodName;
    if ps != [] {
      SortOrders(ps[1..]);
      InsertOrders(ps[0], SortByOrdinal(ps[1..]));
    }
  }

  lemma SortLaw(name: string, ps: seq<Placement>)
    requires WellPlaced(name, ps)
    ensures WellPlaced(name, SortByOrdinal(ps)) && StrictlyOrdered(SortByOrdinal(ps))
    ensures Total(SortByOrdinal(ps)) == Total(ps)
    ensures forall o: nat :: CountAt(SortByOrdinal(ps), o) == CountAt(ps, o)
  {
    hide OrdinalFromPodName, PodNameFromOrdinal, Canonical, Weight, SortByOrdinal;
    var r := SortByOrdinal(ps);
    SortOrders(ps);
    SortKeepsWeight(ps, Replicas());
    forall o: nat ensures CountAt(r, o) == CountAt(ps, o) && Listings(r, o) <= 1 {
      SortKeepsWeight(ps, OnOrdinal(o));
      SortKeepsWeight(ps, ListedOn(o));
      assert Listings(ps, o) <= 1;
    }
    forall i | 0 <= i < |r| ensures Canonical(name, r[i]) {
      assert r[i] in r;
    }
    forall i, j | 0 <= i < j < |r| ensures Ord(r[i]) < Ord(r[j]) {
      if Ord(r[i]) == Ord(r[j]) { TwiceListed(r, i, j); }
    }
  }

  // ----- reserving the result -----

  function ReserveOne(reserved: Reserved, key: Key, existing: seq<Placement>, p: Placement): Reserved {
    var e := Find(existing, p.podName);
    var placed := if e.Some? then e.value.vreplicas else 0;
    if p.vreplicas > placed then
      var rs := if key in reserved then reserved[key] else map[];
      reserved[key := rs[p.podName := p.vreplicas]]
    else reserved
  }

  /** Placements beyond the existing ones are recorded until they are committed. */
  function Reserve(reserved: Reserved, key: Key, existing: seq<Placement>, ps: seq<Placement>): Reserved
    decreases ps
  {
    if ps == [] then reserved else Reserve(ReserveOne(reserved, key, existing, ps[0]), key, existing, ps[1..])
  }

  /** What a reservation is after a call: the new count where it exceeds the committed one, and as before elsewhere. */
  lemma {:induction false} ReserveAt(
    name: string, reserved: Reserved, key: Key, existing: seq<Placement>, ps: seq<Placement>, o: nat)
    requires WellPlaced(name, existing) && WellPlaced(name, ps) && GoodReserved(name, reserved) && o <= MAX_INT32
    ensures ReservedAt(name, Reserve(reserved, key, existing, ps), key, o)
         == if CountAt(ps, o) > CountAt(existing, o) then CountAt(ps, o) else ReservedAt(name, reserved, key, o)
    decreases ps
  {
    hide OrdinalFromPodName, PodNameFromOrdinal, Find;
    CountsNonNegative(name, existing, o);
    if ps != [] {
      var p := ps[0];
      var reserved1 := ReserveOne(reserved, key, existing, p);
      TailOnce(name, ps);
      HeadAndTail(name, ps, o);
      ReserveOneKeeps(name, reserved, key, existing, p);
      ReserveAt(name, reserved1, key, existing, ps[1..], o);
      FindGivesCount(name, existing, Ord(p));
    }
  }

  lemma ReserveOneKeeps(name: string, reserved: Reserved, key: Key, existing: seq<Placement>, p: Placement)
    requires WellPlaced(name, existing) && Canonical(name, p) && GoodReserved(name, reserved)
    ensures var r := ReserveOne(reserved, key, existing, p);
            && GoodReserved(name, r)
            && reserved.Keys <= r.Keys <= reserved.Keys + {key}
            && forall k :: k in reserved && k != key ==> r[k] == reserved[k]
  {
    hide OrdinalFromPodName, PodNameFromOrdinal, Find;
    FindGivesCount(name, existing, Ord(p));
    CountsNonNegative(name, existing, Ord(p));
  }

  lemma {:induction false} ReserveKeeps(
    name: string, reserved: Reserved, key: Key, existing: seq<Placement>, ps: seq<Placement>)
    requires WellPlaced(name, existing) && AllCanonical(name, ps) && GoodReserved(name, reserved)
    ensures var r := Reserve(reserved, key, existing, ps);
            && GoodReserved(name, r)
            && reserved.Keys <= r.Keys <= reserved.Keys + {key}
            && forall k :: k in reserved && k != key ==> r[k] == reserved[k]
    decreases ps
  {
    hide OrdinalFromPodName, PodNameFromOrdinal, ReserveOne;
    if ps != [] {
      ReserveOneKeeps(name, reserved, key, existing, ps[0]);
      ReserveKeeps(name, ReserveOne(reserved, key, existing, ps[0]), key, existing, ps[1..]);
    }
  }

  // ----- one call -----

  /** The new placements before ordering, with what could not be placed. */
  function Rearrange(cfg: Setting, numZones: int, c: Cluster, replicas: int, snap: Snapshot, vpod: VPod): Alloc
    requires 0 <= vpod.vreplicas && (cfg.policy.EVENSPREAD? ==> 0 < numZones)
  {
    var ps, v := vpod.placements, vpod.vreplicas;
    var tr := Total(ps);
    if tr == v then Alloc(snap, ps, 0)
    else if tr > v then
      match cfg.policy
      case EVENSPREAD => Alloc(snap, RemoveReplicasEvenSpread(tr - v, ps, v / numZones), 0)
      case MAXFILLUP => Alloc(snap, RemoveReplicas(tr - v, ps, []), 0)
    else
      match cfg.policy
      case EVENSPREAD => AddReplicasEvenSpread(snap, c, cfg.name, replicas, v - tr, ps, Ceil(v, numZones))
      case MAXFILLUP => AddReplicas(snap, cfg.name, replicas, v - tr, ps)
  }

  /** Pending replicas are cleared by success, recorded by failure, and not touched by scaling down. */
  function UpdatePending(pending: map<Key, int>, vpod: VPod, left: int): map<Key, int> {
    if Total(vpod.placements) > vpod.vreplicas then pending
    else if left > 0 then pending[vpod.key := left]
    else pending - {vpod.key}
  }

  /** The total handed to the autoscaler as a hint. */
  ghost function PendingTotal(pending: map<Key, int>): int {
    SumOver(pending.Keys, PendingOf(pending))
  }

  function PendingOf(pending: map<Key, int>): Key -> int {
    (k: Key) => if k in pending then pending[k] else 0
  }

  /** Under EVENSPREAD some node must carry a zone. */
  predicate Answers(cfg: Setting, w: World) {
    cfg.policy.EVENSPREAD? && w.nodes.Some? ==> ZoneNames(w.nodes.value) != {}
  }

  function Zones(cfg: Setting, w: World): (int, Cluster) {
    if cfg.policy.EVENSPREAD? && w.nodes.Some? then
      (|ZoneNames(w.nodes.value)|, Cluster(w.pods, NodeToZone(w.nodes.value)))
    else (0, Cluster(w.pods, map[]))
  }

  function Schedule(cfg: Setting, memory: Memory, vpod: VPod, w: World): (Memory, Outcome)
    requires 0 <= vpod.vreplicas && Answers(cfg, w)
  {
    if w.vpods.None? then (memory, Unavailable)
    else
      var b := Build(cfg.capacity, w.vpods.value, memory.reserved, w.order);
      if cfg.policy.EVENSPREAD? && w.nodes.None? then (memory.(reserved := b.reserved), Unavailable)
      else
        var (numZones, c) := Zones(cfg, w);
        var a := Rearrange(cfg, numZones, c, memory.replicas, b.snap, vpod);
        var ps := SortByOrdinal(a.placed);
        var memory' := Memory(memory.replicas, UpdatePending(memory.pending, vpod, a.left),
                              Reserve(b.reserved, vpod.key, vpod.placements, ps));
        (memory', if a.left > 0 then NotEnoughReplicas(ps) else Scheduled(ps))
  }

  // ----- what one call promises -----

  /** When replicas may be added under EVENSPREAD, recorded zones are current or there is only one zone. */
  predicate ZonesCurrent(cfg: Setting, numZones: int, c: Cluster, replicas: int, vpod: VPod) {
    cfg.policy.EVENSPREAD? && Total(vpod.placements) < vpod.vreplicas ==>
      numZones == 1 || ZonesMatch(c, vpod.placements, replicas)
  }

  /** The vpod does not occupy more zones than the cluster has when replicas are removed under EVENSPREAD. */
  predicate ZonesSuffice(cfg: Setting, numZones: int, vpod: VPod) {
    cfg.policy.EVENSPREAD? && Total(vpod.placements) > vpod.vreplicas ==> |ZonesOf(vpod.placements)| <= numZones
  }

  /** Whatever the policy and the direction: replicas are accounted for, no pod is given more than it has, and counts
      move in one direction only. */
  lemma RearrangeLaw(cfg: Setting, numZones: int, c: Cluster, replicas: int, snap: Snapshot, vpod: VPod)
    requires 0 <= vpod.vreplicas && (cfg.policy.EVENSPREAD? ==> 0 < numZones) && replicas <= MAX_INT32
    requires WellPlaced(cfg.name, vpod.placements)
    ensures var a := Rearrange(cfg, numZones, c, replicas, snap, vpod);
            var ps, v := vpod.placements, vpod.vreplicas;
            && 0 <= a.left && AllCanonical(cfg.name, a.placed)
            && (ZonesSuffice(cfg, numZones, vpod) ==> Total(a.placed) + a.left == v)
            && (ZonesCurrent(cfg, numZones, c, replicas, vpod) ==> WellPlaced(cfg.name, a.placed))
            && (Total(ps) <= v ==> forall o: nat ::
                 CountAt(ps, o) <= CountAt(a.placed, o) <= CountAt(ps, o) + Pos(snap.Free(o)))
            && (Total(ps) >= v ==> a.left == 0 && forall o: nat :: CountAt(a.placed, o) <= CountAt(ps, o))
  {
    hide OrdinalFromPodName, PodNameFromOrdinal, Canonical, Weight, RemoveReplicas, RemoveReplicasEvenSpread,
         AddReplicas, AddReplicasEvenSpread;
    var a := Rearrange(cfg, numZones, c, replicas, snap, vpod);
    var ps, v, name := vpod.placements, vpod.vreplicas, cfg.name;
    var tr := Total(ps);
    if tr > v {
      if cfg.policy.EVENSPREAD? {
        SpreadIsNonNegative(v, numZones);
        RemoveReplicasEvenSpreadLaw(name, tr - v, ps, v / numZones);
        if ZonesSuffice(cfg, numZones, vpod) { ScaleDownIsExact(name, v, numZones, ps); }
      } else {
        RemoveReplicasLaw(name, tr - v, ps);
      }
      forall o: nat ensures CountAt(a.placed, o) <= CountAt(ps, o) {
        assert ShrinksAt(ps, a.placed, o);
      }
    } else if tr < v {
      var a0 := Alloc(snap, [], v - tr);
      if cfg.policy.EVENSPREAD? {
        AddReplicasEvenSpreadLaw(snap, c, name, replicas, v - tr, ps, Ceil(v, numZones));
        CeilLaw(v, 1, v);
      } else {
        AddReplicasLaw(snap, name, replicas, v - tr, ps);
      }
      WeightNil(Replicas());
      forall o: nat ensures CountAt(ps, o) <= CountAt(a.placed, o) <= CountAt(ps, o) + Pos(snap.Free(o)) {
        WeightNil(OnOrdinal(o));
        assert ExtendsAt(a0, ps, a, o);
      }
    }
  }

  /** A call to add replicas, whatever is wanted and free, lists no pod twice: this holds exactly if the cluster has a
      single zone or no pod has moved to another zone than the one recorded. */
  lemma ListedOnceIff(cfg: Setting, numZones: int, c: Cluster, replicas: int, key: Key, ps: seq<Placement>)
    requires cfg.policy.EVENSPREAD? && 0 < numZones && replicas <= MAX_INT32 && WellPlaced(cfg.name, ps)
    ensures numZones == 1 || ZonesMatch(c, ps, replicas) <==>
            forall snap, v: nat :: Plausible(snap, ps) && Total(ps) <= v ==>
              Once(Rearrange(cfg, numZones, c, replicas, snap, VPod(key, v, ps)).placed)
  {
    hide OrdinalFromPodName, PodNameFromOrdinal, AddReplicasEvenSpread, Plausible, Weight, RoomOnly, Moved, Ceil;
    if numZones == 1 || ZonesMatch(c, ps, replicas) {
      forall snap, v: nat ensures Once(Rearrange(cfg, numZones, c, replicas, snap, VPod(key, v, ps)).placed) {
        RearrangeLaw(cfg, numZones, c, replicas, snap, VPod(key, v, ps));
      }
    } else {
      var i :| 0 <= i < |ps| && Moved(c, ps[i], replicas);
      var snap, v := MovedCounterexample(cfg, numZones, c, replicas, key, ps, i);
      assert !Once(Rearrange(cfg, numZones, c, replicas, snap, VPod(key, v, ps)).placed);
    }
  }

  /** With two or more zones, a pod that has moved is listed twice by some call. */
  lemma MovedCounterexample(
    cfg: Setting, numZones: int, c: Cluster, replicas: int, key: Key, ps: seq<Placement>, i: nat)
    returns (snap: Snapshot, v: nat)
    requires cfg.policy.EVENSPREAD? && 1 < numZones && replicas <= MAX_INT32 && WellPlaced(cfg.name, ps)
    requires i < |ps| && Moved(c, ps[i], replicas)
    ensures Plausible(snap, ps) && Total(ps) < v
    ensures Listings(Rearrange(cfg, numZones, c, replicas, snap, VPod(key, v, ps)).placed, Ord(ps[i])) >= 2
  {
    hide OrdinalFromPodName, PodNameFromOrdinal, AddReplicasEvenSpread, Plausible, Weight, RoomOnly, Moved, Ceil;
    var tr := Total(ps);
    ZoneWithinTotal(cfg.name, ps, ps[i].zoneName);
    v := (tr + 1) * numZones;
    MulMonotone(2, numZones, tr + 1);
    assert v == numZones * (tr + 1) >= 2 * (tr + 1);
    CeilLaw(v, numZones, tr + 1);
    SpreadOfMultiple(v, numZones, tr + 1);
    RoomOnlyIsPlausible(cfg.name, ps, Ord(ps[i]), v - tr);
    snap := RoomOnly(Ord(ps[i]), v - tr, tr + (v - tr));
    MovedIsListedTwice(snap, c, cfg.name, replicas, v - tr, ps, tr + 1, i);
  }

  lemma SpreadOfMultiple(v: nat, n: int, q: nat)
    requires 0 < n && v == q * n
    ensures Ceil(v, n) == q
  {
    hide Ceil;
    CeilLaw(v, n, q);
    if Ceil(v, n) < q { MulMonotone(Ceil(v, n), q - 1, n); }
  }

  lemma SpreadIsNonNegative(v: nat, n: int)
    requires 0 < n
    ensures 0 <= v / n
  {
  }

  /** What a well-formed call is given. */
  ghost predicate WellCalled(cfg: Setting, memory: Memory, vpod: VPod, w: World) {
    && 0 <= vpod.vreplicas && WellPlaced(cfg.name, vpod.placements)
    && memory.replicas <= MAX_INT32
    && Answers(cfg, w)
    && (w.vpods.Some? ==>
          && Sound(cfg.name, w.vpods.value, memory.reserved)
          && Enumerates(w.order, Pruned(cfg.capacity, w.vpods.value, memory.reserved)))
  }

  /** Schedule end to end. Success means exactly the wanted number of replicas is placed; failure means what is
      missing is positive and recorded as pending. The result is in strictly increasing ordinal order, names no pod
      twice, and moves counts in one direction only. */
  lemma ScheduleLaw(cfg: Setting, memory: Memory, vpod: VPod, w: World)
    requires WellCalled(cfg, memory, vpod, w)
    ensures var (memory', out) := Schedule(cfg, memory, vpod, w);
            var (numZones, c) := Zones(cfg, w);
            var ps, v := vpod.placements, vpod.vreplicas;
            && memory'.replicas == memory.replicas
            && (out.Unavailable? <==> w.vpods.None? || (cfg.policy.EVENSPREAD? && w.nodes.None?))
            && (out.Unavailable? ==> memory'.pending == memory.pending)
            && (out.Scheduled? && ZonesSuffice(cfg, numZones, vpod) ==> Total(out.placements) == v)
            && (out.NotEnoughReplicas? ==>
                  vpod.key in memory'.pending && 0 < memory'.pending[vpod.key]
                  && Total(out.placements) + memory'.pending[vpod.key] == v)
            && (forall k :: k != vpod.key ==> (k in memory'.pending <==> k in memory.pending))
            && (forall k :: k != vpod.key && k in memory.pending ==> memory'.pending[k] == memory.pending[k])
            && (out.Scheduled? && Total(ps) <= v ==> vpod.key !in memory'.pending)
            && (Total(ps) > v ==> memory'.pending == memory.pending)
            && (!out.Unavailable? && ZonesCurrent(cfg, numZones, c, memory.replicas, vpod) ==>
                  StrictlyOrdered(out.placements) && WellPlaced(cfg.name, out.placements))
            && (!out.Unavailable? && Total(ps) <= v ==> forall o: nat :: CountAt(ps, o) <= CountAt(out.placements, o))
            && (!out.Unavailable? && Total(ps) >= v ==> forall o: nat :: CountAt(out.placements, o) <= CountAt(ps, o))
  {
    hide OrdinalFromPodName, PodNameFromOrdinal, Canonical, Weight, Rearrange, SortByOrdinal, Reserve, Build, Sound,
         Enumerates, WellPlaced;
    var (numZones, c) := Zones(cfg, w);
    if w.vpods.Some? && !(cfg.policy.EVENSPREAD? && w.nodes.None?) {
      var b := Build(cfg.capacity, w.vpods.value, memory.reserved, w.order);
      var a := Rearrange(cfg, numZones, c, memory.replicas, b.snap, vpod);
      RearrangeLaw(cfg, numZones, c, memory.replicas, b.snap, vpod);
      SortKeepsWeight(a.placed, Replicas());
      forall o: nat ensures CountAt(SortByOrdinal(a.placed), o) == CountAt(a.placed, o) {
        SortKeepsWeight(a.placed, OnOrdinal(o));
      }
      if ZonesCurrent(cfg, numZones, c, memory.replicas, vpod) { SortLaw(cfg.name, a.placed); }
      if a.left > 0 { assert Total(vpod.placements) < vpod.vreplicas; }
    }
  }

  // ----- which pods MAXFILLUP uses -----

  /** The vpod was given all that was free on the pod. */
  predicate Full(snap: Snapshot, before: seq<Placement>, after: seq<Placement>, o: nat) {
    snap.Free(o) <= CountAt(after, o) - CountAt(before, o)
  }

  predicate Gains(before: seq<Placement>, after: seq<Placement>, o: nat) {
    CountAt(after, o) > CountAt(before, o)
  }

  /** Scaling up: the vpod's own pods gain in list order, each only after those before it are full; another pod gains
      only if it is in the statefulset, and after all own pods and all pods with a lower ordinal are full; and
      replicas are left over only if all of these are full. */
  ghost predicate FillsUp(snap: Snapshot, replicas: int, before: seq<Placement>, after: seq<Placement>, short: bool) {
    && (forall i, j :: 0 <= i < j < |before| && Gains(before, after, Ord(before[j])) ==>
          Full(snap, before, after, Ord(before[i])))
    && (forall o: nat :: o !in OrdSet(before) && Gains(before, after, o) ==>
          && o < replicas
          && (forall i :: 0 <= i < |before| ==> Full(snap, before, after, Ord(before[i])))
          && (forall x: nat :: x < o ==> Full(snap, before, after, x)))
    && (short ==>
          && (forall i :: 0 <= i < |before| ==> Full(snap, before, after, Ord(before[i])))
          && (forall x: nat :: x < replicas ==> Full(snap, before, after, x)))
  }

  /** Scaling down: an entry loses something only after every later one lost all. */
  ghost predicate TakenFromEnd(before: seq<Placement>, after: seq<Placement>) {
    forall i, j :: 0 <= i < j < |before| && CountAt(after, Ord(before[j])) > 0 ==>
      CountAt(after, Ord(before[i])) == before[i].vreplicas
  }

  lemma AddReplicasFillsUp(snap: Snapshot, name: string, replicas: int, diff: int, ps: seq<Placement>)
    requires 0 <= diff && WellPlaced(name, ps) && replicas <= MAX_INT32
    ensures var r := AddReplicas(snap, name, replicas, diff, ps); FillsUp(snap, replicas, ps, r.placed, r.left > 0)
  {
    hide OrdinalFromPodName, PodNameFromOrdinal, AddReplicas, Extends, Once, Canonical, Weight;
    var a0, r := Alloc(snap, [], diff), AddReplicas(snap, name, replicas, diff, ps);
    AddReplicasLaw(snap, name, replicas, diff, ps);
    AddReplicasOrder(snap, name, replicas, diff, ps);
    AddReplicasStaysIn(snap, name, replicas, diff, ps);
    forall o: nat ensures Full(snap, ps, r.placed, o) <==> r.snap.Free(o) <= 0 { GainIsGiven(a0, ps, r, o); }
    forall j | 0 <= j < |ps| ensures Gains(ps, r.placed, Ord(ps[j])) <==> r.placed[j].vreplicas > ps[j].vreplicas {
      assert r.placed[j] == r.placed[..|ps|][j];
      CountOfEntry(name, ps, j);
      CountOfEntry(name, r.placed, j);
    }
    forall o: nat | o !in OrdSet(ps) && Gains(ps, r.placed, o)
      ensures o < replicas && |ps| < |r.placed| && forall x: nat :: x < o ==> r.snap.Free(x) <= 0
    {
      NewPodIsListed(ps, r.placed, o);
      var j :| |ps| <= j < |r.placed| && Ord(r.placed[j]) == o;
      EntryInOrdSet(r.placed, j);
    }
  }

  lemma NewPodIsListed(ps: seq<Placement>, qs: seq<Placement>, o: nat)
    requires |ps| <= |qs| && Raises(ps, qs[..|ps|]) && o !in OrdSet(ps) && Gains(ps, qs, o)
    ensures exists j :: |ps| <= j < |qs| && Ord(qs[j]) == o
  {
    hide OrdinalFromPodName;
    CountOutside(ps, o);
    if o !in OrdSet(qs) { CountOutside(qs, o); }
    forall i | 0 <= i < |ps| ensures Ord(qs[i]) in OrdSet(ps) {
      assert qs[i] == qs[..|ps|][i];
      EntryInOrdSet(ps, i);
    }
  }

  /** Filling and taking concern only the counts per pod, not the order of the list. */
  lemma FillsAlike(
    snap: Snapshot, replicas: int, before: seq<Placement>, after: seq<Placement>, sorted: seq<Placement>, short: bool)
    requires forall o: nat :: CountAt(sorted, o) == CountAt(after, o)
    ensures FillsUp(snap, replicas, before, after, short) ==> FillsUp(snap, replicas, before, sorted, short)
    ensures TakenFromEnd(before, after) ==> TakenFromEnd(before, sorted)
  {
    hide OrdinalFromPodName, Weight;
    forall o: nat
      ensures Full(snap, before, sorted, o) <==> Full(snap, before, after, o)
      ensures Gains(before, sorted, o) <==> Gains(before, after, o)
    {
    }
  }

  /** Which pods a call of Schedule uses under MAXFILLUP, in terms of the snapshot and the counts before and after. */
  lemma ScheduleFills(cfg: Setting, memory: Memory, vpod: VPod, w: World)
    requires WellCalled(cfg, memory, vpod, w) && cfg.policy.MAXFILLUP? && w.vpods.Some?
    ensures var out := Schedule(cfg, memory, vpod, w).1;
            var snap := Build(cfg.capacity, w.vpods.value, memory.reserved, w.order).snap;
            var ps, v := vpod.placements, vpod.vreplicas;
            && !out.Unavailable?
            && (Total(ps) < v ==> FillsUp(snap, memory.replicas, ps, out.placements, out.NotEnoughReplicas?))
            && (Total(ps) > v ==> TakenFromEnd(ps, out.placements))
            && (Total(ps) == v ==> forall o: nat :: CountAt(out.placements, o) == CountAt(ps, o))
  {
    hide OrdinalFromPodName, PodNameFromOrdinal, Canonical, Weight, SortByOrdinal, Reserve, Build, Sound, Enumerates,
         Once, FillsUp, AddReplicas, RemoveReplicas;
    var ps, v, b := vpod.placements, vpod.vreplicas, Build(cfg.capacity, w.vpods.value, memory.reserved, w.order);
    var a := Rearrange(cfg, 0, Zones(cfg, w).1, memory.replicas, b.snap, vpod);
    var out := Schedule(cfg, memory, vpod, w).1;
    assert out.placements == SortByOrdinal(a.placed);
    forall o: nat ensures CountAt(out.placements, o) == CountAt(a.placed, o) {
        SortKeepsWeight(a.placed, OnOrdinal(o)); }
    if Total(ps) < v {
      AddReplicasFillsUp(b.snap, cfg.name, memory.replicas, v - Total(ps), ps);
    } else if Total(ps) > v {
      RemoveReplicasLaw(cfg.name, Total(ps) - v, ps);
    }
    FillsAlike(b.snap, memory.replicas, ps, a.placed, out.placements, a.left > 0);
  }

  // ----- what EVENSPREAD promises about zones -----

  /** The least share s with which n zones hold v replicas. */
  predicate LeastShare(v: int, n: int, s: int) {
    (s - 1) * n < v <= s * n
  }

  /** The greatest share s that v replicas give to each of n zones. */
  predicate GreatestShare(v: int, n: int, s: int) {
    n * s <= v < n * (s + 1)
  }

  lemma SharesAre(v: nat, n: int)
    requires 0 < n
    ensures LeastShare(v, n, Ceil(v, n)) && GreatestShare(v, n, v / n) && 0 <= v / n
  {
    hide Ceil;
    CeilLaw(v, n, 0);
    FloorLaw(v, n);
    assert (Ceil(v, n) - 1) * n == Ceil(v, n) * n - n;
    assert n * (v / n + 1) == n * (v / n) + n;
  }

  /** The pod can take no more of the vpod's replicas: nothing known of it is free any longer, or its zone has its
      share, or it is not known to run in any zone. */
  ghost predicate Exhausted(
    snap: Snapshot, c: Cluster, name: string, before: seq<Placement>, after: seq<Placement>, o: nat, share: int)
  {
    var zone := ZoneOfPod(c, PodNameFromOrdinal(name, o));
    || zone.None?
    || snap.Free(o) <= CountAt(after, o) - CountAt(before, o)
    || share <= ZoneTotal(after, zone.value)
  }

  /** Scaling up: with the least share that suffices for all replicas, no zone gets more than its share unless it had
      more, and replicas are left over only if every pod is exhausted. */
  ghost predicate SpreadsUp(
    snap: Snapshot, c: Cluster, name: string, replicas: int, n: int, v: int, before: seq<Placement>,
        after: seq<Placement>,
    short: bool)
  {
    exists share :: LeastShare(v, n, share) && UpTo(snap, c, name, replicas, before, after, short, share)
  }

  ghost predicate UpTo(
    snap: Snapshot, c: Cluster, name: string, replicas: int, before: seq<Placement>, after: seq<Placement>, short: bool,
    share: int)
  {
    && (forall z :: ZoneTotal(before, z) <= ZoneTotal(after, z) <= Max(ZoneTotal(before, z), share))
    && (short ==> forall o: nat :: o < replicas ==> Exhausted(snap, c, name, before, after, o, share))
  }

  /** Scaling down: with the greatest share every zone can have, every zone keeps its share or all it had. */
  ghost predicate SpreadsDown(n: int, v: int, before: seq<Placement>, after: seq<Placement>) {
    exists share :: GreatestShare(v, n, share) && forall z :: ZoneTotal(after, z) >= Min(ZoneTotal(before, z), share)
  }

  lemma RearrangeSpreads(cfg: Setting, numZones: int, c: Cluster, replicas: int, snap: Snapshot, vpod: VPod)
    requires cfg.policy.EVENSPREAD? && 0 <= vpod.vreplicas && 0 < numZones && replicas <= MAX_INT32
    requires WellPlaced(cfg.name, vpod.placements)
    ensures var a := Rearrange(cfg, numZones, c, replicas, snap, vpod);
            var ps, v := vpod.placements, vpod.vreplicas;
            && (Total(ps) < v ==> SpreadsUp(snap, c, cfg.name, replicas, numZones, v, ps, a.placed, a.left > 0))
            && (Total(ps) > v ==> SpreadsDown(numZones, v, ps, a.placed))
  {
    hide OrdinalFromPodName, PodNameFromOrdinal, Canonical, Weight, RemoveReplicasEvenSpread, AddReplicasEvenSpread,
         Ceil, LeastShare, GreatestShare, Extends;
    var a := Rearrange(cfg, numZones, c, replicas, snap, vpod);
    var ps, v := vpod.placements, vpod.vreplicas;
    SharesAre(v, numZones);
    if Total(ps) < v {
      var a0, share := Alloc(snap, [], v - Total(ps)), Ceil(v, numZones);
      AddReplicasEvenSpreadLaw(snap, c, cfg.name, replicas, v - Total(ps), ps, share);
      if a.left > 0 {
        forall o: nat | o < replicas ensures Exhausted(snap, c, cfg.name, ps, a.placed, o, share) {
          assert !CanTake(a, c, cfg.name, o, share);
          GainIsGiven(a0, ps, a, o);
        }
      }
      assert UpTo(snap, c, cfg.name, replicas, ps, a.placed, a.left > 0, share);
    } else if Total(ps) > v {
      RemoveReplicasEvenSpreadLaw(cfg.name, Total(ps) - v, ps, v / numZones);
      assert GreatestShare(v, numZones, v / numZones);
    }
  }

  /** Spreading concerns only the zone totals and the counts per pod, not the order of the list. */
  lemma SpreadsAlike(
    snap: Snapshot, c: Cluster, name: string, replicas: int, n: int, v: int, before: seq<Placement>,
        after: seq<Placement>,
    sorted: seq<Placement>, short: bool)
    requires forall z :: ZoneTotal(sorted, z) == ZoneTotal(after, z)
    requires forall o: nat :: CountAt(sorted, o) == CountAt(after, o)
    ensures SpreadsUp(snap, c, name, replicas, n, v, before, after, short) ==>
              SpreadsUp(snap, c, name, replicas, n, v, before, sorted, short)
    ensures SpreadsDown(n, v, before, after) ==> SpreadsDown(n, v, before, sorted)
  {
    hide OrdinalFromPodName, PodNameFromOrdinal, Weight, LeastShare, GreatestShare;
    if SpreadsUp(snap, c, name, replicas, n, v, before, after, short) {
      var share :| LeastShare(v, n, share) && UpTo(snap, c, name, replicas, before, after, short, share);
      if short {
        forall o: nat | o < replicas ensures Exhausted(snap, c, name, before, sorted, o, share) {
          assert Exhausted(snap, c, name, before, after, o, share);
        }
      }
      assert UpTo(snap, c, name, replicas, before, sorted, short, share);
    }
  }

  /** The zones after a call of Schedule under EVENSPREAD, in terms of what is wanted and of the number of zones. */
  lemma ScheduleSpreads(cfg: Setting, memory: Memory, vpod: VPod, w: World)
    requires WellCalled(cfg, memory, vpod, w) && cfg.policy.EVENSPREAD? && w.vpods.Some? && w.nodes.Some?
    ensures var out := Schedule(cfg, memory, vpod, w).1;
            var n, c := |ZoneNames(w.nodes.value)|, Cluster(w.pods, NodeToZone(w.nodes.value));
            var snap := Build(cfg.capacity, w.vpods.value, memory.reserved, w.order).snap;
            var ps, v := vpod.placements, vpod.vreplicas;
            && 0 < n && !out.Unavailable?
            && (Total(ps) < v ==>
                  SpreadsUp(snap, c, cfg.name, memory.replicas, n, v, ps, out.placements, out.NotEnoughReplicas?))
            && (Total(ps) > v ==> SpreadsDown(n, v, ps, out.placements))
  {
    hide OrdinalFromPodName, PodNameFromOrdinal, Canonical, Weight, Rearrange, SortByOrdinal, Reserve, Build, Sound,
         Enumerates, WellPlaced, SpreadsUp, SpreadsDown, NodeToZone, ZoneNames;
    var ps, v, b := vpod.placements, vpod.vreplicas, Build(cfg.capacity, w.vpods.value, memory.reserved, w.order);
    var n, c := |ZoneNames(w.nodes.value)|, Cluster(w.pods, NodeToZone(w.nodes.value));
    var a := Rearrange(cfg, n, c, memory.replicas, b.snap, vpod);
    var out := Schedule(cfg, memory, vpod, w).1;
    RearrangeSpreads(cfg, n, c, memory.replicas, b.snap, vpod);
    assert out.placements == SortByOrdinal(a.placed);
    forall z ensures ZoneTotal(out.placements, z) == ZoneTotal(a.placed, z) { SortKeepsWeight(a.placed, InZone(z)); }
    forall o: nat ensures CountAt(out.placements, o) == CountAt(a.placed, o) {
        SortKeepsWeight(a.placed, OnOrdinal(o)); }
    SpreadsAlike(b.snap, c, cfg.name, memory.replicas, n, v, ps, a.placed, out.placements, a.left > 0);
  }
}
