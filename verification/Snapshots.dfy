/** The free-capacity snapshot the scheduler and the autoscaler work on, rebuilt from committed placements and
    uncommitted reservations (pkg/common/scheduler/statefulset/state.go). */
module Snapshots {
  import opened PodNames
  import opened Placements
  import opened Arithmetic
  import opened Sequences

  datatype Key = NamespacedName(namespace: string, name: string)

  datatype VPod = VPod(key: Key, vreplicas: int, placements: seq<Placement>)

  /** Reserved virtual replicas by vpod and pod name. */
  type Reserved = map<Key, map<string, int>>

  /** The committed placements of every vpod. */
  type Committed = map<Key, seq<Placement>>

  // ----- the growable array used as a map with a default -----

  function Grow(slice: seq<int>, ordinal: nat, def: int): (r: seq<int>)
    ensures |r| == Max(|slice|, ordinal + 1) && slice <= r
    ensures forall i :: |slice| <= i < |r| ==> r[i] == def
  {
    slice + seq(Max(0, ordinal + 1 - |slice|), _ => def)
  }

  datatype Snapshot = Snapshot(free: seq<int>, capacity: int) {

    function Free(ordinal: nat): int {
      if |free| <= ordinal then capacity else free[ordinal]
    }

    /** Growing the array to reach an ordinal leaves every other ordinal as it was. */
    function SetFree(ordinal: nat, value: int): (r: Snapshot)
      ensures r.capacity == capacity && |r.free| == Max(|free|, ordinal + 1)
      ensures forall i: nat :: r.Free(i) == if i == ordinal then value else Free(i)
    {
      Snapshot(Grow(free, ordinal, capacity)[ordinal := value], capacity)
    }
  }

  // ----- accounting -----

  /** A snapshot under construction: the free array, the last ordinal in use, and the reservations still standing. */
  datatype Building = Building(snap: Snapshot, last: int, reserved: Reserved)

  function Charge(b: Building, ordinal: nat, vreplicas: int): Building {
    var f := b.snap.Free(ordinal) - vreplicas;
    b.(snap := b.snap.SetFree(ordinal, f),
       last := if ordinal > b.last && f != b.snap.capacity then ordinal else b.last)
  }

  function ReservedFor(reserved: Reserved, key: Key, podName: string): int {
    if key in reserved && podName in reserved[key] then reserved[key][podName] else 0
  }

  /** The count to charge for a committed placement, and the reservations left: one that is exactly committed is
      dropped, and so is a key without reservations. */
  function WithReserved(key: Key, podName: string, committed: int, reserved: Reserved): (int, Reserved) {
    if key !in reserved || podName !in reserved[key] then (committed, reserved)
    else if committed < reserved[key][podName] then (reserved[key][podName], reserved)
    else if committed == reserved[key][podName] then
      var rest := reserved[key] - {podName};
      (committed, if rest == map[] then reserved - {key} else reserved[key := rest])
    else (committed, reserved)
  }

  function AccountPlacement(b: Building, key: Key, p: Placement): Building {
    var (vreplicas, reserved) := WithReserved(key, p.podName, p.vreplicas, b.reserved);
    Charge(b.(reserved := reserved), Ord(p), vreplicas)
  }

  function AccountPlacements(b: Building, key: Key, ps: seq<Placement>): Building
    decreases ps
  {
    if ps == [] then b else AccountPlacements(AccountPlacement(b, key, ps[0]), key, ps[1..])
  }

  function AccountVPods(b: Building, vpods: seq<VPod>): Building
    decreases vpods
  {
    if vpods == [] then b
    else AccountVPods(AccountPlacements(b, vpods[0].key, vpods[0].placements), vpods[1..])
  }

  function PodSet(ps: seq<Placement>): set<string> {
    set i | 0 <= i < |ps| :: ps[i].podName
  }

  /** The order in which a run over the map of reservations visits one key and its pods. */
  datatype Visit = Visit(key: Key, pods: seq<string>)

  function Amount(rs: map<string, int>, pod: string): int {
    if pod in rs then rs[pod] else 0
  }

  /** The pods of one key: the run over them stops at the first one that is already placed. */
  function AccountPods(b: Building, placed: set<string>, rs: map<string, int>, pods: seq<string>): Building
    decreases pods
  {
    if pods == [] || pods[0] in placed then b
    else AccountPods(Charge(b, OrdinalFromPodName(pods[0]), Amount(rs, pods[0])), placed, rs, pods[1..])
  }

  function PlacedFor(committed: Committed, key: Key): set<string> {
    if key in committed then PodSet(committed[key]) else {}
  }

  function ReservedOf(reserved: Reserved, key: Key): map<string, int> {
    if key in reserved then reserved[key] else map[]
  }

  function AccountReserved(b: Building, committed: Committed, order: seq<Visit>): Building
    decreases order
  {
    if order == [] then b
    else
      var v := order[0];
      AccountReserved(AccountPods(b, PlacedFor(committed, v.key), ReservedOf(b.reserved, v.key), v.pods), committed,
          order[1..])
  }

  lemma {:induction false} AccountPodsKeepsReserved(
    b: Building, placed: set<string>, rs: map<string, int>, pods: seq<string>)
    ensures AccountPods(b, placed, rs, pods).reserved == b.reserved
    ensures AccountPods(b, placed, rs, pods).snap.capacity == b.snap.capacity
    decreases pods
  {
    hide OrdinalFromPodName;
    if pods != [] && pods[0] !in placed {
      AccountPodsKeepsReserved(Charge(b, OrdinalFromPodName(pods[0]), Amount(rs, pods[0])), placed, rs, pods[1..]);
    }
  }

  // ----- lists, maps and the orders they are visited in -----

  predicate DistinctKeys(vpods: seq<VPod>) {
    forall i, j :: 0 <= i < j < |vpods| ==> vpods[i].key != vpods[j].key
  }

  /** The placements recorded by a list of vpods. */
  function CommittedOf(vpods: seq<VPod>): Committed {
    if vpods == [] then map[]
    else
      var n := |vpods| - 1;
      CommittedOf(vpods[..n])[vpods[n].key := vpods[n].placements]
  }

  function KeySet(vpods: seq<VPod>): set<Key> {
    set i | 0 <= i < |vpods| :: vpods[i].key
  }

  function VisitSet(order: seq<Visit>): set<Key> {
    set i | 0 <= i < |order| :: order[i].key
  }

  predicate DistinctVisits(order: seq<Visit>) {
    forall i, j :: 0 <= i < j < |order| ==> order[i].key != order[j].key
  }

  predicate Covers(v: Visit, reserved: Reserved) {
    v.key in reserved && Distinct(v.pods) && Elements(v.pods) == reserved[v.key].Keys
  }

  /** The order visits every key and every pod of the map exactly once. */
  predicate Enumerates(order: seq<Visit>, reserved: Reserved) {
    && DistinctVisits(order)
    && VisitSet(order) == reserved.Keys
    && forall i :: 0 <= i < |order| ==> Covers(order[i], reserved)
  }

  function Empty(capacity: int, reserved: Reserved): Building {
    Building(Snapshot([], capacity), -1, reserved)
  }

  /** The reservations left after the run over the committed placements. */
  function Pruned(capacity: int, vpods: seq<VPod>, reserved: Reserved): Reserved {
    AccountVPods(Empty(capacity, reserved), vpods).reserved
  }

  /** The finished snapshot. */
  function Build(capacity: int, vpods: seq<VPod>, reserved: Reserved, order: seq<Visit>): Building {
    AccountReserved(AccountVPods(Empty(capacity, reserved), vpods), CommittedOf(vpods), order)
  }
}
