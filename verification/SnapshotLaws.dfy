/** What a snapshot says about the demand on each pod, for every list order and every map order. */
module SnapshotLaws {
  import opened PodNames
  import opened Placements
  import opened Arithmetic
  import opened Sums
  import opened Sequences
  import opened Snapshots

  function CommittedAt(committed: Committed, key: Key, o: nat): int {
    if key in committed then CountAt(committed[key], o) else 0
  }

  function ReservedAt(name: string, reserved: Reserved, key: Key, o: nat): int {
    ReservedFor(reserved, key, PodNameFromOrdinal(name, o))
  }

  /** What a vpod claims of a pod: the larger of what is committed and what is reserved. */
  function Claim(name: string, committed: Committed, reserved: Reserved, key: Key, o: nat): int {
    Max(CommittedAt(committed, key, o), ReservedAt(name, reserved, key, o))
  }

  function Claims(name: string, committed: Committed, reserved: Reserved, o: nat): Key -> int {
    (k: Key) => Claim(name, committed, reserved, k, o)
  }

  /** The demand on the pod with ordinal o. */
  ghost function Demand(name: string, committed: Committed, reserved: Reserved, o: nat): int {
    SumOver(committed.Keys + reserved.Keys, Claims(name, committed, reserved, o))
  }

  predicate CanonicalPod(name: string, pod: string) {
    pod == PodNameFromOrdinal(name, OrdinalFromPodName(pod))
  }

  /** Reservations name pods of the statefulset and are positive. */
  predicate GoodReserved(name: string, reserved: Reserved) {
    forall k :: k in reserved ==> GoodPods(name, reserved[k])
  }

  predicate GoodPods(name: string, rs: map<string, int>) {
    forall pod :: pod in rs ==> CanonicalPod(name, pod) && 0 < rs[pod]
  }

  ghost predicate GoodCommitted(name: string, committed: Committed) {
    forall k :: k in committed ==> WellPlaced(name, committed[k])
  }

  /** A key holds both a reservation on a pod where it is placed and one on a pod where it is not. */
  predicate Mixed(committed: Committed, reserved: Reserved, key: Key) {
    && key in reserved
    && (exists pod :: pod in reserved[key] && pod in PlacedFor(committed, key))
    && (exists pod :: pod in reserved[key] && pod !in PlacedFor(committed, key))
  }

  ghost predicate NoMix(committed: Committed, reserved: Reserved) {
    forall k :: k in reserved ==> !Mixed(committed, reserved, k)
  }

  // ----- the last ordinal -----

  /** The last ordinal is the greatest one whose pod is not entirely free, or -1, and it lies inside the free array. */
  ghost predicate Tight(b: Building) {
    && -1 <= b.last < |b.snap.free| && b.last <= MAX_INT32
    && (0 <= b.last ==> b.snap.Free(b.last) != b.snap.capacity)
    && (forall o: nat :: b.last < o ==> b.snap.Free(o) == b.snap.capacity)
    && (forall o: nat :: b.snap.Free(o) <= b.snap.capacity)
  }

  lemma ChargeKeepsTight(b: Building, ordinal: nat, vreplicas: nat)
    requires Tight(b) && ordinal <= MAX_INT32
    ensures Tight(Charge(b, ordinal, vreplicas))
  {
  }

  // ----- committed placements -----

  /** How the reservations change when a committed placement is accounted for. */
  lemma WithReservedLaw(name: string, key: Key, podName: string, committed: nat, reserved: Reserved)
    requires GoodReserved(name, reserved)
    ensures var (v, reserved') := WithReserved(key, podName, committed, reserved);
            && v == Max(committed, ReservedFor(reserved, key, podName))
            && GoodReserved(name, reserved')
            && reserved'.Keys <= reserved.Keys <= reserved'.Keys + {key}
            && Max(committed, ReservedFor(reserved', key, podName)) == v
            && ReservedFor(reserved', key, podName)
               == (if ReservedFor(reserved, key, podName) == committed then 0 else ReservedFor(reserved, key, podName))
            && (forall k :: k in reserved && k != key ==> k in reserved' && reserved'[k] == reserved[k])
            && (forall pod :: pod != podName ==> ReservedFor(reserved', key, pod) == ReservedFor(reserved, key, pod))
            && (key in reserved && key !in reserved' ==> reserved[key].Keys == {podName})
            && (key in reserved' ==> reserved'[key] != map[] || reserved' == reserved)
  {
    hide OrdinalFromPodName, PodNameFromOrdinal;
    var (v, reserved') := WithReserved(key, podName, committed, reserved);
    if key in reserved && podName in reserved[key] && committed == reserved[key][podName] {
      var rest := reserved[key] - {podName};
      assert forall pod :: pod in rest <==> pod in reserved[key] && pod != podName;
      if rest == map[] {
        assert forall pod :: pod in reserved[key] ==> pod == podName;
      }
    }
  }

  /** What a vpod is charged on o for the placements it holds. */
  function Charged(name: string, reserved: Reserved, key: Key, ps: seq<Placement>, o: nat): int {
    if Listings(ps, o) == 0 then 0 else Max(CountAt(ps, o), ReservedAt(name, reserved, key, o))
  }

  lemma {:induction false} AccountPlacementsKeeps(name: string, b: Building, key: Key, ps: seq<Placement>)
    requires Tight(b) && AllCanonical(name, ps) && GoodReserved(name, b.reserved)
    ensures var b' := AccountPlacements(b, key, ps);
            && Tight(b') && GoodReserved(name, b'.reserved) && b'.snap.capacity == b.snap.capacity
            && b'.reserved.Keys <= b.reserved.Keys <= b'.reserved.Keys + {key}
            && forall k :: k in b.reserved && k != key ==> k in b'.reserved && b'.reserved[k] == b.reserved[k]
    decreases ps
  {
    hide OrdinalFromPodName, PodNameFromOrdinal;
    if ps != [] {
      var p := ps[0];
      var b1 := AccountPlacement(b, key, p);
      WithReservedLaw(name, key, p.podName, p.vreplicas, b.reserved);
      ChargeKeepsTight(b, Ord(p), Max(p.vreplicas, ReservedFor(b.reserved, key, p.podName)));
      AccountPlacementsKeeps(name, b1, key, ps[1..]);
    }
  }

  /** The charge on one ordinal, and what becomes of the reservation there: an exactly committed one is dropped,
      which leaves the claim as it was. */
  lemma {:induction false} AccountPlacementsAt(name: string, b: Building, key: Key, ps: seq<Placement>, o: nat)
    requires Tight(b) && WellPlaced(name, ps) && GoodReserved(name, b.reserved) && o <= MAX_INT32
    ensures var b' := AccountPlacements(b, key, ps);
            var before, after := ReservedAt(name, b.reserved, key, o), ReservedAt(name, b'.reserved, key, o);
            && b'.snap.Free(o) == b.snap.Free(o) - Charged(name, b.reserved, key, ps, o)
            && after == (if Listings(ps, o) > 0 && before == CountAt(ps, o) then 0 else before)
    decreases ps
  {
    hide OrdinalFromPodName, PodNameFromOrdinal;
    if ps != [] {
      var p := ps[0];
      var b1 := AccountPlacement(b, key, p);
      WithReservedLaw(name, key, p.podName, p.vreplicas, b.reserved);
      ChargeKeepsTight(b, Ord(p), Max(p.vreplicas, ReservedFor(b.reserved, key, p.podName)));
      TailOnce(name, ps);
      AccountPlacementsAt(name, b1, key, ps[1..], o);
      HeadAndTail(name, ps, o);
    }
  }

  /** In a well-formed list the head is the only entry on its ordinal. */
  lemma HeadAndTail(name: string, ps: seq<Placement>, o: nat)
    requires ps != [] && WellPlaced(name, ps) && o <= MAX_INT32
    ensures ps[0].podName == PodNameFromOrdinal(name, o) <==> Ord(ps[0]) == o
    ensures Ord(ps[0]) == o ==>
              && Listings(ps, o) == 1 && Listings(ps[1..], o) == 0 && CountAt(ps[1..], o) == 0
              && CountAt(ps, o) == ps[0].vreplicas
    ensures Ord(ps[0]) != o ==> Listings(ps, o) == Listings(ps[1..], o) && CountAt(ps, o) == CountAt(ps[1..], o)
  {
    hide OrdinalFromPodName, PodNameFromOrdinal;
    OrdinalRoundTrip(name, o);
    TailOnce(name, ps);
    CountsNonNegative(name, ps[1..], o);
    FindGivesCount(name, ps[1..], o);
    assert Listings(ps, o) <= 1;
  }

  // ----- the list of vpods -----

  /** The list agrees with the map of committed placements and holds no key twice. */
  predicate Agrees(vpods: seq<VPod>, committed: Committed) {
    && DistinctKeys(vpods)
    && forall i :: 0 <= i < |vpods| ==> vpods[i].key in committed && committed[vpods[i].key] == vpods[i].placements
  }

  lemma {:induction false} CommittedOfKeys(vpods: seq<VPod>)
    ensures CommittedOf(vpods).Keys == KeySet(vpods)
  {
    if vpods != [] {
      var n, head := |vpods| - 1, vpods[..|vpods| - 1];
      CommittedOfKeys(head);
      assert vpods == head + [vpods[n]];
      assert forall i :: 0 <= i < n ==> head[i].key == vpods[i].key;
      assert KeySet(vpods) == KeySet(head) + {vpods[n].key};
    }
  }

  lemma {:induction false} CommittedOfAt(vpods: seq<VPod>, i: nat)
    requires DistinctKeys(vpods) && i < |vpods|
    ensures vpods[i].key in CommittedOf(vpods) && CommittedOf(vpods)[vpods[i].key] == vpods[i].placements
  {
    var n := |vpods| - 1;
    if i < n {
      CommittedOfAt(vpods[..n], i);
      assert vpods[i].key != vpods[n].key;
    }
  }

  lemma CommittedOfAgrees(vpods: seq<VPod>)
    requires DistinctKeys(vpods)
    ensures Agrees(vpods, CommittedOf(vpods)) && CommittedOf(vpods).Keys == KeySet(vpods)
  {
    hide CommittedOf;
    CommittedOfKeys(vpods);
    forall i | 0 <= i < |vpods|
      ensures vpods[i].key in CommittedOf(vpods) && CommittedOf(vpods)[vpods[i].key] == vpods[i].placements
    {
      CommittedOfAt(vpods, i);
    }
  }

  lemma KeySetHead(vpods: seq<VPod>)
    requires vpods != []
    ensures KeySet(vpods) == {vpods[0].key} + KeySet(vpods[1..])
    ensures DistinctKeys(vpods) ==> vpods[0].key !in KeySet(vpods[1..]) && DistinctKeys(vpods[1..])
  {
    assert forall i :: 1 <= i < |vpods| ==> vpods[i] == vpods[1..][i - 1];
  }

  function ChargedBy(name: string, committed: Committed, reserved: Reserved, o: nat): Key -> int {
    (k: Key) => if k in committed then Charged(name, reserved, k, committed[k], o) else 0
  }

  lemma {:induction false} AccountVPodsKeeps(name: string, b: Building, vpods: seq<VPod>)
    requires Tight(b) && GoodReserved(name, b.reserved)
    requires forall i :: 0 <= i < |vpods| ==> AllCanonical(name, vpods[i].placements)
    ensures var b' := AccountVPods(b, vpods);
            && Tight(b') && GoodReserved(name, b'.reserved) && b'.snap.capacity == b.snap.capacity
            && b'.reserved.Keys <= b.reserved.Keys <= b'.reserved.Keys + KeySet(vpods)
    decreases vpods
  {
    hide OrdinalFromPodName, PodNameFromOrdinal;
    if vpods != [] {
      KeySetHead(vpods);
      AccountPlacementsKeeps(name, b, vpods[0].key, vpods[0].placements);
      AccountVPodsKeeps(name, AccountPlacements(b, vpods[0].key, vpods[0].placements), vpods[1..]);
    }
  }

  predicate Unlisted(committed: Committed, key: Key, o: nat) {
    key in committed ==> Listings(committed[key], o) == 0
  }

  /** What is left of a reservation: nothing if it is exactly what the vpod holds there, and otherwise all of it. */
  function Left(name: string, committed: Committed, reserved: Reserved, key: Key, o: nat): int {
    if !Unlisted(committed, key, o) && ReservedAt(name, reserved, key, o) == CommittedAt(committed, key, o) then 0
    else ReservedAt(name, reserved, key, o)
  }

  /** What becomes of one key's reservation on one ordinal. */
  lemma {:induction false} AccountVPodsSettles(
    name: string, b: Building, vpods: seq<VPod>, committed: Committed, key: Key, o: nat)
    requires Tight(b) && GoodReserved(name, b.reserved) && o <= MAX_INT32
    requires Agrees(vpods, committed) && GoodCommitted(name, committed)
    ensures var after := AccountVPods(b, vpods).reserved;
            && Claim(name, committed, after, key, o) == Claim(name, committed, b.reserved, key, o)
            && ReservedAt(name, after, key, o)
               == (if key in KeySet(vpods) then Left(name, committed, b.reserved, key, o)
                   else ReservedAt(name, b.reserved, key, o))
    decreases vpods
  {
    hide OrdinalFromPodName, PodNameFromOrdinal, Once, AllCanonical, GoodPods, Weight, AccountPlacements, Tight;
    if vpods != [] {
      var v := vpods[0];
      KeySetHead(vpods);
      AccountPlacementsKeeps(name, b, v.key, v.placements);
      AccountPlacementsAt(name, b, v.key, v.placements, o);
      CountsNonNegative(name, v.placements, o);
      if key in committed { CountsNonNegative(name, committed[key], o); }
      AccountVPodsSettles(name, AccountPlacements(b, v.key, v.placements), vpods[1..], committed, key, o);
    }
  }

  lemma {:induction false} AccountVPodsAt(
    name: string, b: Building, vpods: seq<VPod>, committed: Committed, reserved: Reserved, o: nat)
    requires Tight(b) && GoodReserved(name, b.reserved) && o <= MAX_INT32
    requires Agrees(vpods, committed) && GoodCommitted(name, committed)
    requires forall k :: k in KeySet(vpods) ==> ReservedAt(name, b.reserved, k, o) == ReservedAt(name, reserved, k, o)
    ensures AccountVPods(b, vpods).snap.Free(o)
         == b.snap.Free(o) - SumOver(KeySet(vpods), ChargedBy(name, committed, reserved, o))
    decreases vpods
  {
    hide OrdinalFromPodName, PodNameFromOrdinal;
    if vpods != [] {
      var v := vpods[0];
      var b1 := AccountPlacements(b, v.key, v.placements);
      KeySetHead(vpods);
      AccountPlacementsKeeps(name, b, v.key, v.placements);
      AccountPlacementsAt(name, b, v.key, v.placements, o);
      AccountVPodsAt(name, b1, vpods[1..], committed, reserved, o);
      SumAdd(KeySet(vpods[1..]), ChargedBy(name, committed, reserved, o), v.key);
      assert KeySet(vpods) == KeySet(vpods[1..]) + {v.key};
    }
  }

  // ----- reservations without a placement -----

  /** What the run over the pods of one key charges on o: the run ends at the first placed pod. */
  function Counted(placed: set<string>, rs: map<string, int>, pods: seq<string>, o: nat): int
    decreases pods
  {
    if pods == [] || pods[0] in placed then 0
    else (if OrdinalFromPodName(pods[0]) == o then Amount(rs, pods[0]) else 0) + Counted(placed, rs, pods[1..], o)
  }

  lemma {:induction false} AccountPodsAt(
    name: string, b: Building, placed: set<string>, rs: map<string, int>, pods: seq<string>, o: nat)
    requires Tight(b)
    requires forall i :: 0 <= i < |pods| ==> pods[i] in rs && 0 < rs[pods[i]]
    ensures Tight(AccountPods(b, placed, rs, pods))
    ensures AccountPods(b, placed, rs, pods).snap.Free(o) == b.snap.Free(o) - Counted(placed, rs, pods, o)
    decreases pods
  {
    hide OrdinalFromPodName, PodNameFromOrdinal;
    if pods != [] && pods[0] !in placed {
      ChargeKeepsTight(b, OrdinalFromPodName(pods[0]), Amount(rs, pods[0]));
      AccountPodsAt(name, Charge(b, OrdinalFromPodName(pods[0]), Amount(rs, pods[0])), placed, rs, pods[1..], o);
    }
  }

  /** What the run would charge on o if it never ended early. */
  function Owed(name: string, placed: set<string>, rs: map<string, int>, pods: seq<string>, o: nat): int {
    var pod := PodNameFromOrdinal(name, o);
    if pod in pods && pod !in placed then Amount(rs, pod) else 0
  }

  lemma {:induction false} CountedBound(
    name: string, placed: set<string>, rs: map<string, int>, pods: seq<string>, o: nat)
    requires o <= MAX_INT32 && Distinct(pods)
    requires forall i :: 0 <= i < |pods| ==> pods[i] in rs && 0 < rs[pods[i]] && CanonicalPod(name, pods[i])
    ensures 0 <= Counted(placed, rs, pods, o) <= Owed(name, placed, rs, pods, o)
    ensures (forall i :: 0 <= i < |pods| ==> pods[i] !in placed) ==>
              Counted(placed, rs, pods, o) == Owed(name, placed, rs, pods, o)
    decreases pods
  {
    hide OrdinalFromPodName, PodNameFromOrdinal;
    var pod := PodNameFromOrdinal(name, o);
    OrdinalRoundTrip(name, o);
    if pods != [] && pods[0] !in placed {
      CountedBound(name, placed, rs, pods[1..], o);
      assert pods[0] == pod <==> OrdinalFromPodName(pods[0]) == o;
      assert pod in pods <==> pods[0] == pod || pod in pods[1..];
      assert pods[0] == pod ==> pod !in pods[1..];
    }
  }

  function UnplacedAt(name: string, committed: Committed, reserved: Reserved, key: Key, o: nat): int {
    if PodNameFromOrdinal(name, o) in PlacedFor(committed, key) then 0 else ReservedAt(name, reserved, key, o)
  }

  function UnplacedBy(name: string, committed: Committed, reserved: Reserved, o: nat): Key -> int {
    (k: Key) => UnplacedAt(name, committed, reserved, k, o)
  }

  function CountedIn(committed: Committed, reserved: Reserved, v: Visit, o: nat): int {
    Counted(PlacedFor(committed, v.key), ReservedOf(reserved, v.key), v.pods, o)
  }

  /** One visit charges at most what is owed, all of it when no pod of the key is placed or all are. */
  lemma VisitBound(name: string, committed: Committed, reserved: Reserved, v: Visit, o: nat)
    requires o <= MAX_INT32 && GoodReserved(name, reserved) && Covers(v, reserved)
    ensures forall j :: 0 <= j < |v.pods| ==> v.pods[j] in reserved[v.key] && 0 < reserved[v.key][v.pods[j]]
    ensures CountedIn(committed, reserved, v, o) <= UnplacedAt(name, committed, reserved, v.key, o)
    ensures 0 <= CountedIn(committed, reserved, v, o)
    ensures !Mixed(committed, reserved, v.key) ==>
              CountedIn(committed, reserved, v, o) == UnplacedAt(name, committed, reserved, v.key, o)
  {
    hide OrdinalFromPodName, PodNameFromOrdinal;
    var pods, rs, placed := v.pods, reserved[v.key], PlacedFor(committed, v.key);
    forall j | 0 <= j < |pods|
      ensures pods[j] in rs && 0 < rs[pods[j]] && CanonicalPod(name, pods[j])
    {
      assert pods[j] in Elements(pods);
    }
    CountedBound(name, placed, rs, pods, o);
    assert forall pod :: pod in rs ==> pod in Elements(pods);
    assert forall pod :: pod in pods <==> pod in rs;
  }

  ghost predicate AllOwed(name: string, committed: Committed, reserved: Reserved, order: seq<Visit>, o: nat) {
    forall i :: 0 <= i < |order| ==>
      CountedIn(committed, reserved, order[i], o) == UnplacedAt(name, committed, reserved, order[i].key, o)
  }

  lemma VisitSetHead(order: seq<Visit>)
    requires order != []
    ensures VisitSet(order) == VisitSet(order[1..]) + {order[0].key}
    ensures DistinctVisits(order) ==> order[0].key !in VisitSet(order[1..]) && DistinctVisits(order[1..])
  {
    assert forall i :: 1 <= i < |order| ==> order[i] == order[1..][i - 1];
  }

  lemma AllOwedHead(name: string, committed: Committed, reserved: Reserved, order: seq<Visit>, o: nat)
    requires order != []
    ensures AllOwed(name, committed, reserved, order, o) <==>
            (CountedIn(committed, reserved, order[0], o) == UnplacedAt(name, committed, reserved, order[0].key, o)
             && AllOwed(name, committed, reserved, order[1..], o))
  {
    hide UnplacedAt, CountedIn;
    assert forall i :: 1 <= i < |order| ==> order[i] == order[1..][i - 1];
    assert forall i :: 0 <= i < |order| - 1 ==> order[1..][i] == order[i + 1];
  }

  /** One visit, in terms of the demand it settles. */
  lemma AccountVisit(name: string, b: Building, committed: Committed, v: Visit, o: nat)
    requires o <= MAX_INT32 && Tight(b) && GoodReserved(name, b.reserved) && Covers(v, b.reserved)
    ensures forall j :: 0 <= j < |v.pods| ==> v.pods[j] in b.reserved[v.key]
    ensures var b' := AccountPods(b, PlacedFor(committed, v.key), ReservedOf(b.reserved, v.key), v.pods);
            && Tight(b') && b'.reserved == b.reserved && b'.snap.capacity == b.snap.capacity
            && b'.snap.Free(o) == b.snap.Free(o) - CountedIn(committed, b.reserved, v, o)
  {
    hide OrdinalFromPodName, PodNameFromOrdinal;
    VisitBound(name, committed, b.reserved, v, o);
    AccountPodsAt(name, b, PlacedFor(committed, v.key), b.reserved[v.key], v.pods, o);
    AccountPodsKeepsReserved(b, PlacedFor(committed, v.key), b.reserved[v.key], v.pods);
  }

  /** The run over the reservations leaves at least the free capacity it should, and exactly that much
      exactly when every key was charged all it is owed. */
  lemma {:induction false} AccountReservedAt(name: string, b: Building, committed: Committed, order: seq<Visit>, o: nat)
    requires o <= MAX_INT32 && Tight(b) && GoodReserved(name, b.reserved) && DistinctVisits(order)
    requires forall i :: 0 <= i < |order| ==> Covers(order[i], b.reserved)
    ensures var b' := AccountReserved(b, committed, order);
            var target := b.snap.Free(o) - SumOver(VisitSet(order), UnplacedBy(name, committed, b.reserved, o));
            && Tight(b') && b'.reserved == b.reserved && b'.snap.capacity == b.snap.capacity
            && target <= b'.snap.Free(o) <= b.snap.Free(o)
            && (b'.snap.Free(o) == target <==> AllOwed(name, committed, b.reserved, order, o))
    decreases order
  {
    hide OrdinalFromPodName, PodNameFromOrdinal, AccountPods, Tight, GoodReserved, AllOwed, UnplacedAt, CountedIn,
         Snapshot.Free;
    if order == [] {
      assert AllOwed(name, committed, b.reserved, order, o) by { AllOwedNil(name, committed, b.reserved, o); }
    } else {
      var v := order[0];
      var b1 := AccountPods(b, PlacedFor(committed, v.key), ReservedOf(b.reserved, v.key), v.pods);
      VisitBound(name, committed, b.reserved, v, o);
      AccountVisit(name, b, committed, v, o);
      VisitSetHead(order);
      AccountReservedAt(name, b1, committed, order[1..], o);
      SumAdd(VisitSet(order[1..]), UnplacedBy(name, committed, b.reserved, o), v.key);
      AllOwedHead(name, committed, b.reserved, order, o);
    }
  }

  lemma AllOwedNil(name: string, committed: Committed, reserved: Reserved, o: nat)
    ensures AllOwed(name, committed, reserved, [], o)
  {
  }

  // ----- the snapshot as a whole -----

  lemma {:induction false} FindInPodSet(ps: seq<Placement>, pod: string)
    ensures Find(ps, pod).Some? <==> pod in PodSet(ps)
  {
    if ps != [] {
      FindInPodSet(ps[1..], pod);
      assert PodSet(ps) == {ps[0].podName} + PodSet(ps[1..]) by {
        assert forall i :: 1 <= i < |ps| ==> ps[i] == ps[1..][i - 1];
      }
    }
  }

  lemma PlacedIffListed(name: string, committed: Committed, key: Key, o: nat)
    requires GoodCommitted(name, committed) && o <= MAX_INT32
    ensures PodNameFromOrdinal(name, o) in PlacedFor(committed, key) <==> !Unlisted(committed, key, o)
    ensures Unlisted(committed, key, o) ==> CommittedAt(committed, key, o) == 0
    ensures 0 <= CommittedAt(committed, key, o)
  {
    hide OrdinalFromPodName, PodNameFromOrdinal;
    if key in committed {
      FindInPodSet(committed[key], PodNameFromOrdinal(name, o));
      FindGivesCount(name, committed[key], o);
      CountsNonNegative(name, committed[key], o);
    }
  }

  /** What a list of vpods and a map of reservations must satisfy for a snapshot to be taken of them. */
  ghost predicate Sound(name: string, vpods: seq<VPod>, reserved: Reserved) {
    DistinctKeys(vpods) && GoodCommitted(name, CommittedOf(vpods)) && GoodReserved(name, reserved)
  }

  /** A reservation is dropped exactly when it is what its vpod holds there, and is otherwise left as it was; so what
      is left makes the same claims as before, and still belongs to the same keys. */
  lemma PruningKeepsClaims(name: string, capacity: int, vpods: seq<VPod>, reserved: Reserved)
    requires Sound(name, vpods, reserved)
    ensures var committed, pruned := CommittedOf(vpods), Pruned(capacity, vpods, reserved);
            && GoodReserved(name, pruned)
            && committed.Keys + pruned.Keys == committed.Keys + reserved.Keys
            && (forall k: Key, o: nat :: o <= MAX_INT32 ==>
                  Claim(name, committed, pruned, k, o) == Claim(name, committed, reserved, k, o))
            && (forall k: Key, o: nat :: o <= MAX_INT32 ==>
                  ReservedAt(name, pruned, k, o) == Left(name, committed, reserved, k, o))
  {
    hide OrdinalFromPodName, PodNameFromOrdinal;
    var committed, pruned := CommittedOf(vpods), Pruned(capacity, vpods, reserved);
    var b := Empty(capacity, reserved);
    CommittedOfAgrees(vpods);
    AccountVPodsKeeps(name, b, vpods);
    forall k: Key, o: nat | o <= MAX_INT32
      ensures Claim(name, committed, pruned, k, o) == Claim(name, committed, reserved, k, o)
      ensures ReservedAt(name, pruned, k, o) == Left(name, committed, reserved, k, o)
    {
      AccountVPodsSettles(name, b, vpods, committed, k, o);
    }
  }

  /** The claim of a key splits into what its placements are charged and what it is owed besides. */
  lemma ClaimSplits(name: string, capacity: int, vpods: seq<VPod>, reserved: Reserved, k: Key, o: nat)
    requires Sound(name, vpods, reserved) && o <= MAX_INT32
    ensures Claim(name, CommittedOf(vpods), reserved, k, o)
         == ChargedBy(name, CommittedOf(vpods), reserved, o)(k)
            + UnplacedAt(name, CommittedOf(vpods), Pruned(capacity, vpods, reserved), k, o)
    ensures k !in CommittedOf(vpods) ==> ChargedBy(name, CommittedOf(vpods), reserved, o)(k) == 0
    ensures k !in Pruned(capacity, vpods, reserved) ==>
              UnplacedAt(name, CommittedOf(vpods), Pruned(capacity, vpods, reserved), k, o) == 0
  {
    hide OrdinalFromPodName, PodNameFromOrdinal;
    var committed := CommittedOf(vpods);
    CommittedOfAgrees(vpods);
    PlacedIffListed(name, committed, k, o);
    AccountVPodsSettles(name, Empty(capacity, reserved), vpods, committed, k, o);
    assert 0 <= ReservedAt(name, reserved, k, o);
  }

  /** Snapshot refinement. For every order of the list and of the map, the last ordinal is the greatest one in use, and
      the free capacity of a pod is at least the capacity minus the demand on it; it is exactly that on every pod where
      each visited key was charged all it is owed. */
  lemma SnapshotRefinesDemand(
    name: string, capacity: int, vpods: seq<VPod>, reserved: Reserved, order: seq<Visit>, o: nat)
    requires Sound(name, vpods, reserved) && o <= MAX_INT32
    requires Enumerates(order, Pruned(capacity, vpods, reserved))
    ensures var committed, pruned := CommittedOf(vpods), Pruned(capacity, vpods, reserved);
            var b := Build(capacity, vpods, reserved, order);
            var exact := capacity - Demand(name, committed, reserved, o);
            && Tight(b) && b.reserved == pruned && b.snap.capacity == capacity
            && exact <= b.snap.Free(o)
            && (b.snap.Free(o) == exact <==> AllOwed(name, committed, pruned, order, o))
            && (NoMix(committed, pruned) ==> b.snap.Free(o) == exact)
  {
    hide OrdinalFromPodName, PodNameFromOrdinal, AccountReserved, AccountVPods, Tight, GoodReserved, Claim,
         UnplacedAt, Charged, CountedIn, Mixed;
    var committed, pruned := CommittedOf(vpods), Pruned(capacity, vpods, reserved);
    var b := AccountVPods(Empty(capacity, reserved), vpods);
    CommittedOfAgrees(vpods);
    EmptyIsTight(capacity, reserved);
    AccountVPodsKeeps(name, Empty(capacity, reserved), vpods);
    AccountVPodsAt(name, Empty(capacity, reserved), vpods, committed, reserved, o);
    AccountReservedAt(name, b, committed, order, o);
    PruningKeepsClaims(name, capacity, vpods, reserved);
    var keys := committed.Keys + reserved.Keys;
    var charged, owed := ChargedBy(name, committed, reserved, o), UnplacedBy(name, committed, pruned, o);
    forall k: Key
      ensures Claims(name, committed, reserved, o)(k) == charged(k) + owed(k)
      ensures k !in committed ==> charged(k) == 0
      ensures k !in pruned ==> owed(k) == 0
    {
      ClaimSplits(name, capacity, vpods, reserved, k, o);
    }
    SumPlus(keys, charged, owed, Claims(name, committed, reserved, o));
    SumWiden(committed.Keys, keys, charged);
    SumWiden(pruned.Keys, keys, owed);
    if NoMix(committed, pruned) {
      forall i | 0 <= i < |order|
        ensures CountedIn(committed, pruned, order[i], o) == UnplacedAt(name, committed, pruned, order[i].key, o)
      {
        VisitBound(name, committed, pruned, order[i], o);
      }
    }
  }

  lemma EmptyIsTight(capacity: int, reserved: Reserved)
    ensures Tight(Empty(capacity, reserved))
  {
  }

  // ----- when is the snapshot exact? -----

  ghost predicate ExactOn(name: string, capacity: int, vpods: seq<VPod>, reserved: Reserved, order: seq<Visit>) {
    forall o: nat :: o <= MAX_INT32 ==>
         Build(capacity, vpods, reserved, order).snap.Free(o)
             == capacity - Demand(name, CommittedOf(vpods), reserved, o)
  }

  lemma {:induction false} NamesOf(s: set<string>) returns (pods: seq<string>)
    ensures Distinct(pods) && Elements(pods) == s
    decreases s
  {
    if s == {} {
      pods := [];
    } else {
      var x :| x in s;
      var rest := NamesOf(s - {x});
      pods := NamesWithFirst(s, x, rest);
    }
  }

  lemma NamesWithFirst(s: set<string>, x: string, rest: seq<string>) returns (pods: seq<string>)
    requires x in s && Distinct(rest) && Elements(rest) == s - {x}
    ensures pods == [x] + rest && Distinct(pods) && Elements(pods) == s
  {
    pods := [x] + rest;
    forall i | 0 <= i < |rest| ensures rest[i] in s && rest[i] != x {
      assert rest[i] in Elements(rest);
    }
    forall y ensures y in Elements(pods) <==> y in s {
      assert y in Elements(pods) <==> y in pods;
      assert y in Elements(rest) <==> y in rest;
    }
  }

  lemma {:induction false} VisitsOf(reserved: Reserved, keys: set<Key>) returns (order: seq<Visit>)
    requires keys <= reserved.Keys
    ensures DistinctVisits(order) && VisitSet(order) == keys
    ensures forall i :: 0 <= i < |order| ==> Covers(order[i], reserved)
    decreases keys
  {
    if keys == {} {
      order := [];
    } else {
      var k :| k in keys;
      var pods := NamesOf(reserved[k].Keys);
      var rest := VisitsOf(reserved, keys - {k});
      order := VisitsWithFirst(reserved, keys, Visit(k, pods), rest);
    }
  }

  lemma VisitsWithFirst(reserved: Reserved, keys: set<Key>, v: Visit, rest: seq<Visit>) returns (order: seq<Visit>)
    requires v.key in keys && Covers(v, reserved) && DistinctVisits(rest) && VisitSet(rest) == keys - {v.key}
    requires forall i :: 0 <= i < |rest| ==> Covers(rest[i], reserved)
    ensures order == [v] + rest && DistinctVisits(order) && VisitSet(order) == keys
    ensures forall i :: 0 <= i < |order| ==> Covers(order[i], reserved)
  {
    order := [v] + rest;
    assert order[1..] == rest;
    VisitSetHead(order);
    assert forall i :: 0 <= i < |rest| ==> rest[i].key in VisitSet(rest);
  }

  /** Reservations can always be visited in some order, and any pod of any key can be visited first. */
  lemma OrderStartingAt(reserved: Reserved, key: Key, pod: string) returns (order: seq<Visit>)
    requires key in reserved && pod in reserved[key]
    ensures Enumerates(order, reserved)
    ensures order != [] && order[0].key == key && order[0].pods != [] && order[0].pods[0] == pod
  {
    var others := NamesOf(reserved[key].Keys - {pod});
    var pods := NamesWithFirst(reserved[key].Keys, pod, others);
    var rest := VisitsOf(reserved, reserved.Keys - {key});
    order := VisitsWithFirst(reserved, reserved.Keys, Visit(key, pods), rest);
  }

  /** A key with both kinds of reservation lets some visiting order overstate the free capacity of a pod. */
  lemma MixOverstates(
    name: string, capacity: int, vpods: seq<VPod>, reserved: Reserved, key: Key)
    returns (order: seq<Visit>, o: nat)
    requires Sound(name, vpods, reserved)
    requires Mixed(CommittedOf(vpods), Pruned(capacity, vpods, reserved), key)
    ensures Enumerates(order, Pruned(capacity, vpods, reserved))
    ensures o <= MAX_INT32
    ensures Build(capacity, vpods, reserved, order).snap.Free(o)
          > capacity - Demand(name, CommittedOf(vpods), reserved, o)
  {
    hide OrdinalFromPodName, PodNameFromOrdinal, AccountReserved, AccountVPods, Build, Demand, Tight;
    var committed, pruned := CommittedOf(vpods), Pruned(capacity, vpods, reserved);
    var placed :| placed in pruned[key] && placed in PlacedFor(committed, key);
    var unplaced :| unplaced in pruned[key] && unplaced !in PlacedFor(committed, key);
    PruningKeepsClaims(name, capacity, vpods, reserved);
    assert GoodPods(name, pruned[key]);
    order := OrderStartingAt(pruned, key, placed);
    o := OrdinalFromPodName(unplaced);
    assert Covers(order[0], pruned);
    assert CountedIn(committed, pruned, order[0], o) == 0;
    assert UnplacedAt(name, committed, pruned, key, o) == pruned[key][unplaced];
    SnapshotRefinesDemand(name, capacity, vpods, reserved, order, o);
  }

  /** The snapshot shows the true free capacity, whatever the map order, exactly when no key mixes the two kinds of
      reservation. */
  lemma ExactIffNoMix(name: string, capacity: int, vpods: seq<VPod>, reserved: Reserved)
    requires Sound(name, vpods, reserved)
    ensures NoMix(CommittedOf(vpods), Pruned(capacity, vpods, reserved)) <==>
            forall order :: Enumerates(order, Pruned(capacity, vpods, reserved)) ==>
                ExactOn(name, capacity, vpods, reserved, order)
  {
    hide OrdinalFromPodName, PodNameFromOrdinal, Build, Demand, Pruned, Mixed, Tight, AllOwed;
    var committed, pruned := CommittedOf(vpods), Pruned(capacity, vpods, reserved);
    if NoMix(committed, pruned) {
      forall order | Enumerates(order, pruned)
        ensures ExactOn(name, capacity, vpods, reserved, order)
      {
        forall o: nat | o <= MAX_INT32
          ensures Build(capacity, vpods, reserved, order).snap.Free(o)
                  == capacity - Demand(name, committed, reserved, o)
        {
          SnapshotRefinesDemand(name, capacity, vpods, reserved, order, o);
        }
      }
    } else {
      var key :| key in pruned && Mixed(committed, pruned, key);
      var order, o := MixOverstates(name, capacity, vpods, reserved, key);
      assert !ExactOn(name, capacity, vpods, reserved, order);
    }
  }
}
