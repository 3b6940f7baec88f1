/** Placements of virtual replicas on pods, and what is counted over them
    (pkg/apis/duck/v1alpha1/placement_types.go, pkg/common/scheduler/placement.go). */
module Placements {
  import opened Options
  import opened PodNames
  import opened Sums

  datatype Placement = Placement(podName: string, zoneName: string, vreplicas: int)

  function Ord(p: Placement): nat {
    OrdinalFromPodName(p.podName)
  }

  /** The sum of w over a list of placements. */
  function Weight(ps: seq<Placement>, w: Placement -> int): int {
    if ps == [] then 0 else w(ps[0]) + Weight(ps[1..], w)
  }

  function Replicas(): Placement -> int {
    (p: Placement) => p.vreplicas
  }

  function OnOrdinal(o: nat): Placement -> int {
    (p: Placement) => if Ord(p) == o then p.vreplicas else 0
  }

  function InZone(z: string): Placement -> int {
    (p: Placement) => if p.zoneName == z then p.vreplicas else 0
  }

  function ListedOn(o: nat): Placement -> int {
    (p: Placement) => if Ord(p) == o then 1 else 0
  }

  /** All virtual replicas placed. */
  function Total(ps: seq<Placement>): int { Weight(ps, Replicas()) }

  /** The virtual replicas placed on the pod with ordinal o. */
  function CountAt(ps: seq<Placement>, o: nat): int { Weight(ps, OnOrdinal(o)) }

  /** The virtual replicas recorded in zone z. */
  function ZoneTotal(ps: seq<Placement>, z: string): int { Weight(ps, InZone(z)) }

  /** How many entries name the pod with ordinal o. */
  function Listings(ps: seq<Placement>, o: nat): int { Weight(ps, ListedOn(o)) }

  /** The entry names a pod of the statefulset `name` and its count is not negative. */
  predicate Canonical(name: string, p: Placement) {
    p.podName == PodNameFromOrdinal(name, Ord(p)) && 0 <= p.vreplicas
  }

  predicate AllCanonical(name: string, ps: seq<Placement>) {
    forall i :: 0 <= i < |ps| ==> Canonical(name, ps[i])
  }

  /** No pod is listed twice. */
  ghost predicate Once(ps: seq<Placement>) {
    forall o: nat :: Listings(ps, o) <= 1
  }

  /** What the scheduler expects of the placements recorded in a vpod. */
  ghost predicate WellPlaced(name: string, ps: seq<Placement>) {
    AllCanonical(name, ps) && Once(ps)
  }

  lemma {:induction false} WeightConcat(a: seq<Placement>, b: seq<Placement>, w: Placement -> int)
    ensures Weight(a + b, w) == Weight(a, w) + Weight(b, w)
  {
    if a == [] {
      assert a + b == b;
    } else {
      assert (a + b)[0] == a[0] && (a + b)[1..] == a[1..] + b;
      WeightConcat(a[1..], b, w);
    }
  }

  lemma WeightNil(w: Placement -> int)
    ensures Weight([], w) == 0
  {
  }

  lemma WeightOne(p: Placement, w: Placement -> int)
    ensures Weight([p], w) == w(p)
  {
    assert Weight([p], w) == w(p) + Weight([p][1..], w);
  }

  lemma WeightAppend(a: seq<Placement>, p: Placement, w: Placement -> int)
    ensures Weight(a + [p], w) == Weight(a, w) + w(p)
  {
    WeightConcat(a, [p], w);
    WeightOne(p, w);
  }

  lemma {:induction false} WeightMonotone(ps: seq<Placement>, v: Placement -> int, w: Placement -> int)
    requires forall i :: 0 <= i < |ps| ==> v(ps[i]) <= w(ps[i])
    ensures Weight(ps, v) <= Weight(ps, w)
  {
    if ps != [] {
      WeightMonotone(ps[1..], v, w);
    }
  }

  lemma WeightEqual(ps: seq<Placement>, v: Placement -> int, w: Placement -> int)
    requires forall i :: 0 <= i < |ps| ==> v(ps[i]) == w(ps[i])
    ensures Weight(ps, v) == Weight(ps, w)
  {
    WeightMonotone(ps, v, w);
    WeightMonotone(ps, w, v);
  }

  lemma {:induction false} WeightZero(ps: seq<Placement>)
    ensures Weight(ps, (p: Placement) => 0) == 0
  {
    if ps != [] { WeightZero(ps[1..]); }
  }

  lemma {:induction false} WeightNonNegative(ps: seq<Placement>, w: Placement -> int)
    requires forall i :: 0 <= i < |ps| ==> 0 <= w(ps[i])
    ensures 0 <= Weight(ps, w)
    ensures forall i :: 0 <= i < |ps| ==> w(ps[i]) <= Weight(ps, w)
  {
    if ps != [] {
      WeightNonNegative(ps[1..], w);
      assert forall i :: 1 <= i < |ps| ==> ps[i] == ps[1..][i - 1];
    }
  }

  lemma {:induction false} PairWithinWeight(ps: seq<Placement>, w: Placement -> int, i: nat, j: nat)
    requires i < j < |ps| && forall k :: 0 <= k < |ps| ==> 0 <= w(ps[k])
    ensures w(ps[i]) + w(ps[j]) <= Weight(ps, w)
  {
    if i > 0 {
      PairWithinWeight(ps[1..], w, i - 1, j - 1);
    } else {
      WeightNonNegative(ps[1..], w);
      assert ps[j] == ps[1..][j - 1];
    }
  }

  lemma CountsNonNegative(name: string, ps: seq<Placement>, o: nat)
    requires AllCanonical(name, ps)
    ensures 0 <= CountAt(ps, o) <= Total(ps) && 0 <= Listings(ps, o)
  {
    WeightNonNegative(ps, OnOrdinal(o));
    WeightNonNegative(ps, ListedOn(o));
    WeightMonotone(ps, OnOrdinal(o), Replicas());
  }

  /** The counts per ordinal add up to the total. */
  lemma {:induction false} SumOfCounts(ps: seq<Placement>, s: set<nat>)
    requires forall i :: 0 <= i < |ps| ==> Ord(ps[i]) in s
    ensures SumOver(s, (o: nat) => CountAt(ps, o)) == Total(ps)
  {
    hide OrdinalFromPodName;
    var counts := (o: nat) => CountAt(ps, o);
    if ps == [] {
      SumEqual(s, counts, (o: nat) => 0);
      SumZero(s);
    } else {
      var tail := ps[1..];
      var rest := (o: nat) => CountAt(tail, o);
      var first := (o: nat) => if Ord(ps[0]) == o then ps[0].vreplicas else 0;
      SumOfCounts(tail, s);
      SumEqual(s, rest, (o: nat) => CountAt(tail, o));
      SumPlus(s, first, rest, counts);
      var o0 := Ord(ps[0]);
      SumWiden({o0}, s, first);
      SumAdd({}, first, o0);
      assert {} + {o0} == {o0};
    }
  }

  lemma {:induction false} SumZero(s: set<nat>)
    ensures SumOver(s, (o: nat) => 0) == 0
  {
    SumWiden({}, s, (o: nat) => 0);
  }

  /** The entry for the pod called podName, if any: the first one in the list. */
  function Find(ps: seq<Placement>, podName: string): Option<Placement> {
    if ps == [] then None
    else if ps[0].podName == podName then Some(ps[0])
    else Find(ps[1..], podName)
  }

  /** In a well-formed list, looking a pod up gives its count, and gives nothing exactly when the pod is not listed. */
  lemma {:induction false} FindGivesCount(name: string, ps: seq<Placement>, o: nat)
    requires AllCanonical(name, ps) && Once(ps) && o <= MAX_INT32
    ensures var r := Find(ps, PodNameFromOrdinal(name, o));
            && (r.None? <==> Listings(ps, o) == 0)
            && (r.Some? ==> Ord(r.value) == o && r.value.vreplicas == CountAt(ps, o) && r.value in ps)
            && (r.None? ==> CountAt(ps, o) == 0)
  {
    hide OrdinalFromPodName, PodNameFromOrdinal;
    if ps != [] {
      var podName := PodNameFromOrdinal(name, o);
      OrdinalRoundTrip(name, o);
      TailOnce(name, ps);
      FindGivesCount(name, ps[1..], o);
      if ps[0].podName == podName {
        CountsNonNegative(name, ps[1..], o);
        assert Listings(ps, o) == 1 + Listings(ps[1..], o);
      }
    }
  }

  lemma TailOnce(name: string, ps: seq<Placement>)
    requires ps != [] && AllCanonical(name, ps) && Once(ps)
    ensures AllCanonical(name, ps[1..]) && Once(ps[1..])
  {
    forall o: nat ensures Listings(ps[1..], o) <= 1 {
      assert Listings(ps, o) == ListedOn(o)(ps[0]) + Listings(ps[1..], o);
    }
  }
}
