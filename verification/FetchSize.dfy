/** The default fetch size of a source's consumers (pkg/source/mtadapter/adapter.go). Quotients are exact here; the
    program computes them in double precision. */
module FetchSize {
  import opened Options
  import opened Arithmetic
  import opened Placements
  import opened StatefulSetScheduler

  /** The partitions one consumer is sized for: twice its share, or all of them if there are fewer than three pods. */
  function Handled(total: nat, pods: int): int
    requires 0 < pods
  {
    if pods < 3 then total else 2 * Ceil(total, pods)
  }

  function PerVReplica(memLimit: nat, total: nat, pods: int): int
    requires 0 < pods && 0 < Handled(total, pods)
  {
    memLimit / (2 * Handled(total, pods))
  }

  lemma HandledIsPositive(total: nat, pods: int)
    requires 0 < pods && 0 < total
    ensures 0 < Handled(total, pods)
  {
    CeilLaw(total, pods, 0);
  }

  /** The share a consumer is sized for covers the loss of k of the pods, whatever the number of partitions, exactly
      when k is at most half of them. */
  lemma CoversLossIffHalf(pods: int, k: nat)
    requires 3 <= pods && k < pods
    ensures (forall total: nat :: Ceil(total, pods - k) <= Handled(total, pods)) <==> k <= pods / 2
  {
    if k <= pods / 2 {
      forall total: nat ensures Ceil(total, pods - k) <= Handled(total, pods) {
        CoversLoss(total, pods, k);
      }
    } else {
      CeilLaw(pods, pods, 1);
      CeilLaw(pods, pods - k, 0);
      var q := Ceil(pods, pods - k);
      assert 2 * (pods - k) < pods <= q * (pods - k);
      if q <= 2 { MulMonotone(q, 2, pods - k); }
      assert Ceil(pods, pods - k) > Handled(pods, pods);
    }
  }

  lemma CoversLoss(total: nat, pods: int, k: nat)
    requires 3 <= pods && k <= pods / 2
    ensures 0 < pods - k && Ceil(total, pods - k) <= Handled(total, pods)
  {
    var share := Ceil(total, pods);
    CeilLaw(total, pods, 0);
    assert share * pods <= share * (2 * (pods - k)) by { Monotone2(share, pods, 2 * (pods - k)); }
    assert share * (2 * (pods - k)) == 2 * share * (pods - k) by { Regroup3(share, pods - k); }
    CeilLaw(total, pods - k, 2 * share);
  }

  lemma Monotone2(a: int, b: int, c: int)
    requires 0 <= a && b <= c
    ensures a * b <= a * c
  {
    MulMonotone(b, c, a);
    assert a * b == b * a && a * c == c * a;
  }

  lemma Regroup3(a: int, b: int)
    ensures a * (2 * b) == 2 * a * b
  {
  }

  /** The partitions a consumer is sized for, without reference to how they are computed: all of them with fewer than
      three pods, and otherwise twice the least share with which the pods hold them all. */
  lemma HandledLaw(total: nat, pods: int)
    requires 0 < pods
    ensures pods < 3 ==> Handled(total, pods) == total
    ensures 3 <= pods ==> var h := Handled(total, pods); h % 2 == 0 && (h / 2 - 1) * pods < total <= h / 2 * pods
  {
    var share := Ceil(total, pods);
    CeilLaw(total, pods, 0);
    assert (share - 1) * pods == share * pods - pods;
  }

  /** Memory bound: twice the fetch size, for every partition a consumer is sized for, stays within the memory of its
      virtual replicas; one byte more per virtual replica would not. With fewer than three pods that is every
      partition. */
  lemma MemoryBound(memLimit: nat, total: nat, pods: int, vreplicas: nat)
    requires 0 < pods && 0 < total
    ensures 0 < Handled(total, pods)
    ensures var h, size := Handled(total, pods), PerVReplica(memLimit, total, pods);
            && 2 * h * (size * vreplicas) <= memLimit * vreplicas
            && 2 * h * size <= memLimit < 2 * h * (size + 1)
            && (pods < 3 ==> 2 * total * size <= memLimit < 2 * total * (size + 1))
  {
    HandledIsPositive(total, pods);
    var h := Handled(total, pods);
    var d, size := 2 * h, PerVReplica(memLimit, total, pods);
    FloorLaw(memLimit, d);
    assert d * (size * vreplicas) == (d * size) * vreplicas by { Associate(d, size, vreplicas); }
    MulMonotone(d * size, memLimit, vreplicas);
    assert d * (size + 1) == d * size + d by { Distribute(d, size); }
  }

  lemma Associate(a: int, b: int, c: int)
    ensures a * (b * c) == (a * b) * c
  {
  }

  lemma Distribute(a: int, b: int)
    ensures a * (b + 1) == a * b + a
  {
  }

  /** After losing up to half of three or more pods, the partitions are shared among fewer consumers and the fetch
      size still fits the memory. */
  lemma BoundSurvivesLoss(memLimit: nat, total: nat, pods: int, k: nat, vreplicas: nat)
    requires 3 <= pods && k <= pods / 2 && 0 < total
    ensures 0 < pods - k && 0 < Handled(total, pods)
    ensures 2 * Ceil(total, pods - k) * (PerVReplica(memLimit, total, pods) * vreplicas) <= memLimit * vreplicas
  {
    CoversLoss(total, pods, k);
    MemoryBound(memLimit, total, pods, vreplicas);
    hide PerVReplica, Ceil, Handled;
    var size := PerVReplica(memLimit, total, pods);
    SizeIsNonNegative(memLimit, total, pods);
    MulMonotone(0, size, vreplicas);
    FewerPartitions(Ceil(total, pods - k), Handled(total, pods), size * vreplicas);
  }

  lemma SizeIsNonNegative(memLimit: nat, total: nat, pods: int)
    requires 0 < pods && 0 < Handled(total, pods)
    ensures 0 <= PerVReplica(memLimit, total, pods)
  {
    FloorLaw(memLimit, 2 * Handled(total, pods));
  }

  lemma FewerPartitions(x: int, h: int, fetch: int)
    requires x <= h && 0 <= fetch
    ensures 2 * x * fetch <= 2 * h * fetch
  {
    MulMonotone(2 * x, 2 * h, fetch);
  }

  // ----- the computation -----

  function SumOf(counts: seq<nat>): nat {
    if counts == [] then 0 else SumOf(counts[..|counts| - 1]) + counts[|counts| - 1]
  }

  /** What the computation of a fetch size may come to. Without any partition the program divides by zero and converts
      an infinite number to an integer, whose value the language leaves open. */
  datatype PerReplica = Unavailable | Unspecified | Fetch(size: int)

  method PartitionFetchSize(memLimit: nat, topicPartitions: Option<seq<nat>>, podCount: int) returns (r: PerReplica)
    requires 0 < podCount
    ensures r.Unavailable? <==> topicPartitions.None?
    ensures r.Unspecified? <==> topicPartitions.Some? && SumOf(topicPartitions.value) == 0
    ensures r.Fetch? ==>
              var total := SumOf(topicPartitions.value);
              && 0 < Handled(total, podCount) && r.size == PerVReplica(memLimit, total, podCount)
              && 2 * Handled(total, podCount) * r.size <= memLimit
  {
    if topicPartitions.None? {
      return Unavailable;
    }
    var partitions := topicPartitions.value;
    var totalPartitions := 0;
    for i := 0 to |partitions|
      invariant totalPartitions == SumOf(partitions[..i])
    {
      assert partitions[..i + 1][..i] == partitions[..i];
      totalPartitions := totalPartitions + partitions[i];
    }
    assert partitions[..|partitions|] == partitions;
    var partitionsPerPod := Ceil(totalPartitions, podCount);
    var handledPartitions := 2 * partitionsPerPod;
    if podCount < 3 {
      handledPartitions := totalPartitions;
    }
    if totalPartitions > 0 { HandledIsPositive(totalPartitions, podCount); } else { CeilLaw(0, podCount, 0); }
    if handledPartitions == 0 {
      return Unspecified;
    }
    FloorLaw(memLimit, 2 * handledPartitions);
    return Fetch(memLimit / (2 * handledPartitions));
  }

  datatype FetchSizes = Skipped | Unlimited | Failed | Undetermined | Sizes(default: int, max: int)

  /** The fetch sizes a pod uses for a source: the source is skipped if it is not placed on the pod, and without a
      memory limit no sizes are set. */
  method UpdateSizes(memLimit: int, ps: seq<Placement>, podName: string, topicPartitions: Option<seq<nat>>)
    returns (r: FetchSizes)
    requires forall i :: 0 <= i < |ps| ==> 0 <= ps[i].vreplicas
    ensures r.Skipped? <==> var p := Find(ps, podName); p.None? || p.value.vreplicas == 0
    ensures !r.Skipped? ==>
              && (r.Unlimited? <==> memLimit <= 0)
              && (r.Failed? <==> memLimit > 0 && topicPartitions.None?)
              && (r.Undetermined? <==> memLimit > 0 && topicPartitions.Some? && SumOf(topicPartitions.value) == 0)
    ensures r.Sizes? ==>
              var pods, total := |PodsInUse(ps)|, SumOf(topicPartitions.value);
              var v := Find(ps, podName).value.vreplicas;
              && 0 < pods && 0 < Handled(total, pods)
              && r.default == PerVReplica(memLimit, total, pods) * v
              && 2 * Handled(total, pods) * r.default <= memLimit * v
              && r.max == Max(r.default, 65536)
  {
    var placement := GetPlacementForPod(ps, podName);
    if placement.None? || placement.value.vreplicas == 0 {
      return Skipped;
    }
    if memLimit <= 0 {
      return Unlimited;
    }
    var pods := GetPodCount(ps);
    assert placement.value.podName in PodsInUse(ps);
    var perVReplica := PartitionFetchSize(memLimit, topicPartitions, pods);
    if perVReplica.Unavailable? {
      return Failed;
    }
    if perVReplica.Unspecified? {
      return Undetermined;
    }
    var fetchSize := perVReplica.size * placement.value.vreplicas;
    MemoryBound(memLimit, SumOf(topicPartitions.value), pods, placement.value.vreplicas);
    var maxFetchSize := fetchSize;
    if fetchSize < 64 * 1024 {
      maxFetchSize := 64 * 1024;
    }
    return Sizes(fetchSize, maxFetchSize);
  }
}
