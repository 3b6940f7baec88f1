/** The autoscaler's actions on the statefulset's scale and on the stored vpods
    (pkg/common/scheduler/statefulset/autoscaler.go, pkg/source/reconciler/mtsource/controller.go). */
module Autoscaler {
  import opened Options
  import opened PodNames
  import opened Placements
  import opened Arithmetic
  import opened Snapshots
  import opened SnapshotLaws
  import opened Scheduling
  import opened SchedulerRuns
  import opened Autoscaling
  import opened Compaction
  import opened State

  /** The stored scale of the statefulset. */
  class Scale {
    var replicas: int
    constructor (replicas: int)
      ensures this.replicas == replicas
    {
      this.replicas := replicas;
    }
  }

  /** Every placement but those on the given pod. */
  method KeepOthers(before: seq<Placement>, podName: string) returns (after: seq<Placement>)
    ensures after == Without(before, podName)
  {
    after := [];
    for i := 0 to |before|
      invariant Without(before, podName) == after + Without(before[i..], podName)
    {
      assert before[i..][0] == before[i] && before[i..][1..] == before[i + 1..];
      if before[i].podName != podName {
        after := after + [before[i]];
      }
    }
    assert after + Without([], podName) == after;
  }

  /** The stored vpods. */
  class Store {
    var vpods: map<Key, VPod>

    /** The evictor: the stored vpod is read again and keeps every placement but those on the given pod. */
    method Evict(key: Key, podName: string, fails: bool) returns (ok: bool)
      modifies this
      ensures ok == (!fails && key in old(vpods))
      ensures !ok ==> vpods == old(vpods)
      ensures ok ==>
                vpods == old(vpods)[key := old(vpods)[key].(placements := Without(old(vpods)[key].placements, podName))]
    {
      hide Without;
      if fails || key !in vpods {
        return false;
      }
      var after := KeepOthers(vpods[key].placements, podName);
      vpods := vpods[key := vpods[key].(placements := after)];
      return true;
    }
  }

  /** Evicting a pod a vpod is not placed on changes nothing; evicting it twice is the same as once. */
  lemma {:induction false} WithoutTwice(ps: seq<Placement>, podName: string)
    ensures Without(Without(ps, podName), podName) == Without(ps, podName)
    ensures (forall i :: 0 <= i < |ps| ==> ps[i].podName != podName) ==> Without(ps, podName) == ps
  {
    if ps != [] {
      WithoutTwice(ps[1..], podName);
      var rest := Without(ps[1..], podName);
      if ps[0].podName != podName {
        assert ([ps[0]] + rest)[1..] == rest;
      } else {
        assert [] + rest == rest;
      }
    }
  }

  /** The vpods after those in the list so far lost their placements on the pod, except for keys that failed. */
  ghost predicate EvictedSoFar(before: map<Key, VPod>, now: map<Key, VPod>, done: set<Key>, podName: string) {
    && now.Keys == before.Keys
    && (forall k :: k in before && k in done ==>
         now[k] == before[k].(placements := Without(before[k].placements, podName)))
    && (forall k :: k in before && k !in done ==> now[k] == before[k])
  }

  /** Evict every placement of one vpod that lies on the last pod. */
  method CompactOne(cfg: Setting, store: Store, vpod: VPod, last: nat, fails: bool) returns (ok: bool)
    requires vpod.key in store.vpods && store.vpods[vpod.key] == vpod
    requires AllCanonical(cfg.name, vpod.placements) && last <= MAX_INT32
    modifies store
    ensures var podName := PodNameFromOrdinal(cfg.name, last);
            && (store.vpods == old(store.vpods)
                || store.vpods == old(store.vpods)[vpod.key := vpod.(placements := Without(vpod.placements, podName))])
            && (ok ==>
                  store.vpods == old(store.vpods)[vpod.key := vpod.(placements := Without(vpod.placements, podName))])
            && (!ok ==> fails && store.vpods == old(store.vpods))
  {
    hide OrdinalFromPodName, PodNameFromOrdinal, Without;
    ghost var podName := PodNameFromOrdinal(cfg.name, last);
    ghost var gone := vpod.(placements := Without(vpod.placements, podName));
    ghost var start := store.vpods;
    WithoutTwice(vpod.placements, podName);
    OrdinalRoundTrip(cfg.name, last);
    var evicted := false;
    for i := 0 to |vpod.placements|
      invariant evicted ==> !fails && store.vpods == start[vpod.key := gone]
      invariant !evicted ==> store.vpods == start && forall j :: 0 <= j < i ==> vpod.placements[j].podName != podName
    {
      assert Canonical(cfg.name, vpod.placements[i]);
      if Ord(vpod.placements[i]) == last {
        ok := store.Evict(vpod.key, vpod.placements[i].podName, fails);
        if !ok {
          return false;
        }
        assert store.vpods == start[vpod.key := gone];
        evicted := true;
      }
    }
    assert !evicted ==> start == start[vpod.key := gone];
    return true;
  }

  lemma EvictNext(before: map<Key, VPod>, now: map<Key, VPod>, vpods: seq<VPod>, i: nat, podName: string)
    requires ListsAll(vpods, before) && i < |vpods| && EvictedSoFar(before, now, KeySet(vpods[..i]), podName)
    ensures vpods[i].key in now && now[vpods[i].key] == vpods[i]
    ensures var v := vpods[i];
            EvictedSoFar(before, now[v.key := v.(placements := Without(v.placements, podName))],
                KeySet(vpods[..i + 1]), podName)
  {
    hide Without;
    assert KeySet(vpods[..i + 1]) == KeySet(vpods[..i]) + {vpods[i].key} by {
      assert forall j :: 0 <= j < i ==> vpods[..i + 1][j] == vpods[..i][j];
      assert vpods[..i + 1][i] == vpods[i];
    }
    assert vpods[i].key !in KeySet(vpods[..i]);
  }

  /** Evict the last pod, after listing the vpods once more: all its placements go, or the run stops at the first
      failure. */
  method Compact(cfg: Setting, store: Store, listed: Option<seq<VPod>>, last: nat, failing: set<Key>) returns (ok: bool)
    requires last <= MAX_INT32
    requires listed.Some? ==>
               && ListsAll(listed.value, store.vpods)
               && forall i :: 0 <= i < |listed.value| ==> AllCanonical(cfg.name, listed.value[i].placements)
    modifies store
    ensures ok ==> listed.Some? && store.vpods == EvictedFrom(old(store.vpods), PodNameFromOrdinal(cfg.name, last))
    ensures listed.None? ==> store.vpods == old(store.vpods)
    ensures listed.Some? && failing == {} ==> ok
    ensures !ok ==> exists done :: EvictedSoFar(old(store.vpods), store.vpods, done, PodNameFromOrdinal(cfg.name, last))
  {
    hide OrdinalFromPodName, PodNameFromOrdinal, Without, AllCanonical;
    ghost var podName := PodNameFromOrdinal(cfg.name, last);
    ghost var start := store.vpods;
    if listed.None? {
      assert EvictedSoFar(start, start, {}, podName);
      return false;
    }
    var vpods := listed.value;
    for i := 0 to |vpods|
      invariant EvictedSoFar(start, store.vpods, KeySet(vpods[..i]), podName)
    {
      EvictNext(start, store.vpods, vpods, i, podName);
      ok := CompactOne(cfg, store, vpods[i], last, vpods[i].key in failing);
      if !ok {
        return false;
      }
    }
    assert vpods[..|vpods|] == vpods;
    assert store.vpods == EvictedFrom(start, podName);
    return true;
  }

  /** The room below the last pod decides whether it is compacted. */
  method MayCompactState(cfg: Setting, st: State, ghost b: Building) returns (yes: bool)
    requires -1 <= st.lastOrdinal < |st.free| && st.capacity == cfg.capacity && st.policy == cfg.policy
    requires b.snap == st.View() && b.last == st.lastOrdinal
    ensures yes <==> MayCompact(cfg, b)
    ensures yes ==> 1 <= st.lastOrdinal
  {
    if st.lastOrdinal < 1 {
      return false;
    }
    if st.policy == MAXFILLUP {
      var total := st.FreeCapacity();
      var inLast := st.Free(st.lastOrdinal);
      var freeCapacity := total - inLast;
      var usedInLastPod := st.capacity - inLast;
      return freeCapacity >= usedInLastPod;
    }
    return false;
  }

  datatype Scaling = Failed | Resized | Unchanged(compacted: bool)

  /** What can go wrong in one beat: fetching the scale, writing it back, listing the vpods to compact, evicting some
      of them. */
  datatype Trouble = Trouble(getFails: bool, updateFails: bool, listed: Option<seq<VPod>>, failing: set<Key>)

  /** Everything is there to decide on the number of pods. */
  predicate Informed(cfg: Setting, w: World, t: Trouble) {
    w.vpods.Some? && !(cfg.policy.EVENSPREAD? && w.nodes.None?) && !t.getFails
  }

  ghost predicate Listing(cfg: Setting, list: Option<seq<VPod>>, vpods: map<Key, VPod>) {
    list.Some? ==>
      && ListsAll(list.value, vpods) && Sound(cfg.name, list.value, map[])
      && forall i :: 0 <= i < |list.value| ==> AllCanonical(cfg.name, list.value[i].placements)
  }

  /** One beat of the autoscaler: resize if the wanted number of pods differs, and otherwise compact if that is
      possible. The stored scale changes only if it is written back, and the stored vpods only by compaction. */
  method DoAutoscale(
    cfg: Setting, store: Store, scale: Scale, w: World, attemptScaleDown: bool, pending: int, trouble: Trouble)
    returns (r: Scaling)
    requires 0 < cfg.capacity && w.order == []
    requires Listing(cfg, w.vpods, store.vpods) && Listing(cfg, trouble.listed, store.vpods)
    modifies store, scale
    ensures r.Failed? ==> store.vpods == old(store.vpods)
    ensures !r.Resized? ==> scale.replicas == old(scale.replicas)
    ensures !Informed(cfg, w, trouble) ==> r.Failed?
    ensures Informed(cfg, w, trouble) ==>
              var b := PlainSnapshot(cfg, w.vpods.value);
              var n := NewReplicas(b.last, cfg.capacity, pending, old(scale.replicas), attemptScaleDown);
              && (r.Unchanged? <==> n == old(scale.replicas))
              && (r.Failed? <==> n != old(scale.replicas) && trouble.updateFails)
              && (r.Resized? ==> scale.replicas == n && store.vpods == old(store.vpods))
              && (r.Unchanged? && r.compacted ==>
                    && MayCompact(cfg, b)
                    && store.vpods == EvictedFrom(old(store.vpods), PodNameFromOrdinal(cfg.name, b.last)))
              && (r.Unchanged? && MayCompact(cfg, b) && trouble.listed.Some? && trouble.failing == {} ==> r.compacted)
              && (r.Unchanged? && MayCompact(cfg, b) && !r.compacted ==>
                    exists done ::
                      EvictedSoFar(old(store.vpods), store.vpods, done, PodNameFromOrdinal(cfg.name, b.last)))
              && (r.Unchanged? && (!MayCompact(cfg, b) || trouble.listed.None?) ==>
                    !r.compacted && store.vpods == old(store.vpods))
  {
    hide OrdinalFromPodName, PodNameFromOrdinal, Build, AccountVPods, AllCanonical, Sound, MayCompact, Without,
         ListsAll;
    if w.vpods.Some? { NoReservations(cfg.capacity, w.vpods.value); }
    var st, left := BuildState(cfg, w, map[]);
    if st == null || trouble.getFails {
      return Failed;
    }
    SnapshotRefinesDemand(cfg.name, cfg.capacity, w.vpods.value, map[], [], 0);
    var replicas := scale.replicas;
    var newReplicas := st.lastOrdinal + 1;
    if pending > 0 {
      newReplicas := newReplicas + Ceil(pending, cfg.capacity);
    }
    if newReplicas <= st.lastOrdinal {
      newReplicas := st.lastOrdinal + 1;
    }
    if !attemptScaleDown && newReplicas < replicas {
      newReplicas := replicas;
    }
    if newReplicas != replicas {
      if trouble.updateFails {
        return Failed;
      }
      scale.replicas := newReplicas;
      return Resized;
    }
    var may := MayCompactState(cfg, st, PlainSnapshot(cfg, w.vpods.value));
    if may {
      var ok := Compact(cfg, store, trouble.listed, st.lastOrdinal, trouble.failing);
      return Unchanged(ok);
    }
    return Unchanged(false);
  }
}
