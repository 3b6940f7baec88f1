/** The status prober of one subscription: probe successes and cancellations race to resolve each pod
    (pkg/channel/consolidated/status/status.go). Every atomic operation is one step, and steps interleave freely. */
module Prober {
  /** Where the goroutine waiting for the pod's cancellation stands: it may wake up at any time. */
  datatype Canceller = Loading | Swapping(seen: int) | Decrementing | CheckingAfter | CallingBack | Returned

  /** Where the worker that saw the pod's last probe succeed stands. */
  datatype Winner = NotYet | CheckingReady | Calling | Done

  /** A pod: its probes, the atomic counter of those pending, the decrements made, how often it was resolved by
      success and by cancellation, how often the compare-and-swap failed, and how often the callback was called on its
      account. */
  datatype Pod = Pod(probes: nat, pending: int, decrements: nat, successes: nat, cancellations: nat, failedSwaps: nat,
                     canceller: Canceller, winner: Winner, calls: nat)

  /** The subscription: its pods, the counter of those pending, the partitions reported ready, the number of
      partitions, and whether it was found ready. */
  datatype Target = Target(pods: seq<Pod>, counter: int, reported: set<int>, partitions: nat, ready: bool)

  function NewPod(probes: nat): Pod {
    Pod(probes, probes, 0, 0, 0, 0, Loading, NotYet, 0)
  }

  function NewTarget(probes: seq<nat>, partitions: nat): Target {
    Target(seq(|probes|, i requires 0 <= i < |probes| => NewPod(probes[i])), |probes|, {}, partitions, false)
  }

  function CheckReadiness(t: Target): Target {
    t.(ready := t.ready || |t.reported| == t.partitions)
  }

  datatype Step =
    | Report(partitions: set<int>)
    | Check
    | ProbeSucceeds(p: nat)
    | WinnerChecks(p: nat)
    | WinnerCalls(p: nat)
    | Load(p: nat)
    | Swap(p: nat)
    | Decrement(p: nat)
    | CancellerChecks(p: nat)
    | CancellerCalls(p: nat)

  predicate OfPod(s: Step) {
    !s.Report? && !s.Check?
  }

  /** The conditions under which a step happens, seen from its pod. */
  predicate PodEnabled(pod: Pod, s: Step) {
    match s
    case ProbeSucceeds(_) => pod.decrements < pod.probes
    case WinnerChecks(_) => pod.winner.CheckingReady?
    case WinnerCalls(_) => pod.winner.Calling?
    case Load(_) => pod.canceller.Loading?
    case Swap(_) => pod.canceller.Swapping?
    case Decrement(_) => pod.canceller.Decrementing?
    case CancellerChecks(_) => pod.canceller.CheckingAfter?
    case CancellerCalls(_) => pod.canceller.CallingBack?
    case Report(_) => true
    case Check => true
  }

  predicate Enabled(t: Target, s: Step) {
    OfPod(s) ==> s.p < |t.pods| && PodEnabled(t.pods[s.p], s)
  }

  function SetPod(t: Target, p: nat, pod: Pod): Target
    requires p < |t.pods|
  {
    t.(pods := t.pods[p := pod])
  }

  /** What each step does to its pod; ready is the readiness found by a check, and lastPod whether the counter reached
      zero. */
  function StepPod(pod: Pod, s: Step, ready: bool, lastPod: bool): Pod {
    match s
    case ProbeSucceeds(_) =>
      var n := pod.pending - 1;
      if n == 0 then pod.(pending := n, decrements := pod.decrements + 1, successes := pod.successes + 1,
          winner := CheckingReady)
      else pod.(pending := n, decrements := pod.decrements + 1)
    case WinnerChecks(_) => pod.(winner := if ready then Calling else Done)
    case WinnerCalls(_) => pod.(winner := Done, calls := pod.calls + 1)
    case Load(_) => pod.(canceller := if pod.pending <= 0 then Returned else Swapping(pod.pending))
    case Swap(_) =>
      if pod.canceller.Swapping? && pod.pending == pod.canceller.seen then
        pod.(pending := 0, cancellations := pod.cancellations + 1, canceller := Decrementing)
      else pod.(failedSwaps := pod.failedSwaps + 1, canceller := Loading)
    case Decrement(_) => pod.(canceller := if lastPod then CheckingAfter else Returned)
    case CancellerChecks(_) => pod.(canceller := if ready then CallingBack else Returned)
    case CancellerCalls(_) => pod.(canceller := Returned, calls := pod.calls + 1)
    case Report(_) => pod
    case Check => pod
  }

  function Next(t: Target, s: Step): Target
    requires Enabled(t, s)
  {
    match s
    case Report(partitions) => t.(reported := t.reported + partitions)
    case Check => CheckReadiness(t)
    case WinnerChecks(p) =>
      var t1 := CheckReadiness(t);
      SetPod(t1, p, StepPod(t.pods[p], s, t1.ready, false))
    case CancellerChecks(p) =>
      var t1 := CheckReadiness(t);
      SetPod(t1, p, StepPod(t.pods[p], s, t1.ready, false))
    case Decrement(p) =>
      var t1 := t.(counter := t.counter - 1);
      SetPod(t1, p, StepPod(t.pods[p], s, false, t1.counter == 0))
    case ProbeSucceeds(p) => SetPod(t, p, StepPod(t.pods[p], s, false, false))
    case WinnerCalls(p) => SetPod(t, p, StepPod(t.pods[p], s, false, false))
    case Load(p) => SetPod(t, p, StepPod(t.pods[p], s, false, false))
    case Swap(p) => SetPod(t, p, StepPod(t.pods[p], s, false, false))
    case CancellerCalls(p) => SetPod(t, p, StepPod(t.pods[p], s, false, false))
  }

  // ----- what every step keeps -----

  /** The pod was taken off the subscription's counter. */
  predicate Counted(pod: Pod) {
    pod.cancellations == 1 && !pod.canceller.Decrementing?
  }

  function CountedPods(pods: seq<Pod>): nat {
    if pods == [] then 0 else (if Counted(pods[0]) then 1 else 0) + CountedPods(pods[1..])
  }

  /** A pod is resolved exactly when nothing is pending, and then exactly once, by success or by cancellation; every
      failed swap is paid for by a decrement; and the callback is called on its account at most once, and only when
      ready. */
  predicate PodOk(pod: Pod, ready: bool) {
    && pod.successes + pod.cancellations == (if pod.pending <= 0 then 1 else 0)
    && pod.decrements <= pod.probes
    && (pod.cancellations == 0 ==> pod.pending == pod.probes - pod.decrements)
    && (pod.canceller.Loading? ==> pod.cancellations == 0)
    && (pod.canceller.Swapping? ==>
          pod.cancellations == 0 && 0 < pod.canceller.seen && pod.pending <= pod.canceller.seen
          && pod.failedSwaps + pod.canceller.seen <= pod.probes)
    && (pod.canceller.Decrementing? || pod.canceller.CheckingAfter? || pod.canceller.CallingBack? ==>
         pod.cancellations == 1)
    && (pod.canceller.Returned? ==> pod.pending <= 0)
    && pod.failedSwaps <= pod.decrements
    && (pod.winner.NotYet? <==> pod.successes == 0)
    && (pod.winner.Calling? || pod.canceller.CallingBack? || pod.calls > 0 ==> ready)
    && pod.calls <= 1
    && (pod.calls == 1 ==>
          (pod.successes == 1 && pod.winner.Done?) || (pod.cancellations == 1 && pod.canceller.Returned?))
  }

  ghost predicate Inv(t: Target) {
    && (forall p :: 0 <= p < |t.pods| ==> PodOk(t.pods[p], t.ready))
    && t.counter == |t.pods| - CountedPods(t.pods)
    && (t.ready ==> t.partitions <= |t.reported|)
  }

  lemma {:induction false} CountedBound(pods: seq<Pod>)
    ensures CountedPods(pods) <= |pods|
    ensures CountedPods(pods) == |pods| <==> forall p :: 0 <= p < |pods| ==> Counted(pods[p])
  {
    if pods != [] {
      CountedBound(pods[1..]);
      assert forall p :: 1 <= p < |pods| ==> pods[p] == pods[1..][p - 1];
    }
  }

  lemma {:induction false} CountedUpdate(pods: seq<Pod>, p: nat, pod: Pod)
    requires p < |pods|
    ensures CountedPods(pods[p := pod])
            == CountedPods(pods) - (if Counted(pods[p]) then 1 else 0) + (if Counted(pod) then 1 else 0)
  {
    if p > 0 {
      CountedUpdate(pods[1..], p - 1, pod);
      assert pods[p := pod][1..] == pods[1..][p - 1 := pod];
    } else {
      assert pods[p := pod][1..] == pods[1..];
    }
  }

  lemma StepKeepsPod(pod: Pod, s: Step, ready: bool, found: bool, lastPod: bool)
    requires PodOk(pod, ready) && PodEnabled(pod, s) && (ready ==> found)
    requires s.WinnerChecks? || s.CancellerChecks? || found == ready
    ensures PodOk(StepPod(pod, s, found, lastPod), found)
    ensures Counted(StepPod(pod, s, found, lastPod)) <==> Counted(pod) || s.Decrement?
  {
  }

  lemma ReadyKeepsPod(pod: Pod, ready: bool, found: bool)
    requires PodOk(pod, ready) && (ready ==> found)
    ensures PodOk(pod, found)
  {
  }

  /** Every atomic step keeps the invariant; readiness is never taken back. */
  lemma StepKeepsInv(t: Target, s: Step)
    requires Inv(t) && Enabled(t, s)
    ensures Inv(Next(t, s)) && (t.ready ==> Next(t, s).ready)
  {
    hide PodOk, StepPod, Counted;
    var t' := Next(t, s);
    if s.Report? {
      assert t.reported <= t'.reported;
      SubsetSize(t.reported, t'.reported);
    } else if OfPod(s) {
      var pod := t.pods[s.p];
      var lastPod := s.Decrement? && t'.counter == 0;
      assert t'.pods == t.pods[s.p := t'.pods[s.p]];
      ReadyIrrelevant(pod, s, t'.ready, lastPod);
      StepKeepsPod(pod, s, t.ready, t'.ready, lastPod);
      CountedUpdate(t.pods, s.p, t'.pods[s.p]);
      DecrementOnce(pod, s);
    }
    forall p | 0 <= p < |t'.pods| ensures PodOk(t'.pods[p], t'.ready) {
      assert PodOk(t.pods[p], t.ready);
      ReadyKeepsPod(t.pods[p], t.ready, t'.ready);
    }
  }

  lemma DecrementOnce(pod: Pod, s: Step)
    requires PodEnabled(pod, s)
    ensures s.Decrement? ==> !Counted(pod)
  {
  }

  /** Only the checking steps look at readiness. */
  lemma ReadyIrrelevant(pod: Pod, s: Step, ready: bool, lastPod: bool)
    ensures !(s.WinnerChecks? || s.CancellerChecks?) ==>
            StepPod(pod, s, ready, lastPod) == StepPod(pod, s, false, lastPod)
    ensures !s.Decrement? ==> StepPod(pod, s, ready, lastPod) == StepPod(pod, s, ready, false)
  {
  }

  lemma {:induction false} SubsetSize<T>(a: set<T>, b: set<T>)
    requires a <= b
    ensures |a| <= |b|
  {
    assert b == a + (b - a);
  }

  lemma NewTargetInv(probes: seq<nat>, partitions: nat)
    requires forall i :: 0 <= i < |probes| ==> 0 < probes[i]
    ensures Inv(NewTarget(probes, partitions))
  {
    NothingCounted(NewTarget(probes, partitions).pods);
  }

  lemma {:induction false} NothingCounted(pods: seq<Pod>)
    requires forall p :: 0 <= p < |pods| ==> !Counted(pods[p])
    ensures CountedPods(pods) == 0
  {
    if pods != [] { NothingCounted(pods[1..]); }
  }

  // ----- runs -----

  predicate IsRun(t: Target, steps: seq<Step>)
    decreases steps
  {
    steps != [] ==> Enabled(t, steps[0]) && IsRun(Next(t, steps[0]), steps[1..])
  }

  function Reached(t: Target, steps: seq<Step>): Target
    requires IsRun(t, steps)
    decreases steps
  {
    if steps == [] then t else Reached(Next(t, steps[0]), steps[1..])
  }

  lemma {:induction false} RunKeepsInv(t: Target, steps: seq<Step>)
    requires Inv(t) && IsRun(t, steps)
    ensures Inv(Reached(t, steps)) && (t.ready ==> Reached(t, steps).ready)
    ensures |Reached(t, steps).pods| == |t.pods| && Reached(t, steps).partitions == t.partitions
    ensures forall p :: 0 <= p < |t.pods| ==> Reached(t, steps).pods[p].probes == t.pods[p].probes
    decreases steps
  {
    hide Inv;
    if steps != [] {
      StepKeepsInv(t, steps[0]);
      assert |Next(t, steps[0]).pods| == |t.pods| && Next(t, steps[0]).partitions == t.partitions;
      assert forall p :: 0 <= p < |t.pods| ==> Next(t, steps[0]).pods[p].probes == t.pods[p].probes;
      RunKeepsInv(Next(t, steps[0]), steps[1..]);
    }
  }

  /** The partitions 0, ..., n - 1. */
  function AllPartitions(n: nat): (s: set<int>)
    ensures |s| == n && forall i :: i in s <==> 0 <= i < n
  {
    if n == 0 then {} else AllPartitions(n - 1) + {n - 1}
  }

  lemma {:induction false} FullSet(a: set<int>, b: set<int>)
    requires a <= b && |b| <= |a|
    ensures a == b
  {
    assert b == a + (b - a);
    assert |b| == |a| + |b - a|;
  }

  /** The protocol under every interleaving. Each pod is resolved at most once, exactly once when nothing of it is
      pending, and never both ways; the subscription's counter is the number of pods not yet taken off it by a
      cancellation, and never negative; the callback is called at most once per pod and only when ready; the swap of a
      pod fails at most as often as it was decremented, so the retry loop ends; and if only existing partitions are
      reported, ready means all of them were, and the next check finds them ready as soon as they are. */
  lemma ProtocolIsSafe(probes: seq<nat>, partitions: nat, steps: seq<Step>)
    requires forall i :: 0 <= i < |probes| ==> 0 < probes[i]
    requires IsRun(NewTarget(probes, partitions), steps)
    ensures var t := Reached(NewTarget(probes, partitions), steps);
            && |t.pods| == |probes|
            && (forall p :: 0 <= p < |t.pods| ==>
                  var pod := t.pods[p];
                  && pod.successes + pod.cancellations == (if pod.pending <= 0 then 1 else 0)
                  && pod.failedSwaps <= pod.decrements <= pod.probes == probes[p]
                  && pod.calls <= 1 && (pod.calls > 0 ==> t.ready))
            && t.counter == |t.pods| - CountedPods(t.pods) && 0 <= t.counter
            && (t.reported <= AllPartitions(partitions) ==>
                  && (t.ready ==> t.reported == AllPartitions(partitions))
                  && (CheckReadiness(t).ready <==> t.reported == AllPartitions(partitions)))
  {
    var t0 := NewTarget(probes, partitions);
    NewTargetInv(probes, partitions);
    RunKeepsInv(t0, steps);
    var t := Reached(t0, steps);
    CountedBound(t.pods);
    if t.ready && t.reported <= AllPartitions(partitions) {
      FullSet(t.reported, AllPartitions(partitions));
    }
    if !t.ready { ReadinessIff(t); }
  }

  // ----- the callback is made -----

  /** A step of the worker that saw the last probe succeed, or of the goroutine waiting for the cancellation. */
  predicate Pending(s: Step) {
    OfPod(s) && !s.ProbeSucceeds?
  }

  /** What such a goroutine has to do next stays to be done until it is done, whatever else happens. */
  lemma StaysEnabled(t: Target, s: Step, other: Step)
    requires Inv(t) && Enabled(t, s) && Enabled(t, other) && Pending(s) && other != s
    ensures Enabled(Next(t, other), s)
  {
    if OfPod(other) && other.p == s.p {
      assert PodOk(t.pods[s.p], t.ready);
    }
  }

  lemma {:induction false} StaysEnabledOverRuns(t: Target, s: Step, steps: seq<Step>)
    requires Inv(t) && Enabled(t, s) && Pending(s) && IsRun(t, steps) && s !in steps
    ensures Enabled(Reached(t, steps), s)
    decreases steps
  {
    hide Inv, Enabled, Next;
    if steps != [] {
      assert steps[0] != s;
      StaysEnabled(t, s, steps[0]);
      StepKeepsInv(t, steps[0]);
      StaysEnabledOverRuns(Next(t, steps[0]), s, steps[1..]);
    }
  }

  /** The step that makes the callback a check of this pod led to. */
  function CallOf(check: Step): Step
    requires check.WinnerChecks? || check.CancellerChecks?
  {
    if check.WinnerChecks? then WinnerCalls(check.p) else CancellerCalls(check.p)
  }

  /** A check finds what is to be found, and exactly if that is readiness the callback is due next. */
  lemma CheckLeadsToCall(t: Target, check: Step)
    requires Inv(t) && Enabled(t, check) && (check.WinnerChecks? || check.CancellerChecks?)
    ensures Next(t, check).ready == CheckReadiness(t).ready
    ensures Enabled(Next(t, check), CallOf(check)) <==> CheckReadiness(t).ready
  {
  }

  /** The callback counts once, and is over then. */
  lemma CallCounts(t: Target, call: Step)
    requires Inv(t) && Enabled(t, call) && (call.WinnerCalls? || call.CancellerCalls?)
    ensures Next(t, call).pods[call.p].calls == 1
  {
    StepKeepsInv(t, call);
    assert PodOk(Next(t, call).pods[call.p], t.ready);
  }

  lemma {:induction false} CallsStay(t: Target, steps: seq<Step>, p: nat)
    requires Inv(t) && IsRun(t, steps) && p < |t.pods|
    ensures |Reached(t, steps).pods| == |t.pods| && t.pods[p].calls <= Reached(t, steps).pods[p].calls
    decreases steps
  {
    hide Inv;
    if steps != [] {
      StepKeepsInv(t, steps[0]);
      CallsStay(Next(t, steps[0]), steps[1..], p);
    }
  }

  lemma {:induction false} CallIsTaken(t: Target, call: Step, steps: seq<Step>)
    requires Inv(t) && Enabled(t, call) && (call.WinnerCalls? || call.CancellerCalls?) && IsRun(t, steps)
            && call in steps
    ensures |Reached(t, steps).pods| == |t.pods| && Reached(t, steps).pods[call.p].calls == 1
    decreases steps
  {
    hide Inv, Next;
    var t1 := Next(t, steps[0]);
    StepKeepsInv(t, steps[0]);
    RunKeepsInv(t, steps);
    if steps[0] == call {
      CallCounts(t, call);
      assert |t1.pods| == |t.pods| by { SamePods(t, call); }
      CallsStay(t1, steps[1..], call.p);
      AtMostOneCall(Reached(t, steps), call.p);
    } else {
      StaysEnabled(t, call, steps[0]);
      assert call in steps[1..];
      CallIsTaken(t1, call, steps[1..]);
    }
  }

  lemma SamePods(t: Target, s: Step)
    requires Enabled(t, s)
    ensures |Next(t, s).pods| == |t.pods|
  {
  }

  lemma AtMostOneCall(t: Target, p: nat)
    requires Inv(t) && p < |t.pods|
    ensures t.pods[p].calls <= 1
  {
    assert PodOk(t.pods[p], t.ready);
  }

  /** The controller is told. In every run, if a worker or a canceller checks when every partition has been reported,
      and nothing but partitions, then the callback is made on its account, once, or is still due at the end of the
      run. */
  lemma CallbackIsMade(probes: seq<nat>, partitions: nat, before: seq<Step>, check: Step, after: seq<Step>)
    requires forall i :: 0 <= i < |probes| ==> 0 < probes[i]
    requires IsRun(NewTarget(probes, partitions), before)
    requires var t := Reached(NewTarget(probes, partitions), before);
             && Enabled(t, check) && (check.WinnerChecks? || check.CancellerChecks?)
             && t.reported == AllPartitions(partitions) && IsRun(Next(t, check), after)
    ensures var t := Reached(Next(Reached(NewTarget(probes, partitions), before), check), after);
            && |t.pods| == |probes| && check.p < |probes|
            && (CallOf(check) in after ==> t.pods[check.p].calls == 1)
            && (CallOf(check) !in after ==> Enabled(t, CallOf(check)))
            && (!Enabled(t, CallOf(check)) ==> t.pods[check.p].calls == 1)
  {
    hide Inv, Next, PodEnabled;
    var t0 := NewTarget(probes, partitions);
    var t := Reached(t0, before);
    var t1 := Next(t, check);
    NewTargetInv(probes, partitions);
    RunKeepsInv(t0, before);
    StepKeepsInv(t, check);
    SamePods(t, check);
    CheckLeadsToCall(t, check);
    RunKeepsInv(t1, after);
    if CallOf(check) in after {
      CallIsTaken(t1, CallOf(check), after);
    } else {
      StaysEnabledOverRuns(t1, CallOf(check), after);
    }
  }

  /** A canceller that takes its pod off the counter goes on to check exactly if it was the last: the counter is then
      zero, and every pod was cancelled and taken off it. */
  lemma LastCancellerChecks(t: Target, p: nat)
    requires Inv(t) && Enabled(t, Decrement(p))
    ensures var t' := Next(t, Decrement(p));
            && t'.counter == t.counter - 1
            && (Enabled(t', CancellerChecks(p)) <==> t'.counter == 0)
            && (t'.counter == 0 <==> forall q :: 0 <= q < |t'.pods| ==> Counted(t'.pods[q]))
  {
    var t' := Next(t, Decrement(p));
    StepKeepsInv(t, Decrement(p));
    CountedBound(t'.pods);
  }

  /** The worker that sees the last pending probe of a pod succeed goes on to check. */
  lemma LastProbeChecks(t: Target, p: nat)
    requires Inv(t) && Enabled(t, ProbeSucceeds(p))
    ensures var t' := Next(t, ProbeSucceeds(p));
            && t'.pods[p].pending == t.pods[p].pending - 1
            && (t.pods[p].pending == 1 ==> t'.pods[p].successes == 1 && Enabled(t', WinnerChecks(p)))
            && (t.pods[p].pending != 1 ==> t'.pods[p].successes == t.pods[p].successes)
  {
    assert PodOk(t.pods[p], t.ready);
  }

  /** Nobody has anything left to do but wait for probes and reports. */
  predicate Settled(t: Target) {
    forall p :: 0 <= p < |t.pods| ==>
      t.pods[p].canceller.Returned? && (t.pods[p].winner.NotYet? || t.pods[p].winner.Done?)
  }

  /** Once everybody is done, every pod was resolved exactly once, and the counter is the number of pods that were not
      cancelled. */
  lemma SettledIsResolved(t: Target)
    requires Inv(t) && Settled(t)
    ensures forall p :: 0 <= p < |t.pods| ==> t.pods[p].successes + t.pods[p].cancellations == 1
    ensures t.counter == |t.pods| - Cancelled(t.pods)
  {
    assert forall p :: 0 <= p < |t.pods| ==> PodOk(t.pods[p], t.ready);
    CountedIsCancelled(t.pods);
  }

  function Cancelled(pods: seq<Pod>): nat {
    if pods == [] then 0 else (if pods[0].cancellations == 1 then 1 else 0) + Cancelled(pods[1..])
  }

  lemma {:induction false} CountedIsCancelled(pods: seq<Pod>)
    requires forall p :: 0 <= p < |pods| ==> !pods[p].canceller.Decrementing?
    ensures CountedPods(pods) == Cancelled(pods)
  {
    if pods != [] { CountedIsCancelled(pods[1..]); }
  }

  // ----- when the check of readiness is right -----

  /** The check finds the subscription ready exactly when every partition was reported. */
  predicate ChecksRightly(t: Target) {
    CheckReadiness(t).ready <==> AllPartitions(t.partitions) <= t.reported
  }

  /** If all partitions were reported, they are found ready exactly when nothing else was; if only partitions were
      reported, they are found ready exactly when all of them were. */
  lemma ReadinessIff(t: Target)
    requires !t.ready
    ensures var all := AllPartitions(t.partitions);
            && (all <= t.reported ==> (CheckReadiness(t).ready <==> t.reported <= all))
            && (t.reported <= all ==> (CheckReadiness(t).ready <==> t.reported == all))
  {
    var all := AllPartitions(t.partitions);
    assert all <= t.reported <= all ==> all == t.reported;
    if |t.reported| == t.partitions {
      if all <= t.reported { FullSet(all, t.reported); }
      if t.reported <= all { FullSet(t.reported, all); }
    }
  }

  lemma {:induction false} SubsetOfSize<T>(s: set<T>, n: nat) returns (r: set<T>)
    requires n <= |s|
    ensures r <= s && |r| == n
    decreases s
  {
    if n == |s| { return s; }
    var x :| x in s;
    r := SubsetOfSize(s - {x}, n);
  }

  /** Whichever of the given partitions are reported, the check is right: this holds exactly if all the given ones
      exist, or if there are too few of them for the check ever to succeed. */
  lemma RightForAllReportsIff(t: Target, given: set<int>)
    requires !t.ready
    ensures (given <= AllPartitions(t.partitions) || |given| < t.partitions) <==>
            forall reported :: reported <= given ==> ChecksRightly(t.(reported := reported))
  {
    var all, n := AllPartitions(t.partitions), t.partitions;
    if given <= all || |given| < n {
      forall reported | reported <= given ensures ChecksRightly(t.(reported := reported)) {
        SubsetSize(reported, given);
        if given <= all { ReadinessIff(t.(reported := reported)); }
        if all <= reported { SubsetSize(all, reported); }
      }
    } else {
      var stray :| stray in given && stray !in all;
      var reported;
      if all <= given {
        reported := all + {stray};
      } else {
        reported := SubsetOfSize(given, n);
      }
      assert reported <= given && !ChecksRightly(t.(reported := reported));
    }
  }

  /** Reports of partitions that do not exist can hide that every partition was reported, and can make the
      subscription ready although a partition never was. */
  lemma StrayReports(probes: seq<nat>)
    ensures var t := NewTarget(probes, 1);
            && IsRun(t, [Report({0, 7})]) && IsRun(t, [Report({7}), Check])
            && var hidden, early := Reached(t, [Report({0, 7})]), Reached(t, [Report({7}), Check]);
            && AllPartitions(1) <= hidden.reported && !CheckReadiness(hidden).ready
            && early.ready && 0 !in early.reported
  {
    var t := NewTarget(probes, 1);
    assert |{0, 7}| == 2 && |{7}| == 1;
    var t1, t2 := Next(t, Report({0, 7})), Next(t, Report({7}));
    assert t1.reported == {0, 7} && t2.reported == {7};
    assert [Report({0, 7})][1..] == [] && [Report({7}), Check][1..] == [Check] && [Check][1..] == [];
    assert IsRun(t1, []) && Reached(t1, []) == t1;
    assert IsRun(t2, [Check]) && Reached(t2, [Check]) == Next(t2, Check);
  }
}
