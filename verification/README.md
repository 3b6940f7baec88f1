# Verified model of the eventing-kafka control logic

This project models, in Dafny, the parts of eventing-kafka whose guarantees span several functions or whole runs, and proves
those guarantees for all inputs:

- the statefulset scheduler that places the virtual replicas of vpods on pods (`pkg/common/scheduler`), with its free-capacity
  snapshot, its two policies MAXFILLUP and EVENSPREAD, the reservations it carries between calls, and the autoscaler that sizes
  the statefulset and compacts its last pod;
- managed consumer groups with token locks, timeouts, pause and resume, and the manager that reconfigures them
  (`pkg/common/consumer`);
- the consolidated dispatcher's three tables and the consumer groups behind them (`pkg/channel/consolidated/dispatcher`);
- the race between probe successes and cancellations in the status prober (`pkg/channel/consolidated/status`);
- the fetch-size arithmetic of the multi-tenant source adapter (`pkg/source/mtadapter`).

`dafny verify dfyconfig.toml` checks the whole project.

## How it is built

Code that changes state step by step is written as methods and classes with loops. Each such method is proved equal to a function
of its inputs and of the state before, and what the program promises is then proved about that function. Whole runs are sequences
of steps over values, with every step enabled where it is taken.

| files | contents |
|---|---|
| `Options`, `Arithmetic`, `Sequences`, `Sums` | vocabulary: optional values, rounding, sums over finite sets |
| `PodNames`, `Placements` | pod names and ordinals; lists of placements and every count taken over them |
| `Snapshots`, `SnapshotLaws`, `State` | the snapshot as a function, its laws, and the loops that build it |
| `FillUp`, `EvenSpread` | the two policies, adding and removing replicas |
| `Scheduling`, `StatefulSetScheduler` | one call of Schedule as a function, and the scheduler object |
| `SchedulerRuns`, `Witnesses` | safety over whole runs; inputs showing that conditions are needed and can be met |
| `Autoscaling`, `Compaction`, `Autoscaler` | enough pods, progress of compaction, and the autoscaler's methods |
| `ManagedGroup`, `GroupManager`, `CommandRuns` | locks and restarts of one group, the manager, interleaved commands |
| `Dispatcher`, `Prober`, `FetchSize` | the remaining three components |

Conventions of the model:

- Numbers are unbounded, so every statement is about inputs whose sums fit the program's 32-bit integers. Ordinals are at most
  2147483647, which pod names enforce.
- Foreign calls are inputs: a lister that fails is `None`, a start or close that fails is a flag or a set of failing keys.
- Go visits maps and unsorted sets in an arbitrary order. Where the order could matter it is a parameter (`order`, `addOrder`,
  `removeOrder`), required only to visit everything once; elsewhere an arbitrary element is chosen.
- The vpod given to Schedule is the one that is listed at that moment.
- An expired timer and a cancelled timer exclude each other, and only the first Close of a consumer group can fail.
- Floor and ceiling of a quotient are exact here; the program computes them in double precision, which agrees for 32-bit values.

## Findings

- Reservations can be skipped. The run over a key's reserved pods in `pkg/common/scheduler/statefulset/state.go:142` ends at the first
  pod where the vpod is already placed. If the key also has a reservation on a pod where it is not placed, some map orders overstate
  the free capacity. `SnapshotLaws.ExactIffNoMix` shows that this mixture is exactly the condition, and `Witnesses.OvercommitRun` gives
  a run of two calls after which 15 replicas are promised on a pod of capacity 10.
- Under EVENSPREAD a pod that has moved to another zone than the one recorded can be listed twice (`Witnesses.StaleZoneListsTwice`).
  `Scheduling.ListedOnceIff` gives the exact condition: it never happens if the cluster has one zone or no listed pod has moved, and
  otherwise it happens for some call. This answers the question left open in `pkg/common/scheduler/statefulset/scheduler.go:418`.
- Such a result is not covered by its reservations (`SchedulerRuns.DoubleListingIsUncovered`), so it breaks safety as well: in
  `Witnesses.StaleZoneOvercommits` a second call hands out the same room, and a pod of capacity 10 ends with 13.
- Under EVENSPREAD a vpod that occupies more zones than the cluster still has may not shrink (`Witnesses.LostZonesKeepSurplus`);
  `EvenSpread.RemoveReplicasEvenSpreadLaw` gives the exact amount removed in every case.
- Compaction can move replicas up instead of down: `pkg/common/scheduler/statefulset/scheduler.go:307` fills the pods a vpod lists
  first, even an empty entry above the last ordinal (`Witnesses.CompactionRises`). `Compaction.CompactionIff` gives the exact
  condition: the last ordinal falls if every rescheduled vpod lists no such pod or has room enough on the pods it lists before it, and
  rises otherwise.
- A stop or start command checks the lock and acts in two steps. A command that passed its check can still act after another token has
  acquired the lock (`CommandRuns.StaleCommandActs`); `CommandRuns.LockExclusion` shows that this is the only way it can.
- The readiness check compares numbers of partitions. A report of a partition that does not exist can hide that all were reported, and
  can make a subscription ready although one was never reported (`Prober.StrayReports`); `Prober.RightForAllReportsIff` gives the exact
  condition under which the check is right.
- A source whose topics have no partition divides by zero: its fetch size is whatever the conversion of an infinite number to an integer
  yields (`FetchSize.PartitionFetchSize`).

## Model

| member | source | states |
|---|---|---|
| `PodNames.OrdinalFromPodName` | pkg/common/scheduler/statefulset/helpers.go:28-34 | whatever the name, the ordinal read from it is between 0 and the largest 32-bit integer |
| `PodNames.OrdinalRoundTrip` | pkg/common/scheduler/statefulset/helpers.go:24-34 | for every statefulset name, reading back the ordinal written into a pod name gives the ordinal exactly when it is not negative |
| `PodNames.PodNamesDiffer` | pkg/common/scheduler/statefulset/helpers.go:24-26 | two pods of a statefulset have the same name exactly when they have the same ordinal |
| `PodNames.MalformedReadsLargest` | pkg/common/scheduler/statefulset/helpers.go:28-34 | a name whose part after the last hyphen is not a number, or that has no hyphen and is not a number, reads as the largest ordinal |
| `Placements.SumOfCounts` | pkg/common/scheduler/placement.go:25-31 | the counts on the single pods add up to the total of a list of placements |
| `Placements.FindGivesCount` | pkg/common/scheduler/placement.go:34-41 | in a well-formed list, looking up a pod by name finds its entry with the count placed there, and nothing exactly when it is not listed |
| `StatefulSetScheduler.GetTotalVReplicas` | pkg/common/scheduler/placement.go:25-31 | the loop yields the total over all placements |
| `StatefulSetScheduler.GetPlacementForPod` | pkg/common/scheduler/placement.go:34-41 | the first entry of the named pod is found, and none only if no entry names it |
| `StatefulSetScheduler.GetPodCount` | pkg/common/scheduler/placement.go:44-52 | counts the distinct pods that hold at least one replica |
| `Snapshots.Snapshot.SetFree` | pkg/common/scheduler/statefulset/state.go:61-72 | growing the array to reach an ordinal changes the free capacity of no other ordinal, however far beyond the end |
| `State.GrowSlice` | pkg/common/scheduler/statefulset/state.go:195-207 | the slice reaches the ordinal, keeps its contents and is padded with the default |
| `State.State.SetFree` | pkg/common/scheduler/statefulset/state.go:69-72 | the object's free array becomes the one of the value-level update |
| `State.State.FreeCapacity` | pkg/common/scheduler/statefulset/state.go:76-82 | the loop sums the free capacity of the pods up to the last ordinal |
| `State.UpdateFreeCapacity` | pkg/common/scheduler/statefulset/state.go:176-193 | one charge: the pod's free capacity falls by the replicas and the last ordinal follows |
| `State.AccountCommitted` | pkg/common/scheduler/statefulset/state.go:116-134 | the nested loops charge every committed placement, drop committed reservations and record where each vpod is placed |
| `State.AccountUncommitted` | pkg/common/scheduler/statefulset/state.go:136-148 | the nested loops charge the reservations in the given map order, including the early end at a placed pod |
| `State.ReadZones` | pkg/common/scheduler/statefulset/state.go:157-168 | nodes without a zone are ignored; zones are counted once |
| `State.BuildState` | pkg/common/scheduler/statefulset/state.go:106-174 | the returned object is the specified snapshot; a failing lister leaves the reservations alone, a failing node lister does not |
| `SnapshotLaws.WithReservedLaw` | pkg/common/scheduler/statefulset/state.go:209-231 | the larger of committed and reserved is charged; a reservation is dropped exactly if it is what is committed, with its key if it was the last; no other reservation changes |
| `SnapshotLaws.PruningKeepsClaims` | pkg/common/scheduler/statefulset/state.go:118-134 | over the whole list a reservation is dropped exactly when it equals what its vpod holds on a pod it lists, and no vpod's claim on any pod changes |
| `SnapshotLaws.SnapshotRefinesDemand` | pkg/common/scheduler/statefulset/state.go:106-231 | for every list and map order: the last ordinal is the greatest one not entirely free and lies inside the array; the free capacity of a pod is at least the capacity less the summed claims, with equality exactly when every key was charged all it is owed, in particular when no key mixes placed and unplaced reservations |
| `SnapshotLaws.MixOverstates` | pkg/common/scheduler/statefulset/state.go:137-148 | any key with both kinds of reservation has a map order under which some pod shows more free capacity than it has |
| `SnapshotLaws.ExactIffNoMix` | pkg/common/scheduler/statefulset/state.go:137-148 | the snapshot is exact for every map order if and only if no key has both kinds of reservation |
| `FillUp.AddReplicasLaw` | pkg/common/scheduler/statefulset/scheduler.go:303-350 | on every pod the capacity given up equals the replicas gained; no pod gives more than it has; the vpod's own pods stay listed with no lower count; no pod is listed twice; something is left over only if every usable pod is full |
| `FillUp.AddReplicasClosedForm` | pkg/common/scheduler/statefulset/scheduler.go:303-350 | what is left over is the request less the positive free capacity of the vpod's pods and the statefulset's pods, or nothing; total free capacity falls by what was placed; other ordinals keep their value |
| `FillUp.FillNewLaw` | pkg/common/scheduler/statefulset/scheduler.go:328-347 | further pods are taken lowest ordinal first, each at most once and only while it has room |
| `FillUp.AddReplicasOrder` | pkg/common/scheduler/statefulset/scheduler.go:303-350 | the vpod's own pods gain in list order, each only after those before it are full; another pod gains only after all own pods and all pods with a lower ordinal are full |
| `FillUp.AddReplicasZones` | pkg/common/scheduler/statefulset/scheduler.go:316-342 | entries that are filled lose their zone, the others keep it, and new entries have none |
| `FillUp.AddReplicasStaysBelow` | pkg/common/scheduler/statefulset/scheduler.go:303-350 | if the pods below a bound have room enough and the vpod uses no others, no pod at or above the bound is touched |
| `FillUp.RemoveReplicasLaw` | pkg/common/scheduler/statefulset/scheduler.go:231-246 | exactly the requested number is removed, from the last entries: an entry is touched only after every later one is gone; no pod's count rises, no pod is listed twice, no empty entry and no zone remains |
| `EvenSpread.ZonesOfLaw` | pkg/common/scheduler/statefulset/scheduler.go:252-257 | the zone names are sorted, without repetition, and exactly those recorded |
| `EvenSpread.RegroupKeepsWeight` | pkg/common/scheduler/statefulset/scheduler.go:447-454 | visiting the placements zone by zone visits each exactly once: every count over them stays the same |
| `EvenSpread.SpreadZonesFull` | pkg/common/scheduler/statefulset/scheduler.go:365-394 | while replicas are left over, a pod of the vpod keeps room only if its zone has reached the spread |
| `EvenSpread.AddReplicasEvenSpreadLaw` | pkg/common/scheduler/statefulset/scheduler.go:352-432 | nothing is lost; no pod gives more than it has; each zone ends at most at the larger of its old total and the spread; replicas are left over only if every pod in a known zone is full or its zone has reached the spread; if no listed pod has moved to another zone, or one zone may take everything, no pod is listed twice |
| `EvenSpread.AddReplicasEvenSpreadOrder` | pkg/common/scheduler/statefulset/scheduler.go:352-432 | own pods come first, zone by zone in name order and in list order within a zone, each gaining only after those before it are full or in a zone at the spread; another pod is used only after all own pods and after every pod with a lower ordinal that can take something, and is recorded in its current zone |
| `EvenSpread.MovedIsListedTwice` | pkg/common/scheduler/statefulset/scheduler.go:365-430 | a pod that has moved is listed twice whenever it alone has room and its recorded zone reaches the spread first |
| `EvenSpread.ListedOnceIffZonesMatch` | pkg/common/scheduler/statefulset/scheduler.go:352-432 | no pod is listed twice, whatever is free, wanted and allowed per zone, if and only if no listed pod of the statefulset has moved to another known zone |
| `EvenSpread.RemoveReplicasEvenSpreadLaw` | pkg/common/scheduler/statefulset/scheduler.go:248-301 | exactly the smaller of the request and what the zones hold beyond the spread is removed, so the request is met if and only if it does not exceed that; every zone keeps its total or at least the spread; no count rises |
| `EvenSpread.RemoveReplicasEvenSpreadOrder` | pkg/common/scheduler/statefulset/scheduler.go:248-301 | zones lose replicas in name order, each down to the spread before the next is touched; in a zone a pod loses some only after every later listed one lost all |
| `EvenSpread.ScaleDownIsExact` | pkg/common/scheduler/statefulset/scheduler.go:185-199 | with at most as many zones in use as the cluster has, scaling down to v leaves exactly v and at least v divided by the number of zones, rounded down, in every zone that had it |
| `StatefulSetScheduler.GetPlacementsByZoneKey` | pkg/common/scheduler/statefulset/scheduler.go:447-454 | the map gives for each recorded zone the ordinals of its placements in list order |
| `StatefulSetScheduler.GetTotalVReplicasInZone` | pkg/common/scheduler/statefulset/scheduler.go:456-464 | the loop yields the zone's total |
| `StatefulSetScheduler.StatefulSetScheduler.GetPlacementFromPodOrdinal` | pkg/common/scheduler/statefulset/scheduler.go:466-473 | the entry of the pod with that ordinal, or an empty placement |
| `Scheduling.ZoneOfPodLaw` | pkg/common/scheduler/statefulset/scheduler.go:434-445 | the zone found for a pod is the label of the node it runs on and one of the zones replicas are spread over; with distinct node names every pod on a labelled node has one |
| `StatefulSetScheduler.StatefulSetScheduler.FillPods` | pkg/common/scheduler/statefulset/scheduler.go:303-350 | the loops over the snapshot object compute the specified MAXFILLUP allocation and leave the specified free array |
| `StatefulSetScheduler.StatefulSetScheduler.RemoveFromEnd` | pkg/common/scheduler/statefulset/scheduler.go:231-246 | the backward loop computes the specified removal |
| `StatefulSetScheduler.StatefulSetScheduler.SpreadOverPods` | pkg/common/scheduler/statefulset/scheduler.go:352-432 | the loops over zones and pods compute the specified EVENSPREAD allocation |
| `StatefulSetScheduler.StatefulSetScheduler.SpreadOverOwnPods` | pkg/common/scheduler/statefulset/scheduler.go:365-394 | the first half: the vpod's own pods, zone by zone in name order |
| `StatefulSetScheduler.StatefulSetScheduler.SpreadOverOtherPods` | pkg/common/scheduler/statefulset/scheduler.go:396-430 | the second half: other pods in ordinal order, skipping unknown zones and zones that reached the spread |
| `StatefulSetScheduler.StatefulSetScheduler.RemoveFromZones` | pkg/common/scheduler/statefulset/scheduler.go:248-301 | the nested loops compute the specified removal |
| `StatefulSetScheduler.StatefulSetScheduler.PendingVReplicas` | pkg/common/scheduler/statefulset/scheduler.go:477-483 | the sum of what is pending, whatever the map order |
| `StatefulSetScheduler.StatefulSetScheduler.ReservePlacements` | pkg/common/scheduler/statefulset/scheduler.go:502-526 | the loop records the specified reservations |
| `Scheduling.ReserveAt` | pkg/common/scheduler/statefulset/scheduler.go:502-526 | afterwards a reservation is the new count where that exceeds the committed one, and as before on every other pod |
| `Scheduling.SortLaw` | pkg/common/scheduler/statefulset/scheduler.go:140-142 | the result is in strictly increasing ordinal order and keeps every count |
| `Scheduling.RearrangeLaw` | pkg/common/scheduler/statefulset/scheduler.go:150-229 | for both policies and directions: placed plus left over is what is wanted, no pod gains more than its positive free capacity, counts move in one direction only, no pod is listed twice if zones are current |
| `Scheduling.ListedOnceIff` | pkg/common/scheduler/statefulset/scheduler.go:200-229 | with the spread a call really computes: for every wanted number and every snapshot without overcommitted pods no pod is listed twice, if and only if the cluster has one zone or no listed pod has moved |
| `Scheduling.MovedCounterexample` | pkg/common/scheduler/statefulset/scheduler.go:352-432 | with two or more zones, every pod that has moved is listed twice by some call |
| `Scheduling.ScheduleLaw` | pkg/common/scheduler/statefulset/scheduler.go:131-246 | success means exactly the wanted number is placed; failure means a positive rest is recorded as pending and total plus rest is what is wanted; scaling down leaves pending alone and no other key's pending changes; the result is strictly ordered and names no pod twice; scaling up lowers no count and scaling down raises none |
| `Scheduling.ScheduleSpreads` | pkg/common/scheduler/statefulset/scheduler.go:150-229 | under EVENSPREAD, in terms of what is wanted and the number of zones: scaling up, with the least share that suffices no zone ends above the larger of its share and what it had, and failure means every pod in a known zone is full or its zone has its share; scaling down, with the greatest share every zone can have each zone keeps its share or all it had |
| `Scheduling.ScheduleFills` | pkg/common/scheduler/statefulset/scheduler.go:150-229 | under MAXFILLUP, in terms of the snapshot and the counts before and after: which pods gain and in which order, that failure means all usable pods are full, and that scaling down takes from the last entries |
| `StatefulSetScheduler.StatefulSetScheduler.ScheduleVPod` | pkg/common/scheduler/statefulset/scheduler.go:150-229 | the method's result, pending and reservations are the specified ones, and the autoscaler is told the pending total exactly on failure |
| `StatefulSetScheduler.StatefulSetScheduler.Schedule` | pkg/common/scheduler/statefulset/scheduler.go:131-148 | result and memory after a call are the specified function of the memory before |
| `SchedulerRuns.ScheduleDemand` | pkg/common/scheduler/statefulset/scheduler.go:131-148 | a call raises the demand on a pod by at most what the vpod gains there, leaves every other vpod's claims alone, and covers its own result |
| `SchedulerRuns.DoubleListingIsUncovered` | pkg/common/scheduler/statefulset/scheduler.go:502-526 | for every result that lists a pod in two non-empty entries beyond what its vpod claims, the reservations recorded fall short of what committing it takes |
| `SchedulerRuns.StepKeepsInv` | pkg/common/scheduler/statefulset/scheduler.go:131-148 | schedule, commit, evict, change, resize, create and delete each keep: no pod is promised beyond its capacity, and every uncommitted result is covered by its vpod's claims |
| `SchedulerRuns.RunsAreSafe` | pkg/common/scheduler/statefulset/state.go:106-193 | in every run without mixed reservations at a snapshot (and, when EVENSPREAD adds replicas, with a single zone or no pod moved), the sum over vpods of the larger of committed and reserved never exceeds a pod's capacity |
| `SchedulerRuns.StartIsSafe` | pkg/common/scheduler/statefulset/scheduler.go:102-129 | the empty start satisfies the invariant |
| `SchedulerRuns.WithoutLaw` | pkg/source/reconciler/mtsource/controller.go:95-102 | eviction removes all of the vpod's replicas from the pod and none from any other |
| `Witnesses.OvercommitRun` | pkg/common/scheduler/statefulset/state.go:137-148 | a run of two calls from a safe state after which a pod of capacity 10 is promised 15 |
| `Witnesses.StaleZoneListsTwice` | pkg/common/scheduler/statefulset/scheduler.go:396-430 | a call from a safe state that lists a moved pod twice and reserves nothing of what it adds |
| `Witnesses.StaleZoneOvercommits` | pkg/common/scheduler/statefulset/scheduler.go:502-526 | a run without mixed reservations in which that result is committed after another call, and a pod of capacity 10 holds 13 |
| `Witnesses.LostZonesKeepSurplus` | pkg/common/scheduler/statefulset/scheduler.go:185-199 | with more zones in use than the cluster has, a surplus may stay entirely |
| `Autoscaling.NewReplicasLaw` | pkg/common/scheduler/statefulset/autoscaler.go:127-143 | the least number that is at least the last ordinal plus one, has empty pods enough for what is pending, and is at least the current count unless scale-down is permitted; so less than one pod too many whenever scale-down is permitted or the count changes |
| `Autoscaling.RoundFits` | pkg/common/scheduler/statefulset/scheduler.go:303-350 | vpods whose deficits fit the room below a bound are all fully placed, in any order, whether or not results are committed in between and whatever the map orders |
| `Autoscaling.AutoscalingSuffices` | pkg/common/scheduler/statefulset/autoscaler.go:108-161 | with the chosen number of pods, all vpods whose deficits add up to at most pending are placed in any order, if no reservation lies beyond the last ordinal the autoscaler sees |
| `Autoscaling.SameSightWithoutReservations` | pkg/common/scheduler/statefulset/autoscaler.go:108-113 | without reservations that condition holds |
| `Compaction.RoundCompacts` | pkg/common/scheduler/statefulset/autoscaler.go:163-185 | rescheduled and committed vpods whose deficits fit below the bound end fully placed, below the bound if they listed nothing above; others do not change |
| `FillUp.StaysBelowIff` | pkg/common/scheduler/statefulset/scheduler.go:307-326 | with room enough below a bound, a listed pod at or above it attracts replicas exactly when the pods listed before it do not have room for all of them |
| `Compaction.TurnStaysBelowIff` | pkg/common/scheduler/statefulset/scheduler.go:303-350 | the same for one call of Schedule, judged on the snapshot it is shown |
| `Compaction.RoundStaysBelowIff` | pkg/common/scheduler/statefulset/autoscaler.go:163-214 | a round of calls in any order leaves the pods from the bound on free if and only if every call is judged so in the state it is made in; otherwise a vpod ends on one of them |
| `Compaction.CompactionPlacesAll` | pkg/common/scheduler/statefulset/autoscaler.go:163-214 | if the test passes, every round after the eviction succeeds and leaves every vpod fully placed, whatever empty entries there are |
| `Compaction.CompactionIff` | pkg/common/scheduler/statefulset/autoscaler.go:163-214 | the last ordinal strictly decreases if every call is judged to stay below it, and strictly rises otherwise |
| `Compaction.CompactionProgress` | pkg/common/scheduler/statefulset/autoscaler.go:163-214 | if the test passes and no rescheduled vpod lists a pod above the last ordinal, evicting the last pod and rescheduling and committing the evicted vpods in any order succeeds on lower ordinals only, every vpod ends fully placed, and the last ordinal strictly decreases |
| `Compaction.TestIffFits` | pkg/common/scheduler/statefulset/autoscaler.go:163-185 | the test passes if and only if there is a pod below the last one and what the last one holds fits the room below it, exact fit included |
| `Compaction.PositiveUsesOnly` | pkg/common/scheduler/statefulset/state.go:182-190 | vpods without empty entries list no pod above the last ordinal |
| `Witnesses.CompactionRises` | pkg/common/scheduler/statefulset/autoscaler.go:163-214 | a round that meets every other premise but has an empty entry above the last ordinal, after which the last ordinal is higher than before |
| `Witnesses.CompactionApplies` | pkg/common/scheduler/statefulset/autoscaler.go:163-214 | the premises of the compaction theorem can be met: a round of turns exists that empties the last of two pods |
| `Autoscaler.Store.Evict` | pkg/source/reconciler/mtsource/controller.go:84-102 | the stored vpod loses its placements on the pod, unless the call fails |
| `Autoscaler.Compact` | pkg/common/scheduler/statefulset/autoscaler.go:187-214 | without failure every placement on the last pod is gone and nothing else changed; if the vpods cannot be listed nothing changes; a failing eviction leaves each vpod evicted or as it was |
| `Autoscaler.MayCompactState` | pkg/common/scheduler/statefulset/autoscaler.go:163-185 | decides exactly whether the pods below the last have room for what it holds, under MAXFILLUP and with more than one pod |
| `Autoscaler.DoAutoscale` | pkg/common/scheduler/statefulset/autoscaler.go:108-161 | the stored scale becomes the specified number unless fetching or updating it fails, and then nothing changes; only if the number stays the same is the last pod compacted, and then exactly when the test passes and nothing fails |
| `ManagedGroups.EventKeepsInv` | pkg/common/consumer/managed_group.go:89-137 | every lock, stop, start, close and timer event, failing or not, keeps: locked exactly when one timer is armed, stopped exactly when the current restart channel is open, every restart channel closed at most once |
| `ManagedGroups.RunKeepsInv` | pkg/common/consumer/managed_group.go:181-238 | the same in every reachable state |
| `ManagedGroups.ProcessLockLaw` | pkg/common/consumer/managed_group.go:181-273 | a request is refused exactly if another token holds the lock; locking takes the lock with a new timer and cancels any other, whatever the timeout; unlocking leaves neither lock nor timer; nothing else changes |
| `ManagedGroups.StopLaw` | pkg/common/consumer/managed_group.go:89-103 | succeeds exactly if the inner group was closed already or closing works; the inner group is closed in any case; stopped with the last restart channel open exactly on success, otherwise every channel is closed once; lock and timers stay |
| `ManagedGroups.StartLaw` | pkg/common/consumer/managed_group.go:107-115 | succeeds exactly if a new inner group is made; then it is in place, the group runs and every restart channel is closed once; otherwise nothing changes |
| `ManagedGroups.CloseLaw` | pkg/common/consumer/managed_group.go:120-137 | the group no longer waits for a restart, every restart channel is closed once, the inner group is closed, and success means it was closed already or closing works |
| `ManagedGroups.HolderStep` | pkg/common/consumer/managed_group.go:245-273 | while a token holds the lock, any other token or none is refused and changes nothing, and the hold ends exactly by an unlock with that token after a command, or by its own timer |
| `ManagedGroups.OwnershipPassesThroughUnlocked` | pkg/common/consumer/managed_group.go:181-273 | in every run the lock passes to a different token only through being unlocked, released by the holder's unlock or timer |
| `ManagedGroups.ManagedGroup.Process` | pkg/common/consumer/managed_group.go:245-273 | the method on the object does what is specified for its state |
| `ManagedGroups.ManagedGroup.SetLock` | pkg/common/consumer/managed_group.go:181-222 | the old timer is cancelled; a token with a timeout takes the lock with a new timer, anything else removes the lock |
| `ManagedGroups.ManagedGroup.Unlock` | pkg/common/consumer/managed_group.go:232-238 | the lock is removed together with its timer |
| `ManagedGroups.ManagedGroup.TimerRunsOut` | pkg/common/consumer/managed_group.go:202-207 | a timer can expire only while the lock is held; it ends that hold, leaves no timer armed, keeps the invariant and changes nothing else |
| `ManagedGroups.ManagedGroup.StopManaged` | pkg/common/consumer/managed_group.go:89-103 | on the object: inner group closed, stopped exactly on success, restart channel open exactly then, lock and timers as before |
| `ManagedGroups.ManagedGroup.StartManaged` | pkg/common/consumer/managed_group.go:107-115 | on the object: a new inner group replaces the old one and ends the stop; a failing create changes nothing |
| `ManagedGroups.ManagedGroup.CloseManaged` | pkg/common/consumer/managed_group.go:120-137 | on the object: no restart channel stays open, the inner group is closed, and an error is reported exactly if closing an open group fails |
| `GroupManager.HeldGroupRefusesCommands` | pkg/common/consumer/consumer_manager.go:317-383 | a stop or start command without the holder's token fails and leaves the group entirely as it was |
| `GroupManager.StopCommandLaw` | pkg/common/consumer/consumer_manager.go:317-346 | for every lock: succeeds exactly if no other token holds the group and the inner group can be closed, stops it exactly then, and leaves the lock to whom the request says, kept on failure |
| `GroupManager.StartCommandLaw` | pkg/common/consumer/consumer_manager.go:349-383 | for every lock: succeeds exactly if no other token holds the group and a new inner group is made, which then runs; otherwise the group runs or waits as before |
| `GroupManager.ReconfigureOneLaw` | pkg/common/consumer/consumer_manager.go:193-221 | a foreign lock keeps a group untouched; otherwise it ends running, unlocked, on a fresh group of the new factory, or locked by the manager, and which of these happens is decided exactly by the failures |
| `GroupManager.Manager.StartConsumerGroup` | pkg/common/consumer/consumer_manager.go:225-253 | a new unlocked running group is registered, unless it cannot be made |
| `GroupManager.Manager.CloseConsumerGroup` | pkg/common/consumer/consumer_manager.go:258-276 | the inner group is closed and no restart channel stays open; the group leaves the map exactly if closing succeeds; an unknown id fails |
| `GroupManager.Manager.StopConsumerGroup` | pkg/common/consumer/consumer_manager.go:317-346 | lock, stop, unlock on the named group and no other; an unknown id fails |
| `GroupManager.Manager.RestartConsumerGroup` | pkg/common/consumer/consumer_manager.go:349-383 | lock, create with the current factory, unlock on the named group and no other |
| `GroupManager.Manager.Reconfigure` | pkg/common/consumer/consumer_manager.go:193-221 | for any number of groups and any failures: foreign-held groups are untouched, every other one ends renewed by the new factory or locked by the manager because of a failure, and there is no error exactly when all end renewed |
| `CommandRuns.RunKeepsValid` | pkg/common/consumer/consumer_manager.go:317-424 | in every interleaving, a command past its check finds its group held by another token only if the lock was acquired after that check |
| `CommandRuns.LockExclusion` | pkg/common/consumer/consumer_manager.go:317-424 | in every reachable state of interleaved commands and timers: checking and releasing without the holder's token fail and change no group; acting without it happens only after a check made before the lock was acquired and leaves the holder; the releasing step of the holder's own command with unlock requested ends a hold, and nothing else does but its timer, closing or replacement of the group |
| `CommandRuns.GroupSteps` | pkg/common/consumer/consumer_manager.go:225-276 | outside of commands, expiry frees a group, closing removes it exactly if it succeeds, registration puts a new one in its place, and no other group is touched |
| `CommandRuns.UninterruptedCommand` | pkg/common/consumer/consumer_manager.go:317-383 | a command whose steps are not interrupted does to its group what the command run to the end does, and nothing to anything else |
| `CommandRuns.StaleCommandActs` | pkg/common/consumer/consumer_manager.go:317-346 | an interleaving in which a command without a lock stops a group held by a token |
| `Dispatcher.SubscribeKeepsAgreement` | pkg/channel/consolidated/dispatcher/dispatcher.go:289-335 | subscribing a uid no channel serves keeps the tables in agreement, whether or not its group starts, touches nothing else, makes the channel's entry in any case, and records the subscription as given under a new group on success |
| `Dispatcher.UnsubscribeKeepsAgreement` | pkg/channel/consolidated/dispatcher/dispatcher.go:339-364 | unsubscribing keeps the tables in agreement, calls Close once on exactly that group, and drops the channel exactly if it was the last subscription |
| `Dispatcher.UnsubscribeForgets` | pkg/channel/consolidated/dispatcher/dispatcher.go:339-364 | whatever the channel, the uid is forgotten and no other subscription; without an entry for the channel nothing is closed |
| `Dispatcher.ReconcileReachesTarget` | pkg/channel/consolidated/dispatcher/dispatcher.go:174-235 | the channel serves exactly what is wanted less what failed; only newly wanted uids can fail; each new one is recorded as given and served by a group started just now; other channels and the groups of kept subscriptions are left alone; on a converged configuration nothing changes |
| `Dispatcher.CleanupLaw` | pkg/channel/consolidated/dispatcher/dispatcher.go:260-285 | agreement survives an early return, which happens exactly at the first group that cannot be closed and leaves the subscriptions after it; without one all given subscriptions are gone |
| `Dispatcher.RunsKeepAgreement` | pkg/channel/consolidated/dispatcher/dispatcher.go:174-364 | over every run channels share no uid, the tables hold exactly the served uids, and every group ever started is registered under one uid or had Close called exactly once |
| `Dispatcher.KafkaDispatcher.SubscribeTo` | pkg/channel/consolidated/dispatcher/dispatcher.go:289-335 | the method on the object does what is specified for its tables |
| `Dispatcher.KafkaDispatcher.UnsubscribeFrom` | pkg/channel/consolidated/dispatcher/dispatcher.go:339-364 | the method on the object does what is specified for its tables, and fails only if a group was to be closed and could not be |
| `Dispatcher.KafkaDispatcher.ReconcileConsumers` | pkg/channel/consolidated/dispatcher/dispatcher.go:174-235 | the target is reached on the object, the reported failures are exactly the new uids whose group did not start, and every other new uid keeps the last specification the configuration gives for it |
| `Dispatcher.KafkaDispatcher.CleanupChannel` | pkg/channel/consolidated/dispatcher/dispatcher.go:260-285 | success leaves the channel without subscriptions; agreement holds in any case |
| `Prober.StepKeepsInv` | pkg/channel/consolidated/status/status.go:444-475 | every atomic step of reports, successes and cancellations keeps the protocol's invariant and never takes readiness back |
| `Prober.ProtocolIsSafe` | pkg/channel/consolidated/status/status.go:161-506 | under every interleaving: each pod is resolved once nothing is pending, exactly once and never both ways; the counter is the pods less those cancelled and taken off it, never negative; at most one callback per pod and only when ready; failed swaps are bounded by decrements; with reports in range, ready means every partition was reported and a check finds it so exactly then |
| `Prober.CallbackIsMade` | pkg/channel/consolidated/status/status.go:444-475 | in every run, a worker or canceller that checks when exactly all partitions have been reported has the callback made once on its account, or still due at the end of the run |
| `Prober.CheckLeadsToCall` | pkg/channel/consolidated/status/status.go:450-471 | after a check the callback is due if and only if readiness was found |
| `Prober.StaysEnabledOverRuns` | pkg/channel/consolidated/status/status.go:444-475 | what a worker or canceller has to do next stays to be done until it is done, whatever others do |
| `Prober.LastCancellerChecks` | pkg/channel/consolidated/status/status.go:464-471 | a canceller goes on to check exactly if it brings the counter to zero, which means every pod was cancelled and taken off it |
| `Prober.LastProbeChecks` | pkg/channel/consolidated/status/status.go:444-455 | the worker that sees the last pending probe of a pod succeed resolves the pod and goes on to check; no other does |
| `Prober.SettledIsResolved` | pkg/channel/consolidated/status/status.go:444-475 | once everybody is done, every pod was resolved exactly once, and the counter is the number of pods not cancelled |
| `Prober.ReadinessIff` | pkg/channel/consolidated/status/status.go:161-177 | once all partitions are reported they are found ready exactly if nothing else was; as long as only partitions are reported they are found ready exactly if all were |
| `Prober.RightForAllReportsIff` | pkg/channel/consolidated/status/status.go:161-177 | the check is right for every choice of reports among given numbers if and only if these all exist or are fewer than the partitions |
| `Prober.StrayReports` | pkg/channel/consolidated/status/status.go:161-177 | two runs with a partition number out of range: one hides readiness, the other finds ready a subscription whose only partition was never reported |
| `FetchSize.HandledLaw` | pkg/source/mtadapter/adapter.go:271-280 | with fewer than three pods all partitions are handled, otherwise twice the least share with which the pods hold them all |
| `FetchSize.MemoryBound` | pkg/source/mtadapter/adapter.go:265-290 | twice the fetch size for every handled partition fits the memory of the virtual replicas, and one byte more per virtual replica would not; with fewer than three pods that is every partition |
| `FetchSize.CoversLossIffHalf` | pkg/source/mtadapter/adapter.go:271-280 | with three or more pods, the handled share covers the loss of k pods for every number of partitions if and only if k is at most half |
| `FetchSize.BoundSurvivesLoss` | pkg/source/mtadapter/adapter.go:265-290 | after losing up to half the pods the fetch size still fits the memory |
| `FetchSize.PartitionFetchSize` | pkg/source/mtadapter/adapter.go:242-290 | the loop and the rounding give the specified size, within the memory limit; topics that cannot be described are an error, and without any partition the size is unspecified |
| `FetchSize.UpdateSizes` | pkg/source/mtadapter/adapter.go:126-160 | a pod without replicas of the source is skipped, and without a memory limit no sizes are set; otherwise the default size is within the limit and the maximum is the larger of it and 64 KiB, unless topics cannot be described or have no partition |

## Left out

- 32-bit wrap-around in the scheduler: statements are about sums that fit; the program does not check this either.
- Malformed pod names in committed placements: such a name reads as the largest ordinal and the program would fail on it; placements are assumed to name pods of the statefulset.
- Schedule sorting in place the slice it got from the vpod: the model sorts a copy, so the aliasing with the lister's cache is not captured.
- A vpod passed to Schedule that is older than the listed one: the model passes the listed one.
- EVENSPREAD with no zone-labelled node: the program divides by zero in floating point; the model requires one zone.
- FetchSize.PartitionFetchSize: requires at least one pod, which its caller guarantees, and does not model double-precision rounding for limits beyond 2^53.
- The maximum fetch size in the memory bound: it is raised to 64 KiB regardless of the limit.
- `consume` and `transferErrors` of a managed group: they look at the stopped flag only after the inner call ends, so they may miss a fast stop and start.
- The timer goroutine of a lock: expiry and cancellation are steps; whether the goroutine ends is not modelled.
- Data races on the unsynchronised fields of a managed group: each lock operation, stop, start and close is one step.
- GroupManager.Manager.Reconfigure: runs without interleaved commands or timer expiries; those are covered by the runs of single commands.
- CommandRuns.LockExclusion: does not promise that a command acts only while its own token or nobody holds the lock, because the program checks and acts separately.
- The prober's work queue, HTTP probing and the map of targets: only the counters and flags of one subscription are modelled; goroutines may wake at any time.
- The autoscaler's polling and trigger channel, Kubernetes clients, informers, patches, logging, metrics and tracing.
- The distributed dispatcher's subscription updates, claims, bindings, configuration, webhooks and generated code: they would only add easier members.
