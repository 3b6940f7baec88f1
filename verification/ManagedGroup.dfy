/** A managed consumer group: its lock with a timeout, and its stop and start (pkg/common/consumer/managed_group.go). */
module ManagedGroups {
  import opened Options

  /** The consumer group under management, the generation of the factory that built it, and whether Close was called
      on it. Only the first Close of a group can fail. */
  datatype Inner = Inner(id: nat, factory: nat, closed: bool)

  datatype CommandLock = CommandLock(token: string, lockBefore: bool, unlockAfter: bool, timeout: int)

  const UNLOCKED := ""
  const DEFAULT_LOCK_TIMEOUT := 300

  /** The state of a managed group: the inner group, the token holding the lock, the stopped flag, how often each
      restart channel ever made was closed (the last is the current one), the timers that are armed (neither cancelled
      nor expired), the timer the cancel function belongs to, and the number of timers made. */
  datatype Group = Group(
    inner: Inner, lockedBy: string, stopped: bool, channels: seq<nat>, armed: set<nat>, current: Option<nat>,
    timers: nat)

  function NewGroup(inner: Inner): Group {
    Group(inner, UNLOCKED, false, [], {}, None, 0)
  }

  // ----- the lock -----

  function CancelTimer(g: Group): Group {
    if g.current.Some? then g.(armed := g.armed - {g.current.value}) else g
  }

  function RemoveLock(g: Group): Group {
    if g.lockedBy != UNLOCKED then CancelTimer(g.(lockedBy := UNLOCKED)) else g
  }

  function ResetLock(g: Group, token: string, timeout: int): Group {
    var g1 := CancelTimer(g);
    if token != UNLOCKED && timeout != 0 then
      g1.(lockedBy := token, armed := g1.armed + {g1.timers}, current := Some(g1.timers), timers := g1.timers + 1)
    else RemoveLock(g1)
  }

  function TokenOf(lock: Option<CommandLock>): string {
    if lock.Some? then lock.value.token else UNLOCKED
  }

  predicate CanUnlock(g: Group, token: string) {
    g.lockedBy == UNLOCKED || g.lockedBy == token
  }

  function ProcessLock(g: Group, lock: Option<CommandLock>, before: bool): (Group, bool) {
    if !CanUnlock(g, TokenOf(lock)) then (g, false)
    else if lock.None? then (g, true)
    else if before && lock.value.lockBefore then
      var timeout := if lock.value.timeout == 0 then DEFAULT_LOCK_TIMEOUT else lock.value.timeout;
      (ResetLock(g, lock.value.token, timeout), true)
    else if !before && lock.value.unlockAfter then (RemoveLock(g), true)
    else (g, true)
  }

  /** An armed timer runs out: it removes the lock and is gone. */
  function Expire(g: Group, timer: nat): Group {
    var g1 := RemoveLock(g);
    g1.(armed := g1.armed - {timer})
  }

  // ----- stop, start, close -----

  function CreateRestartChannel(g: Group): Group {
    if g.stopped then g else g.(channels := g.channels + [0], stopped := true)
  }

  function CloseRestartChannel(g: Group): Group {
    if !g.stopped || g.channels == [] then g
    else
      var n := |g.channels| - 1;
      g.(stopped := false, channels := g.channels[n := g.channels[n] + 1])
  }

  function CloseInner(g: Group, fails: bool): (Group, bool) {
    (g.(inner := g.inner.(closed := true)), g.inner.closed || !fails)
  }

  function Stop(g: Group, closeFails: bool): (Group, bool) {
    var (g1, ok) := CloseInner(CreateRestartChannel(g), closeFails);
    if ok then (g1, true) else (CloseRestartChannel(g1), false)
  }

  function Start(g: Group, created: Option<Inner>): (Group, bool) {
    if created.None? then (g, false) else (CloseRestartChannel(g.(inner := created.value)), true)
  }

  function Close(g: Group, closeFails: bool): (Group, bool) {
    CloseInner(CloseRestartChannel(g), closeFails)
  }

  // ----- what every step keeps -----

  /** Locked exactly when one timer is armed, which is the one the cancel function stops. */
  ghost predicate LockOk(g: Group) {
    && (g.lockedBy != UNLOCKED <==> |g.armed| == 1)
    && (g.lockedBy == UNLOCKED <==> g.armed == {})
    && (g.lockedBy != UNLOCKED ==> g.current.Some? && g.armed == {g.current.value})
    && (g.current.Some? ==> g.current.value < g.timers)
  }

  /** Stopped exactly when the current restart channel is open; every earlier channel was closed once; and a stopped
      group's inner group is closed. */
  ghost predicate ChannelsOk(g: Group) {
    && (forall i :: 0 <= i < |g.channels| ==> g.channels[i] == if g.stopped && i == |g.channels| - 1 then 0 else 1)
    && (g.stopped ==> g.channels != [] && g.inner.closed)
  }

  ghost predicate Inv(g: Group) {
    LockOk(g) && ChannelsOk(g)
  }

  // ----- what each operation does -----

  /** The same lock and the same timers. */
  predicate KeepsLock(g: Group, g': Group) {
    g'.lockedBy == g.lockedBy && g'.armed == g.armed && g'.current == g.current && g'.timers == g.timers
  }

  /** The same inner group, stopped or running as before. */
  predicate KeepsRunning(g: Group, g': Group) {
    g'.inner == g.inner && g'.stopped == g.stopped && g'.channels == g.channels
  }

  /** Every restart channel ever made was closed exactly once. */
  predicate AllClosed(g: Group) {
    forall i :: 0 <= i < |g.channels| ==> g.channels[i] == 1
  }

  /** The current restart channel is open, and all before it were closed exactly once. */
  predicate LastOpen(g: Group) {
    && g.channels != []
    && forall i :: 0 <= i < |g.channels| ==> g.channels[i] == if i == |g.channels| - 1 then 0 else 1
  }

  /** Stopping closes the inner group while a restart channel is open, at most one more than before; if closing fails,
      that channel is closed again. */
  lemma StopLaw(g: Group, closeFails: bool)
    requires Inv(g)
    ensures var (g', ok) := Stop(g, closeFails);
            && ok == (g.inner.closed || !closeFails)
            && g'.stopped == ok && g'.inner == g.inner.(closed := true) && KeepsLock(g, g')
            && |g'.channels| == |g.channels| + (if g.stopped then 0 else 1)
            && (if ok then LastOpen(g') else AllClosed(g'))
  {
  }

  /** Starting puts the new inner group in place and closes the restart channel, if there is one open; without a new
      inner group nothing changes. */
  lemma StartLaw(g: Group, created: Option<Inner>)
    requires Inv(g)
    ensures var (g', ok) := Start(g, created);
            && ok == created.Some?
            && (!ok ==> g' == g)
            && (ok ==> !g'.stopped && g'.inner == created.value && KeepsLock(g, g'))
            && (ok ==> |g'.channels| == |g.channels| && AllClosed(g'))
  {
  }

  /** Closing ends the stop, if there is one, and closes the inner group, whether or not that fails. */
  lemma CloseLaw(g: Group, closeFails: bool)
    requires Inv(g)
    ensures var (g', ok) := Close(g, closeFails);
            && ok == (g.inner.closed || !closeFails)
            && !g'.stopped && g'.inner == g.inner.(closed := true) && KeepsLock(g, g')
            && |g'.channels| == |g.channels| && AllClosed(g')
  {
  }

  /** Who may pass, and what passing does: a request is refused exactly if another token holds the lock, and then
      changes nothing. Locking takes the lock for the token with a timer of its own, whatever the timeout, and cancels
      any other timer; unlocking leaves neither lock nor timer; anything else changes nothing. */
  lemma ProcessLockLaw(g: Group, lock: Option<CommandLock>, before: bool)
    requires Inv(g)
    ensures var (g', ok) := ProcessLock(g, lock, before);
            var locks := lock.Some? && before && lock.value.lockBefore && lock.value.token != UNLOCKED;
            var unlocks := lock.Some? && !before && lock.value.unlockAfter;
            && (ok <==> g.lockedBy == UNLOCKED || g.lockedBy == TokenOf(lock))
            && KeepsRunning(g, g')
            && (ok && locks ==> g'.lockedBy == lock.value.token && g'.armed == {g.timers} && g.timers !in g.armed)
            && (ok && unlocks ==> g'.lockedBy == UNLOCKED && g'.armed == {})
            && (!ok || !(locks || unlocks) ==> g'.lockedBy == g.lockedBy && g'.armed == g.armed)
            && (!ok ==> g' == g)
  {
    if lock.Some? && before && lock.value.lockBefore && CanUnlock(g, lock.value.token) {
      assert CancelTimer(g).armed == {};
    }
  }

  datatype Event =
    | Lock(lock: Option<CommandLock>, before: bool)
    | StopGroup(closeFails: bool)
    | StartGroup(created: Option<Inner>)
    | CloseGroup(closeFails: bool)
    | TimerExpires(timer: nat)

  predicate Possible(g: Group, e: Event) {
    e.TimerExpires? ==> e.timer in g.armed
  }

  function After(g: Group, e: Event): (Group, bool) {
    match e
    case Lock(lock, before) => ProcessLock(g, lock, before)
    case StopGroup(closeFails) => Stop(g, closeFails)
    case StartGroup(created) => Start(g, created)
    case CloseGroup(closeFails) => Close(g, closeFails)
    case TimerExpires(timer) => (Expire(g, timer), true)
  }

  lemma LockingKeepsInv(g: Group, lock: Option<CommandLock>, before: bool)
    requires Inv(g)
    ensures Inv(ProcessLock(g, lock, before).0)
  {
    if lock.Some? && before && lock.value.lockBefore && CanUnlock(g, lock.value.token) && lock.value.token != UNLOCKED {
      var g1 := CancelTimer(g);
      assert g1.armed == {};
      assert g1.armed + {g1.timers} == {g1.timers};
    }
  }

  lemma ExpiryKeepsInv(g: Group, timer: nat)
    requires Inv(g) && timer in g.armed
    ensures Inv(Expire(g, timer))
  {
    assert g.armed == {timer};
    assert Expire(g, timer).armed == {};
  }

  lemma ClosingChannel(g: Group)
    requires g.stopped ==> g.channels != []
    requires forall i :: 0 <= i < |g.channels| ==> g.channels[i] == if g.stopped && i == |g.channels| - 1 then 0 else 1
    ensures var g' := CloseRestartChannel(g);
            && !g'.stopped && g' == g.(stopped := false, channels := g'.channels)
            && forall i :: 0 <= i < |g'.channels| ==> g'.channels[i] == 1
  {
  }

  lemma RestartingKeepsInv(g: Group, closeFails: bool, created: Option<Inner>)
    requires Inv(g)
    ensures Inv(Stop(g, closeFails).0) && Inv(Start(g, created).0) && Inv(Close(g, closeFails).0)
  {
    hide LockOk;
    var g1 := CloseInner(CreateRestartChannel(g), closeFails).0;
    ClosingChannel(g1);
    ClosingChannel(g);
    if created.Some? { ClosingChannel(g.(inner := created.value)); }
    SameLock(g, Stop(g, closeFails).0);
    SameLock(g, Start(g, created).0);
    SameLock(g, Close(g, closeFails).0);
  }

  lemma SameLock(g: Group, g': Group)
    requires KeepsLock(g, g')
    ensures LockOk(g) ==> LockOk(g')
  {
  }

  /** Every event, including failing closes and creates, keeps the invariant, and no restart channel is closed twice. */
  lemma EventKeepsInv(g: Group, e: Event)
    requires Inv(g) && Possible(g, e)
    ensures Inv(After(g, e).0)
    ensures forall i :: 0 <= i < |After(g, e).0.channels| ==> After(g, e).0.channels[i] <= 1
  {
    hide LockOk, ProcessLock, Stop, Start, Close, Expire;
    match e
    case Lock(lock, before) => LockingKeepsInv(g, lock, before);
    case StopGroup(closeFails) => RestartingKeepsInv(g, closeFails, None);
    case StartGroup(created) => RestartingKeepsInv(g, false, created);
    case CloseGroup(closeFails) => RestartingKeepsInv(g, closeFails, None);
    case TimerExpires(timer) => ExpiryKeepsInv(g, timer);
  }

  /** Every finite sequence of events each possible where it happens. */
  predicate Run(g: Group, events: seq<Event>)
    decreases events
  {
    events != [] ==> Possible(g, events[0]) && Run(After(g, events[0]).0, events[1..])
  }

  function Outcome(g: Group, events: seq<Event>): Group
    decreases events
  {
    if events == [] then g else Outcome(After(g, events[0]).0, events[1..])
  }

  /** Reachable-state invariant: no lock lasts without a timer, and the stopped flag never disagrees with the restart
      channel. */
  lemma {:induction false} RunKeepsInv(g: Group, events: seq<Event>)
    requires Inv(g) && Run(g, events)
    ensures Inv(Outcome(g, events))
    decreases events
  {
    if events != [] {
      EventKeepsInv(g, events[0]);
      RunKeepsInv(After(g, events[0]).0, events[1..]);
    }
  }

  lemma NewGroupInv(inner: Inner)
    ensures Inv(NewGroup(inner))
  {
  }

  // ----- who holds the lock -----

  /** The events that end the hold of the token t: an unlock with that token after a command, or the expiry of its
      timer. */
  predicate Releases(e: Event, t: string) {
    || (e.Lock? && e.lock.Some? && e.lock.value.token == t && !e.before && e.lock.value.unlockAfter)
    || e.TimerExpires?
  }

  /** While t holds the lock, the next holder is t or nobody; nobody exactly by t's own unlock or t's timer; and a
      lock request with another token, or with none, fails and changes nothing. */
  lemma HolderStep(g: Group, e: Event)
    requires Inv(g) && Possible(g, e) && g.lockedBy != UNLOCKED
    ensures var (g', ok) := After(g, e);
            && (g'.lockedBy == g.lockedBy || g'.lockedBy == UNLOCKED)
            && (g'.lockedBy == UNLOCKED <==> Releases(e, g.lockedBy))
            && (e.TimerExpires? ==> g'.lockedBy == UNLOCKED && Some(e.timer) == g.current)
            && (e.Lock? && TokenOf(e.lock) != g.lockedBy ==> !ok && g' == g)
  {
    if e.TimerExpires? {
      assert g.armed == {e.timer};
    }
  }

  function States(g: Group, events: seq<Event>): (r: seq<Group>)
    ensures |r| == |events| + 1 && r[0] == g && r[|events|] == Outcome(g, events)
    decreases events
  {
    if events == [] then [g] else [g] + States(After(g, events[0]).0, events[1..])
  }

  /** In every run, the lock passes from one token to a different one only through being unlocked, and it is released
      by an event of the holder. */
  lemma {:induction false} OwnershipPassesThroughUnlocked(g: Group, events: seq<Event>, t: string)
    requires Inv(g) && Run(g, events) && g.lockedBy == t != UNLOCKED && Outcome(g, events).lockedBy != t
    ensures exists k ::
              && 0 <= k < |events| && Releases(events[k], t)
              && States(g, events)[k].lockedBy == t && States(g, events)[k + 1].lockedBy == UNLOCKED
    decreases events
  {
    var g1 := After(g, events[0]).0;
    HolderStep(g, events[0]);
    EventKeepsInv(g, events[0]);
    if g1.lockedBy == t {
      OwnershipPassesThroughUnlocked(g1, events[1..], t);
      var k :| 0 <= k < |events[1..]| && States(g1, events[1..])[k].lockedBy == t
               && States(g1, events[1..])[k + 1].lockedBy == UNLOCKED && Releases(events[1..][k], t);
      assert States(g, events)[k + 1].lockedBy == t && States(g, events)[k + 2].lockedBy == UNLOCKED
             && Releases(events[k + 1], t);
    } else {
      assert States(g, events)[0].lockedBy == t && States(g, events)[0 + 1].lockedBy == UNLOCKED;
    }
  }

  // ----- the object -----

  /** The object behind a managed group. Its methods change it field by field; View is its state as a value. */
  class ManagedGroup {
    var inner: Inner
    var lockedBy: string
    var stopped: bool
    var channels: seq<nat>
    var armed: set<nat>
    var current: Option<nat>
    var timers: nat

    constructor (inner: Inner)
      ensures View() == NewGroup(inner)
    {
      this.inner, lockedBy, stopped, channels := inner, UNLOCKED, false, [];
      armed, current, timers := {}, None, 0;
    }

    function View(): Group
      reads this
    {
      Group(inner, lockedBy, stopped, channels, armed, current, timers)
    }

    method CancelLockTimeout()
      modifies this`armed
      ensures View() == CancelTimer(old(View()))
    {
      if current.Some? {
        armed := armed - {current.value};
      }
    }

    method Unlock()
      modifies this
      ensures View() == RemoveLock(old(View()))
    {
      if lockedBy != UNLOCKED {
        lockedBy := UNLOCKED;
        CancelLockTimeout();
      }
    }

    method SetLock(token: string, timeout: int)
      modifies this
      ensures View() == ResetLock(old(View()), token, timeout)
    {
      CancelLockTimeout();
      if token != UNLOCKED && timeout != 0 {
        armed, current, timers := armed + {timers}, Some(timers), timers + 1;
        lockedBy := token;
      } else {
        Unlock();
      }
    }

    method Process(lock: Option<CommandLock>, before: bool) returns (ok: bool)
      modifies this
      ensures (View(), ok) == ProcessLock(old(View()), lock, before)
    {
      var token := UNLOCKED;
      if lock.Some? {
        token := lock.value.token;
      }
      if !(lockedBy == UNLOCKED || lockedBy == token) {
        return false;
      }
      if lock.None? {
        return true;
      }
      if before && lock.value.lockBefore {
        var timeout := lock.value.timeout;
        if timeout == 0 {
          timeout := DEFAULT_LOCK_TIMEOUT;
        }
        SetLock(lock.value.token, timeout);
      } else if !before && lock.value.unlockAfter {
        Unlock();
      }
      return true;
    }

    /** An expiring timer ends the hold it was armed for and leaves no timer behind; nothing else changes. */
    method TimerRunsOut(timer: nat)
      requires Inv(View()) && timer in armed
      modifies this
      ensures Inv(View()) && old(lockedBy) != UNLOCKED
      ensures View() == old(View()).(lockedBy := UNLOCKED, armed := {})
    {
      ExpiryKeepsInv(View(), timer);
      Unlock();
      armed := armed - {timer};
    }

    method OpenRestartChannel()
      modifies this
      ensures View() == CreateRestartChannel(old(View()))
    {
      if !stopped {
        channels := channels + [0];
        stopped := true;
      }
    }

    method ShutRestartChannel()
      requires stopped ==> channels != []
      modifies this
      ensures View() == CloseRestartChannel(old(View()))
    {
      if stopped {
        stopped := false;
        var n := |channels| - 1;
        channels := channels[n := channels[n] + 1];
      }
    }

    method CloseSaramaGroup(fails: bool) returns (ok: bool)
      modifies this
      ensures (View(), ok) == CloseInner(old(View()), fails)
    {
      ok := inner.closed || !fails;
      inner := inner.(closed := true);
    }

    method StopManaged(closeFails: bool) returns (ok: bool)
      requires Inv(View())
      modifies this
      ensures (View(), ok) == Stop(old(View()), closeFails)
      ensures ok == (old(inner).closed || !closeFails)
      ensures stopped == ok && inner == old(inner).(closed := true) && KeepsLock(old(View()), View())
      ensures if ok then LastOpen(View()) else AllClosed(View())
    {
      StopLaw(View(), closeFails);
      OpenRestartChannel();
      ok := CloseSaramaGroup(closeFails);
      if !ok {
        ShutRestartChannel();
      }
    }

    method StartManaged(created: Option<Inner>) returns (ok: bool)
      requires Inv(View())
      modifies this
      ensures (View(), ok) == Start(old(View()), created)
      ensures ok == created.Some?
      ensures if ok then !stopped && inner == created.value && KeepsLock(old(View()), View()) && AllClosed(View())
              else View() == old(View())
    {
      StartLaw(View(), created);
      if created.None? {
        return false;
      }
      inner := created.value;
      ShutRestartChannel();
      return true;
    }

    method CloseManaged(closeFails: bool) returns (ok: bool)
      requires Inv(View())
      modifies this
      ensures (View(), ok) == Close(old(View()), closeFails)
      ensures ok == (old(inner).closed || !closeFails)
      ensures !stopped && inner == old(inner).(closed := true) && KeepsLock(old(View()), View()) && AllClosed(View())
    {
      CloseLaw(View(), closeFails);
      ShutRestartChannel();
      ok := CloseSaramaGroup(closeFails);
    }
  }
}
