/** The manager of consumer groups: stop and start commands run under a lock, and the reconfiguration of all groups
    (pkg/common/consumer/consumer_manager.go). */
module GroupManager {
  import opened Options
  import opened ManagedGroups

  const INTERNAL_TOKEN := "internal-token"

  // ----- commands run to the end -----

  /** A stop command on one group: lock, stop, unlock. */
  function StopCommand(g: Group, lock: Option<CommandLock>, closeFails: bool): (Group, bool) {
    var (g1, locked) := ProcessLock(g, lock, true);
    if !locked then (g1, false)
    else
      var (g2, done) := Stop(g1, closeFails);
      if !done then (g2, false) else ProcessLock(g2, lock, false)
  }

  function StartCommand(g: Group, lock: Option<CommandLock>, created: Option<Inner>): (Group, bool) {
    var (g1, locked) := ProcessLock(g, lock, true);
    if !locked then (g1, false)
    else
      var (g2, done) := Start(g1, created);
      if !done then (g2, false) else ProcessLock(g2, lock, false)
  }

  const STOPPING := CommandLock(INTERNAL_TOKEN, true, false, 0)
  const STARTING := CommandLock(INTERNAL_TOKEN, false, true, 0)

  /** What reconfiguring does to one group. */
  function ReconfigureOne(g: Group, closeFails: bool, created: Option<Inner>): (Group, bool) {
    var (g1, stopped) := StopCommand(g, Some(STOPPING), closeFails);
    if !stopped then (g1, false) else StartCommand(g1, Some(STARTING), created)
  }

  lemma CommandsKeepInv(g: Group, lock: Option<CommandLock>, closeFails: bool, created: Option<Inner>)
    requires Inv(g)
    ensures Inv(StopCommand(g, lock, closeFails).0) && Inv(StartCommand(g, lock, created).0)
  {
    var g1 := ProcessLock(g, lock, true).0;
    LockingKeepsInv(g, lock, true);
    EventKeepsInv(g1, StopGroup(closeFails));
    EventKeepsInv(g1, StartGroup(created));
    LockingKeepsInv(Stop(g1, closeFails).0, lock, false);
    LockingKeepsInv(Start(g1, created).0, lock, false);
  }

  /** The request is not refused. */
  predicate Passes(g: Group, lock: Option<CommandLock>) {
    g.lockedBy == UNLOCKED || g.lockedBy == TokenOf(lock)
  }

  /** Who holds the lock after a command that passed, depending on whether it succeeded: a failing command keeps the
      lock it took. */
  function HolderAfter(g: Group, lock: Option<CommandLock>, ok: bool): string {
    if lock.None? then g.lockedBy
    else if ok && lock.value.unlockAfter then UNLOCKED
    else if lock.value.lockBefore then lock.value.token
    else g.lockedBy
  }

  /** A stop command, whatever its lock: it succeeds exactly if it passes and the inner group can be closed; it stops
      the group exactly then; and one that does not pass changes nothing. */
  lemma StopCommandLaw(g: Group, lock: Option<CommandLock>, closeFails: bool)
    requires Inv(g)
    ensures var (g', ok) := StopCommand(g, lock, closeFails);
            && (ok <==> Passes(g, lock) && (g.inner.closed || !closeFails))
            && (!Passes(g, lock) ==> g' == g)
            && (Passes(g, lock) ==>
                  && g'.stopped == ok && g'.inner == g.inner.(closed := true)
                  && g'.lockedBy == HolderAfter(g, lock, ok))
  {
    hide Inv, Stop, ProcessLock;
    var g1 := ProcessLock(g, lock, true).0;
    ProcessLockLaw(g, lock, true);
    LockingKeepsInv(g, lock, true);
    StopLaw(g1, closeFails);
    RestartingKeepsInv(g1, closeFails, None);
    ProcessLockLaw(Stop(g1, closeFails).0, lock, false);
  }

  /** A start command likewise: it succeeds exactly if it passes and a new inner group can be made. */
  lemma StartCommandLaw(g: Group, lock: Option<CommandLock>, created: Option<Inner>)
    requires Inv(g)
    ensures var (g', ok) := StartCommand(g, lock, created);
            && (ok <==> Passes(g, lock) && created.Some?)
            && (!Passes(g, lock) ==> g' == g)
            && (ok ==> !g'.stopped && g'.inner == created.value)
            && (!ok ==> KeepsRunning(g, g'))
            && (Passes(g, lock) ==> g'.lockedBy == HolderAfter(g, lock, ok))
  {
    hide Inv, Start, ProcessLock;
    var g1 := ProcessLock(g, lock, true).0;
    ProcessLockLaw(g, lock, true);
    LockingKeepsInv(g, lock, true);
    StartLaw(g1, created);
    RestartingKeepsInv(g1, false, created);
    ProcessLockLaw(Start(g1, created).0, lock, false);
  }

  /** The group is held by someone else than the manager itself. */
  predicate Foreign(g: Group) {
    g.lockedBy != UNLOCKED && g.lockedBy != INTERNAL_TOKEN
  }

  /** Running, unlocked, on an inner group of the given generation that was never closed. */
  predicate Renewed(g: Group, factory: nat) {
    !g.stopped && g.lockedBy == UNLOCKED && g.inner.factory == factory && !g.inner.closed
  }

  /** The stopping half of a reconfiguration. */
  lemma StoppingLaw(g: Group, closeFails: bool)
    requires Inv(g)
    ensures var (g', ok) := StopCommand(g, Some(STOPPING), closeFails);
            && Inv(g')
            && (Foreign(g) ==> !ok && g' == g)
            && (!Foreign(g) ==>
                  g'.lockedBy == INTERNAL_TOKEN && g'.stopped == ok && ok == (g.inner.closed || !closeFails))
  {
    hide Inv;
    CommandsKeepInv(g, Some(STOPPING), closeFails, None);
    assert g.stopped ==> g.inner.closed by { StoppedIsClosed(g); }
  }

  lemma StoppedIsClosed(g: Group)
    requires Inv(g)
    ensures g.stopped ==> g.inner.closed && g.channels != []
  {
  }

  /** The starting half. */
  lemma StartingLaw(g: Group, created: Option<Inner>)
    requires Inv(g) && g.lockedBy == INTERNAL_TOKEN
    ensures var (g', ok) := StartCommand(g, Some(STARTING), created);
            && Inv(g')
            && ok == created.Some?
            && (ok ==> !g'.stopped && g'.lockedBy == UNLOCKED && g'.inner == created.value)
            && (!ok ==> g' == g)
  {
    hide Inv;
    CommandsKeepInv(g, Some(STARTING), false, created);
    StoppedIsClosed(g);
  }

  /** Reconfiguring one group: a foreign lock keeps it untouched; otherwise it ends renewed, or locked by the manager
      because its inner group could not be closed or a new one could not be made. */
  lemma ReconfigureOneLaw(g: Group, closeFails: bool, created: Option<Inner>, factory: nat)
    requires Inv(g) && (created.Some? ==> created.value.factory == factory && !created.value.closed)
    ensures var (g', ok) := ReconfigureOne(g, closeFails, created);
            && Inv(g')
            && (Foreign(g) ==> !ok && g' == g)
            && (ok ==> Renewed(g', factory) && g'.inner == created.value)
            && (!ok && !Foreign(g) ==>
                  && g'.lockedBy == INTERNAL_TOKEN
                  && ((closeFails && !g.inner.closed && !g'.stopped) || (created.None? && g'.stopped)))
            && (ok <==> !Foreign(g) && (g.inner.closed || !closeFails) && created.Some?)
  {
    hide Inv, StopCommand, StartCommand;
    StoppingLaw(g, closeFails);
    var (g1, stopped) := StopCommand(g, Some(STOPPING), closeFails);
    if stopped { StartingLaw(g1, created); }
  }

  /** While another token holds the group, a command fails and nothing about the group changes. */
  lemma HeldGroupRefusesCommands(g: Group, lock: Option<CommandLock>, closeFails: bool, created: Option<Inner>)
    requires g.lockedBy != UNLOCKED && TokenOf(lock) != g.lockedBy
    ensures StopCommand(g, lock, closeFails) == (g, false) && StartCommand(g, lock, created) == (g, false)
  {
  }

  // ----- all groups, as values -----

  type Groups = map<string, Group>

  ghost predicate AllInv(gs: Groups) {
    forall id :: id in gs ==> Inv(gs[id])
  }

  /** The groups outside `todo` went through the stopping half; `stopped` holds those that could be stopped. */
  ghost predicate StoppedSoFar(
    before: Groups, now: Groups, todo: set<string>, stopped: set<string>, closeFails: set<string>)
  {
    && now.Keys == before.Keys && todo <= before.Keys && stopped <= before.Keys - todo
    && (forall id :: id in todo ==> now[id] == before[id])
    && (forall id :: id in before && id !in todo ==>
          (now[id], id in stopped) == StopCommand(before[id], Some(STOPPING), id in closeFails))
  }

  lemma StopNext(
    before: Groups, now: Groups, todo: set<string>, stopped: set<string>, closeFails: set<string>, id: string,
    g: Group, ok: bool)
    requires StoppedSoFar(before, now, todo, stopped, closeFails) && id in todo
    requires (g, ok) == StopCommand(now[id], Some(STOPPING), id in closeFails)
    ensures StoppedSoFar(before, now[id := g], todo - {id}, if ok then stopped + {id} else stopped, closeFails)
  {
    hide StopCommand;
  }

  lemma NothingStopped(gs: Groups, closeFails: set<string>)
    ensures StoppedSoFar(gs, gs, gs.Keys, {}, closeFails)
  {
  }

  /** A stopped group is held by the manager. */
  lemma StoppedIsHeld(before: Groups, now: Groups, stopped: set<string>, closeFails: set<string>, id: string)
    requires AllInv(before) && StoppedSoFar(before, now, {}, stopped, closeFails) && id in stopped
    ensures id in now && now[id].lockedBy == INTERNAL_TOKEN
  {
    hide StopCommand, Inv;
    StoppingLaw(before[id], id in closeFails);
  }

  /** The groups in `stopped` but outside `todo` went through the starting half. */
  ghost predicate StartedSoFar(
    before: Groups, now: Groups, todo: set<string>, stopped: set<string>, createFails: set<string>, factory: nat)
  {
    && now.Keys == before.Keys && todo <= stopped <= before.Keys
    && (forall id :: id in before && (id in todo || id !in stopped || id in createFails) ==> now[id] == before[id])
    && (forall id :: id in stopped && id !in todo && id !in createFails ==> Renewed(now[id], factory))
  }

  lemma StartNext(
    before: Groups, now: Groups, todo: set<string>, stopped: set<string>, createFails: set<string>, factory: nat,
    id: string, g: Group)
    requires StartedSoFar(before, now, todo, stopped, createFails, factory) && id in todo
    requires if id in createFails then g == now[id] else Renewed(g, factory)
    ensures StartedSoFar(before, now[id := g], todo - {id}, stopped, createFails, factory)
  {
    hide Renewed;
  }

  lemma NothingStarted(gs: Groups, stopped: set<string>, createFails: set<string>, factory: nat)
    requires stopped <= gs.Keys
    ensures StartedSoFar(gs, gs, stopped, stopped, createFails, factory)
  {
  }

  lemma StillHeld(
    before: Groups, now: Groups, todo: set<string>, stopped: set<string>, createFails: set<string>, factory: nat,
    id: string)
    requires StartedSoFar(before, now, todo, stopped, createFails, factory) && id in todo
    ensures id in before && id in now && now[id] == before[id]
  {
  }

  /** After both halves: foreign-held groups are untouched, and every other one is renewed or still held by the
      manager. */
  lemma BothHalves(
    before: Groups, middle: Groups, after: Groups, stopped: set<string>, closeFails: set<string>,
    createFails: set<string>, factory: nat, id: string)
    requires AllInv(before) && StoppedSoFar(before, middle, {}, stopped, closeFails) && id in before
    requires StartedSoFar(middle, after, {}, stopped, createFails, factory)
    ensures Foreign(before[id]) ==> id !in stopped && after[id] == before[id]
    ensures !Foreign(before[id]) ==>
              || Renewed(after[id], factory)
              || (after[id].lockedBy == INTERNAL_TOKEN && (id in closeFails || id in createFails))
    ensures Renewed(after[id], factory) <==> id in stopped && id !in createFails
  {
    hide StopCommand, Inv;
    StoppingLaw(before[id], id in closeFails);
  }

  // ----- the object -----

  class Manager {
    var groups: map<string, ManagedGroup>
    var factory: nat
    var made: nat

    ghost function Views(): Groups
      reads this, groups.Values
    {
      map id | id in groups :: groups[id].View()
    }

    /** Every group is well formed, and no object is registered twice. */
    ghost predicate Valid()
      reads this, groups.Values
    {
      && (forall id :: id in groups ==> Inv(groups[id].View()))
      && (forall i, j :: i in groups && j in groups && i != j ==> groups[i] != groups[j])
    }

    constructor ()
      ensures Valid() && groups == map[]
    {
      groups, factory, made := map[], 0, 0;
    }

    /** The inner group the factory makes, unless it fails. */
    method CreateConsumerGroup(fails: bool) returns (created: Option<Inner>)
      modifies this`made
      ensures fails ==> created.None?
      ensures !fails ==> created.Some? && created.value.factory == factory && !created.value.closed
    {
      if fails {
        return None;
      }
      created := Some(Inner(made, factory, false));
      made := made + 1;
    }

    /** Register a new group under an id, replacing whatever was registered there. */
    method StartConsumerGroup(id: string, createFails: bool) returns (ok: bool)
      requires Valid()
      modifies this
      ensures Valid() && ok == !createFails
      ensures !ok ==> groups == old(groups)
      ensures ok ==>
                && groups.Keys == old(groups).Keys + {id} && groups == old(groups)[id := groups[id]]
                && fresh(groups[id]) && groups[id].View() == NewGroup(groups[id].inner)
                && Renewed(groups[id].View(), factory)
    {
      var created := CreateConsumerGroup(createFails);
      if created.None? {
        return false;
      }
      var g := new ManagedGroup(created.value);
      NewGroupInv(created.value);
      groups := groups[id := g];
      return true;
    }

    /** Close a group and forget it, unless closing fails. Locks are not consulted. */
    method CloseConsumerGroup(id: string, closeFails: bool) returns (ok: bool)
      requires Valid()
      modifies this, if id in groups then {groups[id]} else {}
      ensures Valid()
      ensures id !in old(groups) ==> !ok && groups == old(groups)
      ensures id in old(groups) ==>
                var g := old(groups)[id];
                && ok == (old(groups[id].inner).closed || !closeFails)
                && g.inner == old(groups[id].inner).(closed := true) && !g.stopped && AllClosed(g.View())
                && KeepsLock(old(groups[id].View()), g.View())
                && groups == if ok then old(groups) - {id} else old(groups)
    {
      if id !in groups {
        return false;
      }
      EventKeepsInv(groups[id].View(), CloseGroup(closeFails));
      ok := groups[id].CloseManaged(closeFails);
      if ok {
        groups := groups - {id};
      }
    }

    method StopConsumerGroup(lock: Option<CommandLock>, id: string, closeFails: bool) returns (ok: bool)
      requires Valid()
      modifies if id in groups then {groups[id]} else {}
      ensures Valid()
      ensures id !in groups ==> !ok
      ensures id in groups ==> (groups[id].View(), ok) == StopCommand(old(groups[id].View()), lock, closeFails)
    {
      hide Inv, KeepsLock, AllClosed, LastOpen, Stop, Start, ProcessLock;
      if id in groups {
        CommandsKeepInv(groups[id].View(), lock, closeFails, None);
        LockingKeepsInv(groups[id].View(), lock, true);
        ok := groups[id].Process(lock, true);
        if !ok {
          return false;
        }
      }
      if id !in groups {
        return false;
      }
      ok := groups[id].StopManaged(closeFails);
      if !ok {
        return false;
      }
      ok := groups[id].Process(lock, false);
    }

    method RestartConsumerGroup(
      lock: Option<CommandLock>, id: string, createFails: bool)
      returns (ok: bool, ghost created: Option<Inner>)
      requires Valid()
      modifies this`made, if id in groups then {groups[id]} else {}
      ensures Valid()
      ensures id !in groups ==> !ok
      ensures created.Some? ==> created.value.factory == factory && !created.value.closed
      ensures createFails ==> created.None?
      ensures id in groups ==> (groups[id].View(), ok) == StartCommand(old(groups[id].View()), lock, created)
      ensures id in groups && ok ==> created.Some?
      ensures id in groups && !createFails && CanUnlock(old(groups[id].View()), TokenOf(lock)) ==> created.Some?
    {
      hide Inv, KeepsLock, AllClosed, LastOpen, Stop, Start, ProcessLock;
      created := None;
      if id in groups {
        CommandsKeepInv(groups[id].View(), lock, false, None);
        LockingKeepsInv(groups[id].View(), lock, true);
        ProcessLockLaw(groups[id].View(), lock, true);
        ok := groups[id].Process(lock, true);
        if !ok {
          return false, None;
        }
      }
      if id !in groups {
        return false, None;
      }
      var c := CreateConsumerGroup(createFails);
      created := c;
      CommandsKeepInv(old(groups[id].View()), lock, false, c);
      ok := groups[id].StartManaged(c);
      if !ok {
        return;
      }
      ok := groups[id].Process(lock, false);
    }

    lemma ViewsInv()
      requires Valid()
      ensures AllInv(Views())
    {
      hide Inv;
    }

    /** Stop one group under the manager's own lock. */
    method StopOne(id: string, closeFails: bool) returns (ok: bool)
      requires Valid() && id in groups
      modifies groups[id]
      ensures Valid() && Views() == old(Views())[id := groups[id].View()]
      ensures (groups[id].View(), ok) == StopCommand(old(Views())[id], Some(STOPPING), closeFails)
    {
      hide StopCommand, Inv;
      ok := StopConsumerGroup(Some(STOPPING), id, closeFails);
    }

    /** Stop every group, each under the manager's own lock, noting those that could be stopped. */
    method StopAll(closeFails: set<string>) returns (stopped: set<string>, ok: bool)
      requires Valid()
      modifies groups.Values
      ensures Valid() && stopped <= groups.Keys && StoppedSoFar(old(Views()), Views(), {}, stopped, closeFails)
      ensures ok <==> stopped == groups.Keys
    {
      hide StopCommand, StoppedSoFar, Valid;
      stopped, ok := {}, true;
      var todo := groups.Keys;
      assert Views().Keys == todo;
      NothingStopped(Views(), closeFails);
      while todo != {}
        invariant Valid() && todo <= groups.Keys && StoppedSoFar(old(Views()), Views(), todo, stopped, closeFails)
        invariant stopped <= groups.Keys - todo && (ok <==> stopped == groups.Keys - todo)
        decreases todo
      {
        var id :| id in todo;
        ghost var now := Views();
        var done := StopOne(id, id in closeFails);
        StopNext(old(Views()), now, todo, stopped, closeFails, id, groups[id].View(), done);
        todo := todo - {id};
        if done {
          stopped := stopped + {id};
        } else {
          ok := false;
        }
      }
    }

    /** Restart one group the manager has stopped. */
    method RestartStopped(id: string, createFails: bool) returns (ok: bool)
      requires Valid() && id in groups && groups[id].lockedBy == INTERNAL_TOKEN
      modifies this`made, groups[id]
      ensures Valid() && ok == !createFails
      ensures if createFails then groups[id].View() == old(groups[id].View()) else Renewed(groups[id].View(), factory)
      ensures Views() == old(Views())[id := groups[id].View()]
    {
      hide StartCommand, Inv;
      ghost var g := groups[id].View();
      ghost var created;
      ok, created := RestartConsumerGroup(Some(STARTING), id, createFails);
      StartingLaw(g, created);
    }

    /** Restart the groups that were stopped. */
    method StartAll(stopped: set<string>, createFails: set<string>) returns (ok: bool)
      requires Valid() && stopped <= groups.Keys
      requires forall id :: id in stopped ==> Views()[id].lockedBy == INTERNAL_TOKEN
      modifies this`made, groups.Values
      ensures Valid() && StartedSoFar(old(Views()), Views(), {}, stopped, createFails, factory)
      ensures ok <==> stopped !! createFails
    {
      hide Renewed, StartedSoFar, Valid;
      ok := true;
      var todo := stopped;
      NothingStarted(Views(), stopped, createFails, factory);
      while todo != {}
        invariant Valid() && todo <= stopped
        invariant StartedSoFar(old(Views()), Views(), todo, stopped, createFails, factory)
        invariant ok <==> stopped - todo !! createFails
        decreases todo
      {
        var id :| id in todo;
        ghost var now := Views();
        StillHeld(old(Views()), now, todo, stopped, createFails, factory, id);
        var done := RestartStopped(id, id in createFails);
        StartNext(old(Views()), now, todo, stopped, createFails, factory, id, groups[id].View());
        todo := todo - {id};
        if !done {
          ok := false;
        }
      }
    }

    method UseFactory(newFactory: nat)
      requires Valid()
      modifies this`factory
      ensures Valid() && factory == newFactory && Views() == old(Views())
    {
      hide Inv;
      factory := newFactory;
    }

    /** Reconfigure: groups held by a foreign token are untouched; every other group ends renewed by the new factory,
        or locked by the manager because it could not be stopped or restarted; and there is no error exactly when
        every group ends renewed. */
    method Reconfigure(newFactory: nat, closeFails: set<string>, createFails: set<string>) returns (ok: bool)
      requires Valid()
      modifies this`factory, this`made, groups.Values
      ensures Valid() && factory == newFactory
      ensures forall id :: id in groups && Foreign(old(groups[id].View())) ==>
              groups[id].View() == old(groups[id].View())
      ensures forall id :: id in groups && !Foreign(old(groups[id].View())) ==>
                || Renewed(groups[id].View(), newFactory)
                || (groups[id].lockedBy == INTERNAL_TOKEN && (id in closeFails || id in createFails))
      ensures ok <==> forall id :: id in groups ==> Renewed(groups[id].View(), newFactory)
    {
      hide AllInv, StoppedSoFar, StartedSoFar, Renewed, Foreign, Valid;
      ghost var before := Views();
      ViewsInv();
      var stopped, allStopped := StopAll(closeFails);
      ghost var middle := Views();
      forall id | id in stopped ensures middle[id].lockedBy == INTERNAL_TOKEN {
        StoppedIsHeld(before, middle, stopped, closeFails, id);
      }
      UseFactory(newFactory);
      var allStarted := StartAll(stopped, createFails);
      forall id | id in groups
        ensures Foreign(before[id]) ==> Views()[id] == before[id]
        ensures !Foreign(before[id]) ==>
                  || Renewed(Views()[id], factory)
                  || (Views()[id].lockedBy == INTERNAL_TOKEN && (id in closeFails || id in createFails))
        ensures Renewed(Views()[id], factory) <==> id in stopped && id !in createFails
      {
        BothHalves(before, middle, Views(), stopped, closeFails, createFails, factory, id);
      }
      ok := allStopped && allStarted;
    }
  }
}
