/** Runs of stop and start commands that interleave with each other, with lock timers and with the registration and
    closing of groups (pkg/common/consumer/consumer_manager.go, pkg/common/consumer/managed_group.go). */
module CommandRuns {
  import opened Options
  import opened ManagedGroups
  import opened GroupManager

  datatype Kind = Stopping | Starting

  /** A command checks the lock, then acts, then releases the lock; each of these is one step. */
  datatype Phase = Checking | Acting | Releasing | Finished(ok: bool)

  /** A command, with the number of times its group had been acquired when it passed the check. */
  datatype Command = Command(kind: Kind, id: string, lock: Option<CommandLock>, phase: Phase, epoch: nat)

  /** The registered groups, how often the lock of each id was acquired so far, and all commands ever issued. */
  datatype World = World(groups: map<string, Group>, epochs: map<string, nat>, commands: seq<Command>)

  datatype Step =
    | Issue(kind: Kind, id: string, lock: Option<CommandLock>)
    | Advance(c: nat, closeFails: bool, created: Option<Inner>)
    | Expiry(id: string, timer: nat)
    | Closing(id: string, closeFails: bool)
    | Registration(id: string, inner: Inner)

  function Epoch(w: World, id: string): nat {
    if id in w.epochs then w.epochs[id] else 0
  }

  /** Replace the state of a group, counting an acquisition of its lock. */
  function Put(w: World, id: string, g: Group): World {
    var acquired := id in w.groups && w.groups[id].lockedBy == UNLOCKED && g.lockedBy != UNLOCKED;
    w.(groups := w.groups[id := g], epochs := w.epochs[id := Epoch(w, id) + if acquired then 1 else 0])
  }

  function Move(w: World, c: nat, phase: Phase): World
    requires c < |w.commands|
  {
    w.(commands := w.commands[c := w.commands[c].(phase := phase)])
  }

  function Check(w: World, c: nat): World
    requires c < |w.commands|
  {
    var cmd := w.commands[c];
    if cmd.id !in w.groups then
      w.(commands := w.commands[c := cmd.(phase := Acting, epoch := Epoch(w, cmd.id))])
    else
      var (g, ok) := ProcessLock(w.groups[cmd.id], cmd.lock, true);
      if !ok then Move(w, c, Finished(false))
      else
        var w1 := Put(w, cmd.id, g);
        w1.(commands := w1.commands[c := cmd.(phase := Acting, epoch := Epoch(w1, cmd.id))])
  }

  function Act(w: World, c: nat, closeFails: bool, created: Option<Inner>): World
    requires c < |w.commands|
  {
    var cmd := w.commands[c];
    if cmd.id !in w.groups then Move(w, c, Finished(false))
    else
      var (g, ok) := if cmd.kind.Stopping? then Stop(w.groups[cmd.id], closeFails)
          else Start(w.groups[cmd.id], created);
      Move(Put(w, cmd.id, g), c, if ok then Releasing else Finished(false))
  }

  function Release(w: World, c: nat): World
    requires c < |w.commands|
  {
    var cmd := w.commands[c];
    if cmd.id !in w.groups then Move(w, c, Finished(true))
    else
      var (g, ok) := ProcessLock(w.groups[cmd.id], cmd.lock, false);
      if !ok then Move(w, c, Finished(false)) else Move(Put(w, cmd.id, g), c, Finished(true))
  }

  predicate Allowed(w: World, s: Step) {
    match s
    case Issue(_, _, _) => true
    case Advance(c, _, _) => c < |w.commands| && !w.commands[c].phase.Finished?
    case Expiry(id, timer) => id in w.groups && timer in w.groups[id].armed
    case Closing(id, _) => id in w.groups
    case Registration(_, _) => true
  }

  function Next(w: World, s: Step): World
    requires Allowed(w, s)
  {
    match s
    case Issue(kind, id, lock) => w.(commands := w.commands + [Command(kind, id, lock, Checking, 0)])
    case Advance(c, closeFails, created) =>
      (match w.commands[c].phase
       case Checking => Check(w, c)
       case Acting => Act(w, c, closeFails, created)
       case Releasing => Release(w, c)
       case Finished(_) => w)
    case Expiry(id, timer) => Put(w, id, Expire(w.groups[id], timer))
    case Closing(id, closeFails) =>
      var (g, ok) := Close(w.groups[id], closeFails);
      if ok then w.(groups := w.groups - {id}) else Put(w, id, g)
    case Registration(id, inner) => Put(w, id, NewGroup(inner))
  }

  /** The command has passed its check and has not finished. */
  predicate InFlight(cmd: Command) {
    cmd.phase.Acting? || cmd.phase.Releasing?
  }

  /** Someone else than the command's token holds the group. */
  predicate HeldByOther(w: World, cmd: Command) {
    cmd.id in w.groups && w.groups[cmd.id].lockedBy != UNLOCKED && w.groups[cmd.id].lockedBy != TokenOf(cmd.lock)
  }

  /** A command in flight finds its group held by another token only if the lock was acquired after its check. */
  predicate Fair(w: World, cmd: Command) {
    InFlight(cmd) ==> cmd.epoch <= Epoch(w, cmd.id) && (HeldByOther(w, cmd) ==> cmd.epoch < Epoch(w, cmd.id))
  }

  ghost predicate Valid(w: World) {
    && (forall id :: id in w.groups ==> Inv(w.groups[id]))
    && (forall c :: 0 <= c < |w.commands| ==> Fair(w, w.commands[c]))
  }

  /** The new holder of a group is the old one, nobody, or one who acquired it just now. */
  predicate Succeeds(w: World, id: string, g: Group) {
    id in w.groups && w.groups[id].lockedBy != UNLOCKED ==>
        g.lockedBy == w.groups[id].lockedBy || g.lockedBy == UNLOCKED
  }

  lemma PutKeepsFair(w: World, id: string, g: Group, cmd: Command)
    requires Fair(w, cmd) && Succeeds(w, id, g) && (id !in w.groups ==> g.lockedBy == UNLOCKED)
    ensures Fair(Put(w, id, g), cmd)
  {
  }

  lemma PutKeepsValid(w: World, id: string, g: Group)
    requires Valid(w) && Inv(g) && Succeeds(w, id, g) && (id !in w.groups ==> g.lockedBy == UNLOCKED)
    ensures Valid(Put(w, id, g))
  {
    hide Inv;
    forall c | 0 <= c < |w.commands| ensures Fair(Put(w, id, g), w.commands[c]) {
      PutKeepsFair(w, id, g, w.commands[c]);
    }
  }

  lemma MoveKeepsValid(w: World, c: nat, cmd: Command)
    requires Valid(w) && c < |w.commands| && Fair(w, cmd)
    ensures Valid(w.(commands := w.commands[c := cmd]))
  {
    hide Inv;
    var w1 := w.(commands := w.commands[c := cmd]);
    forall i | 0 <= i < |w1.commands| ensures Fair(w1, w1.commands[i]) {
      assert Fair(w, if i == c then cmd else w.commands[i]);
    }
  }

  lemma AdvanceKeepsValid(w: World, c: nat, closeFails: bool, created: Option<Inner>)
    requires Valid(w) && Allowed(w, Advance(c, closeFails, created))
    ensures Valid(Next(w, Advance(c, closeFails, created)))
  {
    hide Inv;
    var cmd := w.commands[c];
    assert Fair(w, cmd);
    if cmd.id !in w.groups {
      MoveKeepsValid(w, c, cmd.(phase := Acting, epoch := Epoch(w, cmd.id)));
      MoveKeepsValid(w, c, cmd.(phase := Finished(false)));
      MoveKeepsValid(w, c, cmd.(phase := Finished(true)));
    } else {
      var g := w.groups[cmd.id];
      var e := if cmd.phase.Acting? then (if cmd.kind.Stopping? then StopGroup(closeFails) else StartGroup(created))
               else Lock(cmd.lock, cmd.phase.Checking?);
      var (g', ok) := After(g, e);
      EventKeepsInv(g, e);
      if g.lockedBy != UNLOCKED { HolderStep(g, e); }
      MoveKeepsValid(w, c, cmd.(phase := Finished(false)));
      PutKeepsValid(w, cmd.id, g');
      var w1 := Put(w, cmd.id, g');
      assert w1.commands[c] == cmd && Fair(w1, cmd);
      if cmd.phase.Checking? {
        if ok {
          HolderAfterCheck(g, cmd.lock);
          MoveKeepsValid(w1, c, cmd.(phase := Acting, epoch := Epoch(w1, cmd.id)));
        }
      } else {
        MoveKeepsValid(w1, c, cmd.(phase := Finished(false)));
        MoveKeepsValid(w1, c, cmd.(phase := Finished(true)));
        if cmd.phase.Acting? { MoveKeepsValid(w1, c, cmd.(phase := Releasing)); }
      }
    }
  }

  lemma HolderAfterCheck(g: Group, lock: Option<CommandLock>)
    ensures var (g', ok) := ProcessLock(g, lock, true); ok ==> g'.lockedBy == UNLOCKED || g'.lockedBy == TokenOf(lock)
  {
  }

  lemma StepKeepsValid(w: World, s: Step)
    requires Valid(w) && Allowed(w, s)
    ensures Valid(Next(w, s))
  {
    hide Inv;
    match s
    case Issue(kind, id, lock) =>
      forall c | 0 <= c < |Next(w, s).commands| ensures Fair(Next(w, s), Next(w, s).commands[c]) {
        if c < |w.commands| { assert Fair(w, w.commands[c]); }
      }
    case Advance(c, closeFails, created) => AdvanceKeepsValid(w, c, closeFails, created);
    case Expiry(id, timer) =>
      EventKeepsInv(w.groups[id], TimerExpires(timer));
      PutKeepsValid(w, id, Expire(w.groups[id], timer));
    case Closing(id, closeFails) =>
      var (g, ok) := Close(w.groups[id], closeFails);
      EventKeepsInv(w.groups[id], CloseGroup(closeFails));
      if ok {
        var w1 := w.(groups := w.groups - {id});
        forall c | 0 <= c < |w1.commands| ensures Fair(w1, w1.commands[c]) { assert Fair(w, w.commands[c]); }
      } else {
        PutKeepsValid(w, id, g);
      }
    case Registration(id, inner) =>
      NewGroupInv(inner);
      PutKeepsValid(w, id, NewGroup(inner));
  }

  // ----- runs -----

  predicate IsRun(w: World, steps: seq<Step>)
    decreases steps
  {
    steps != [] ==> Allowed(w, steps[0]) && IsRun(Next(w, steps[0]), steps[1..])
  }

  function Reached(w: World, steps: seq<Step>): World
    requires IsRun(w, steps)
    decreases steps
  {
    if steps == [] then w else Reached(Next(w, steps[0]), steps[1..])
  }

  lemma {:induction false} RunKeepsValid(w: World, steps: seq<Step>)
    requires Valid(w) && IsRun(w, steps)
    ensures Valid(Reached(w, steps))
    decreases steps
  {
    if steps != [] {
      StepKeepsValid(w, steps[0]);
      RunKeepsValid(Next(w, steps[0]), steps[1..]);
    }
  }

  /** A command whose three steps are not interrupted does what the command run to the end does, and nothing else. */
  lemma UninterruptedCommand(w: World, c: nat, closeFails: bool, created: Option<Inner>)
    requires c < |w.commands| && w.commands[c].phase.Checking? && w.commands[c].id in w.groups
    ensures var cmd, step := w.commands[c], Advance(c, closeFails, created);
            var g := w.groups[cmd.id];
            var (g', ok) := if cmd.kind.Stopping? then StopCommand(g, cmd.lock, closeFails)
                            else StartCommand(g, cmd.lock, created);
            exists w' ::
              && Completes(w, step, w')
              && w'.groups == w.groups[cmd.id := g'] && |w'.commands| == |w.commands|
              && w'.commands[c].phase == Finished(ok)
              && forall i :: 0 <= i < |w.commands| && i != c ==> w'.commands[i] == w.commands[i]
  {
    hide ProcessLock, Stop, Start;
    var cmd, step := w.commands[c], Advance(c, closeFails, created);
    var w1 := Next(w, step);
    if w1.commands[c].phase.Finished? {
      assert w.groups[cmd.id := w.groups[cmd.id]] == w.groups;
      RefusedUnchanged(w.groups[cmd.id], cmd.lock, true);
      assert Completes(w, step, w1);
    } else {
      var w2 := Next(w1, step);
      if w2.commands[c].phase.Finished? {
        assert Completes(w, step, w2);
      } else {
        var w3 := Next(w2, step);
        RefusedUnchanged(w2.groups[cmd.id], cmd.lock, false);
        assert Completes(w, step, w3);
      }
    }
  }

  lemma RefusedUnchanged(g: Group, lock: Option<CommandLock>, before: bool)
    ensures !ProcessLock(g, lock, before).1 ==> ProcessLock(g, lock, before).0 == g
  {
  }

  /** Repeating the step until its command is finished, at most three times, leads to w'. */
  predicate Completes(w: World, s: Step, w': World)
    requires s.Advance?
  {
    && Allowed(w, s) && s.c < |w'.commands| && w'.commands[s.c].phase.Finished?
    && var w1 := Next(w, s);
       || w' == w1
       || (Allowed(w1, s) && (w' == Next(w1, s) || (Allowed(Next(w1, s), s) && w' == Next(Next(w1, s), s))))
  }

  /** The command has acted on the group and is about to give up t's lock on it. */
  predicate Unlocks(cmd: Command, id: string, t: string) {
    cmd.id == id && cmd.phase.Releasing? && cmd.lock.Some? && cmd.lock.value.token == t && cmd.lock.value.unlockAfter
  }

  /** Lock exclusion in every reachable state. While t holds a group, a command with another token or with none that
      checks or releases the lock fails and leaves every group as it is; one that acts can only have passed its check
      before t acquired the lock, and it leaves t the holder; and t's hold ends only through the unlock of t's own
      command, t's timer, the closing of the group or its replacement. */
  lemma LockExclusion(w: World, steps: seq<Step>, s: Step, id: string)
    requires Valid(w) && IsRun(w, steps) && Allowed(Reached(w, steps), s)
    requires id in Reached(w, steps).groups && Reached(w, steps).groups[id].lockedBy != UNLOCKED
    ensures var w1 := Reached(w, steps);
            var t, w2 := w1.groups[id].lockedBy, Next(w1, s);
            && (s.Advance? && w1.commands[s.c].id == id && TokenOf(w1.commands[s.c].lock) != t ==>
                  && (!w1.commands[s.c].phase.Acting? ==>
                       w2.groups == w1.groups && w2.commands[s.c].phase == Finished(false))
                  && (w1.commands[s.c].phase.Acting? ==>
                        w1.commands[s.c].epoch < Epoch(w1, id) && id in w2.groups && w2.groups[id].lockedBy == t))
            && (s.Advance? && Unlocks(w1.commands[s.c], id, t) ==>
                 id in w2.groups && w2.groups[id].lockedBy == UNLOCKED)
            && (id in w2.groups && w2.groups[id].lockedBy != t ==>
                  || (w2.groups[id].lockedBy == UNLOCKED && s.Advance? && Unlocks(w1.commands[s.c], id, t))
                  || (w2.groups[id].lockedBy == UNLOCKED && s.Expiry? && s.id == id
                       && Some(s.timer) == w1.groups[id].current)
                  || (s.Registration? && s.id == id))
            && (id !in w2.groups ==> s.Closing? && s.id == id)
  {
    hide Inv, ProcessLock, Stop, Start, Close, Expire;
    RunKeepsValid(w, steps);
    var w1 := Reached(w, steps);
    var g := w1.groups[id];
    if s.Advance? && w1.commands[s.c].id == id {
      var cmd := w1.commands[s.c];
      assert Fair(w1, cmd);
      var e := if cmd.phase.Acting? then (if cmd.kind.Stopping? then StopGroup(s.closeFails) else StartGroup(s.created))
               else Lock(cmd.lock, cmd.phase.Checking?);
      HolderStep(g, e);
      ProcessLockLaw(g, cmd.lock, cmd.phase.Checking?);
    } else if s.Expiry? && s.id == id {
      HolderStep(g, TimerExpires(s.timer));
    } else if s.Closing? && s.id == id {
      HolderStep(g, CloseGroup(s.closeFails));
    }
  }

  /** What happens to a group outside of commands: expiry of its timer frees it, closing removes it exactly if that
      succeeds, and registration puts a new group in its place; no other group is touched. */
  lemma GroupSteps(w: World, s: Step)
    requires Valid(w) && Allowed(w, s) && (s.Expiry? || s.Closing? || s.Registration?)
    ensures var w' := Next(w, s);
            && w'.commands == w.commands
            && (forall id :: id != s.id ==> (id in w'.groups <==> id in w.groups))
            && (forall id :: id != s.id && id in w.groups ==> w'.groups[id] == w.groups[id])
            && (s.Expiry? ==> s.id in w'.groups && w'.groups[s.id].lockedBy == UNLOCKED)
            && (s.Closing? ==> (s.id !in w'.groups <==> w.groups[s.id].inner.closed || !s.closeFails))
            && (s.Registration? ==> s.id in w'.groups && w'.groups[s.id] == NewGroup(s.inner))
  {
    hide Inv;
  }

  /** The check and the act of a command are separate steps: a command without a lock that passed its check while the
      group was free still stops it after another token has acquired it. */
  lemma StaleCommandActs(id: string, inner: Inner, t: string) returns (w: World, steps: seq<Step>)
    requires t != UNLOCKED && !inner.closed
    ensures Valid(w) && IsRun(w, steps) && id in Reached(w, steps).groups
    ensures w.groups == map[id := NewGroup(inner)] && w.commands == []
    ensures Reached(w, steps).groups[id].lockedBy == t && Reached(w, steps).groups[id].stopped
    ensures |Reached(w, steps).commands| == 2
    ensures Reached(w, steps).commands[0].lock == None && Reached(w, steps).commands[0].phase == Releasing
  {
    hide Inv;
    NewGroupInv(inner);
    w := World(map[id := NewGroup(inner)], map[], []);
    var lock := Some(CommandLock(t, true, false, 0));
    var s0, s1, s2 := Issue(Stopping, id, None), Advance(0, false, None), Issue(Stopping, id, lock);
    var s3, s4 := Advance(1, false, None), Advance(0, false, None);
    var w1 := Next(w, s0);
    assert w1.commands == [Command(Stopping, id, None, Checking, 0)];
    var w2 := Next(w1, s1);
    assert w2.commands == [Command(Stopping, id, None, Acting, 0)] && w2.groups == w.groups;
    var w3 := Next(w2, s2);
    assert w3.commands == [Command(Stopping, id, None, Acting, 0), Command(Stopping, id, lock, Checking, 0)];
    var w4 := Next(w3, s3);
    assert w4.commands[0] == w3.commands[0] && w4.groups[id].lockedBy == t && !w4.groups[id].inner.closed
           && |w4.commands| == 2;
    var w5 := Next(w4, s4);
    assert w5.groups[id].stopped && w5.groups[id].lockedBy == t && w5.commands[0].phase == Releasing;
    ExtendRun(w4, s4, []);
    ExtendRun(w3, s3, [s4]);
    ExtendRun(w2, s2, [s3] + [s4]);
    ExtendRun(w1, s1, [s2] + ([s3] + [s4]));
    ExtendRun(w, s0, [s1] + ([s2] + ([s3] + [s4])));
    assert [s4] + [] == [s4];
    steps := [s0] + ([s1] + ([s2] + ([s3] + [s4])));
  }

  lemma ExtendRun(w: World, s: Step, steps: seq<Step>)
    requires Allowed(w, s) && IsRun(Next(w, s), steps)
    ensures IsRun(w, [s] + steps) && Reached(w, [s] + steps) == Reached(Next(w, s), steps)
  {
    hide Next, Allowed;
    assert ([s] + steps)[1..] == steps;
  }
}
