/**
  The per-hash guard, in every interleaving: one task at a time inside it, use counts that are
  the number of registered tasks, and a table with exactly the locks somebody still needs.
 */
module QbittorrentLocks {
  import opened Wrappers
  import opened QbittorrentModel

  /** The tasks registered on a lock and not yet released from it. */
  function Users(tasks: map<Task, TaskState>, id: LockId): set<Task> {
    set t | t in tasks && Registered(tasks[t].place) && tasks[t].lock == id
  }

  ghost predicate TasksHoldTable(s: State) {
    forall t | t in s.tasks && Registered(s.tasks[t].place) ::
      && t.hash in s.table && s.table[t.hash] == s.tasks[t].lock
      && s.tasks[t].lock in s.locks && s.locks[s.tasks[t].lock].hash == t.hash
  }

  ghost predicate TableHoldsUsed(s: State) {
    forall h | h in s.table ::
      s.table[h] in s.locks && s.locks[s.table[h]].users > 0 && s.locks[s.table[h]].hash == h
  }

  ghost predicate CountsAreUsers(s: State) {
    forall id | id in s.locks :: s.locks[id].users == |Users(s.tasks, id)|
  }

  ghost predicate LocksNumbered(s: State) {
    forall id | id in s.locks :: id < s.nextLock
  }

  ghost predicate HoldersAreGuarded(s: State) {
    && (forall t | t in s.tasks && Guarded(s.tasks[t].place) ::
          s.tasks[t].lock in s.locks && s.locks[s.tasks[t].lock].holder == Some(t))
    && (forall id | id in s.locks && s.locks[id].holder.Some? ::
          var t := s.locks[id].holder.value;
          t in s.tasks && Guarded(s.tasks[t].place) && s.tasks[t].lock == id)
  }

  ghost predicate LockInv(s: State) {
    TasksHoldTable(s) && TableHoldsUsed(s) && CountsAreUsers(s) && LocksNumbered(s) && HoldersAreGuarded(s)
  }

  /** A task that moves between two registered places on its lock changes nobody's count. */
  lemma UsersUnmoved(tasks: map<Task, TaskState>, t: Task, to: TaskState)
    requires t in tasks && Registered(tasks[t].place) && Registered(to.place) && to.lock == tasks[t].lock
    ensures forall id :: Users(tasks[t := to], id) == Users(tasks, id)
  {
    forall id ensures Users(tasks[t := to], id) == Users(tasks, id) {
      forall u ensures u in Users(tasks[t := to], id) <==> u in Users(tasks, id) {}
    }
  }

  lemma UsersJoin(tasks: map<Task, TaskState>, t: Task, to: TaskState)
    requires t in tasks && !Registered(tasks[t].place) && Registered(to.place)
    ensures forall id | id != to.lock :: Users(tasks[t := to], id) == Users(tasks, id)
    ensures |Users(tasks[t := to], to.lock)| == |Users(tasks, to.lock)| + 1
  {
    forall id | id != to.lock ensures Users(tasks[t := to], id) == Users(tasks, id) {
      forall u ensures u in Users(tasks[t := to], id) <==> u in Users(tasks, id) {}
    }
    forall u ensures u in Users(tasks[t := to], to.lock) <==> u in Users(tasks, to.lock) + {t} {}
    assert Users(tasks[t := to], to.lock) == Users(tasks, to.lock) + {t};
  }

  lemma UsersLeave(tasks: map<Task, TaskState>, t: Task, to: TaskState)
    requires t in tasks && Registered(tasks[t].place) && !Registered(to.place)
    ensures forall id | id != tasks[t].lock :: Users(tasks[t := to], id) == Users(tasks, id)
    ensures |Users(tasks[t := to], tasks[t].lock)| == |Users(tasks, tasks[t].lock)| - 1
  {
    var lock := tasks[t].lock;
    forall id | id != lock ensures Users(tasks[t := to], id) == Users(tasks, id) {
      forall u ensures u in Users(tasks[t := to], id) <==> u in Users(tasks, id) {}
    }
    forall u ensures u in Users(tasks[t := to], lock) <==> u in Users(tasks, lock) - {t} {}
    assert t in Users(tasks, lock);
    assert Users(tasks[t := to], lock) == Users(tasks, lock) - {t};
  }

  /** Every task stays as registered and as guarded as it was, on the lock it was on. */
  ghost predicate SameStanding(s: State, s': State) {
    && s'.table == s.table && s'.locks == s.locks && s'.nextLock == s.nextLock
    && s'.tasks.Keys == s.tasks.Keys
    && forall t | t in s.tasks ::
         && s'.tasks[t].lock == s.tasks[t].lock
         && (Registered(s'.tasks[t].place) <==> Registered(s.tasks[t].place))
         && (Guarded(s'.tasks[t].place) <==> Guarded(s.tasks[t].place))
  }

  lemma SameStandingKeeps(s: State, s': State)
    requires LockInv(s) && SameStanding(s, s')
    ensures LockInv(s')
  {
    hide Registered, Guarded;
    forall id ensures Users(s'.tasks, id) == Users(s.tasks, id) {
      forall t ensures t in Users(s'.tasks, id) <==> t in Users(s.tasks, id) {}
    }
    hide Users;
  }

  /** Steps that touch no lock. */
  ghost predicate Quiet(step: Step) {
    || step.Check? || step.Read? || step.Add? || step.StopPolling? || step.CleanQuery? || step.Delete?
    || step.LateAdd? || step.LateDelete?
  }

  lemma QuietStands(s: State, step: Step)
    requires Enabled(s, step) && Quiet(step)
    ensures SameStanding(s, Next(s, step))
  {
    hide Gathered, HasSlot, WithoutMarker, WithTorrent, Registering, Acquired, Unlocked, Released, Cancelled;
    hide Checked, Added, AddedLate, CleanupAsked, Deleted, DeletedLate, SameStanding;
    match step
    case Read(t) => OneStands(s, Next(s, step), t, s.tasks[t].(place := Leaving));
    case StopPolling(t) => OneStands(s, Next(s, step), t, s.tasks[t].(place := Cleaning));
    case Check(t, fails) => CheckStands(s, t, fails);
    case Add(t, effect) => AddStands(s, t, effect);
    case LateAdd(t) => LateStands(s, t);
    case CleanQuery(t, fails) => CleanupStands(s, t, fails);
    case Delete(t, effect, confirmed) => DeleteStands(s, t, effect, confirmed);
    case LateDelete(t) => LateStands(s, t);
  }

  lemma OneStands(s: State, s': State, t: Task, to: TaskState)
    requires t in s.tasks && s'.table == s.table && s'.locks == s.locks && s'.nextLock == s.nextLock && s'.tasks == s.tasks[t := to]
    requires to.lock == s.tasks[t].lock && (Registered(to.place) <==> Registered(s.tasks[t].place))
    requires Guarded(to.place) <==> Guarded(s.tasks[t].place)
    ensures SameStanding(s, s')
  {
    hide Registered, Guarded;
  }

  lemma CheckStands(s: State, t: Task, fails: bool)
    requires At(s, t, Checking) && t.batch in s.batches
    ensures SameStanding(s, Checked(s, t, fails))
  {
    hide SameStanding;
    var to := if fails then s.tasks[t].(place := Leaving)
              else if t.hash in s.server then s.tasks[t].(place := Reading)
              else s.tasks[t].(place := Adding, attempted := true);
    assert Checked(s, t, fails).tasks == s.tasks[t := to];
    OneStands(s, Checked(s, t, fails), t, to);
  }

  lemma AddStands(s: State, t: Task, effect: Effect)
    requires At(s, t, Adding)
    ensures SameStanding(s, Added(s, t, effect))
  {
    hide SameStanding, WithTorrent;
    OneStands(s, Added(s, t, effect), t, Added(s, t, effect).tasks[t]);
  }

  lemma LateStands(s: State, t: Task)
    requires t in s.tasks
    ensures SameStanding(s, AddedLate(s, t)) && SameStanding(s, DeletedLate(s, t))
  {
    hide SameStanding, WithTorrent;
    OneStands(s, AddedLate(s, t), t, AddedLate(s, t).tasks[t]);
    OneStands(s, DeletedLate(s, t), t, DeletedLate(s, t).tasks[t]);
  }

  lemma CleanupStands(s: State, t: Task, fails: bool)
    requires At(s, t, Cleaning)
    ensures SameStanding(s, CleanupAsked(s, t, fails))
  {
    hide SameStanding;
    OneStands(s, CleanupAsked(s, t, fails), t, CleanupAsked(s, t, fails).tasks[t]);
  }

  lemma DeleteStands(s: State, t: Task, effect: Effect, confirmed: bool)
    requires At(s, t, Deleting)
    ensures SameStanding(s, Deleted(s, t, effect, confirmed))
  {
    hide SameStanding;
    OneStands(s, Deleted(s, t, effect, confirmed), t, Deleted(s, t, effect, confirmed).tasks[t]);
  }

  lemma RegisterHoldsTable(s: State, t: Task)
    requires LockInv(s) && At(s, t, Idle)
    ensures TasksHoldTable(Registering(s, t)) && TableHoldsUsed(Registering(s, t))
  {
    hide CountsAreUsers, HoldersAreGuarded, Guarded;
  }

  lemma RegisterCounts(s: State, t: Task)
    requires LockInv(s) && At(s, t, Idle)
    ensures CountsAreUsers(Registering(s, t)) && LocksNumbered(Registering(s, t))
  {
    hide HoldersAreGuarded;
    var s' := Registering(s, t);
    UsersJoin(s.tasks, t, s'.tasks[t]);
    if t.hash !in s.table {
      NobodyUses(s, s'.tasks[t].lock);
    }
    hide Users, TasksHoldTable, Registered;
  }

  lemma RegisterLeavesHolders(s: State, t: Task)
    requires LockInv(s) && At(s, t, Idle)
    ensures HoldersAreGuarded(Registering(s, t))
  {
    hide CountsAreUsers, TasksHoldTable, Users, Registered;
  }

  lemma NobodyUses(s: State, id: LockId)
    requires TasksHoldTable(s) && id !in s.locks
    ensures Users(s.tasks, id) == {}
  {
    forall u ensures u !in Users(s.tasks, id) {}
  }

  /** When the count is one, nobody else is registered for that hash. */
  lemma LastUser(s: State, t: Task, u: Task)
    requires LockInv(s) && CanRelease(s, t) && s.locks[s.tasks[t].lock].users == 1
    requires u in s.tasks && Registered(s.tasks[u].place) && u.hash == t.hash
    ensures u == t
  {
    hide HoldersAreGuarded;
    var users := Users(s.tasks, s.tasks[t].lock);
    assert t in users && u in users && |users| == 1;
    assert |users - {t}| == 0;
  }

  lemma ReleaseHoldsTable(s: State, t: Task)
    requires LockInv(s) && CanRelease(s, t)
    ensures TasksHoldTable(Released(s, t))
  {
    hide Users, Guarded;
    if s.locks[s.tasks[t].lock].users == 1 {
      forall u | u in s.tasks && Registered(s.tasks[u].place) && u.hash == t.hash ensures u == t {
        LastUser(s, t, u);
      }
    }
    hide HoldersAreGuarded, CountsAreUsers, LocksNumbered, TableHoldsUsed;
  }

  lemma ReleaseLeavesUsed(s: State, t: Task)
    requires LockInv(s) && CanRelease(s, t)
    ensures TableHoldsUsed(Released(s, t)) && LocksNumbered(Released(s, t))
  {
    hide HoldersAreGuarded, CountsAreUsers;
  }

  lemma ReleaseCounts(s: State, t: Task)
    requires LockInv(s) && CanRelease(s, t)
    ensures CountsAreUsers(Released(s, t))
  {
    UsersLeave(s.tasks, t, Released(s, t).tasks[t]);
    hide Users, TasksHoldTable, TableHoldsUsed, HoldersAreGuarded;
  }

  lemma ReleaseLeavesHolders(s: State, t: Task)
    requires LockInv(s) && CanRelease(s, t)
    ensures HoldersAreGuarded(Released(s, t))
  {
    hide Users, TasksHoldTable, TableHoldsUsed, CountsAreUsers;
  }

  lemma AcquireKeeps(s: State, t: Task)
    requires LockInv(s) && CanAcquire(s, t)
    ensures TasksHoldTable(Acquired(s, t)) && TableHoldsUsed(Acquired(s, t)) && LocksNumbered(Acquired(s, t))
  {
    hide Users, HoldersAreGuarded, CountsAreUsers;
  }

  lemma AcquireCounts(s: State, t: Task)
    requires LockInv(s) && CanAcquire(s, t)
    ensures CountsAreUsers(Acquired(s, t))
  {
    UsersUnmoved(s.tasks, t, s.tasks[t].(place := Checking));
    hide Users, HoldersAreGuarded, TableHoldsUsed, LocksNumbered;
  }

  lemma AcquireGuards(s: State, t: Task)
    requires LockInv(s) && CanAcquire(s, t)
    ensures HoldersAreGuarded(Acquired(s, t))
  {
    hide Users, CountsAreUsers, TableHoldsUsed, TasksHoldTable, LocksNumbered;
  }

  lemma UnlockKeeps(s: State, t: Task)
    requires LockInv(s) && CanUnlock(s, t)
    ensures TasksHoldTable(Unlocked(s, t)) && TableHoldsUsed(Unlocked(s, t)) && LocksNumbered(Unlocked(s, t))
  {
    hide Users, HoldersAreGuarded, CountsAreUsers;
  }

  lemma UnlockCounts(s: State, t: Task)
    requires LockInv(s) && CanUnlock(s, t)
    ensures CountsAreUsers(Unlocked(s, t))
  {
    UsersUnmoved(s.tasks, t, s.tasks[t].(place := Releasing));
    hide Users, HoldersAreGuarded, TableHoldsUsed, LocksNumbered;
  }

  lemma UnlockGuards(s: State, t: Task)
    requires LockInv(s) && CanUnlock(s, t)
    ensures HoldersAreGuarded(Unlocked(s, t))
  {
    hide Users, CountsAreUsers, TableHoldsUsed, TasksHoldTable, LocksNumbered;
  }

  lemma StartKeeps(s: State, b: BatchId, magnets: Magnets)
    requires LockInv(s) && Enabled(s, StartBatch(b, magnets))
    ensures LockInv(Next(s, StartBatch(b, magnets)))
  {
    var s' := Next(s, StartBatch(b, magnets));
    forall id ensures Users(s'.tasks, id) == Users(s.tasks, id) {
      forall u ensures u in Users(s'.tasks, id) <==> u in Users(s.tasks, id) {}
    }
  }

  lemma CancelStands(s: State, b: BatchId)
    requires InPhase(s, b, Running)
    ensures SameStanding(s, Next(s, CancelBatch(b)))
  {
    var s' := Next(s, CancelBatch(b));
    assert s'.table == s.table && s'.locks == s.locks && s'.nextLock == s.nextLock && s'.tasks == Cancelled(s.tasks, b);
    hide Next, Enabled;
    CancelledStand(s.tasks, b);
  }

  lemma CancelledStand(tasks: map<Task, TaskState>, b: BatchId)
    ensures Cancelled(tasks, b).Keys == tasks.Keys
    ensures forall t | t in tasks ::
      && Cancelled(tasks, b)[t].lock == tasks[t].lock
      && (Registered(Cancelled(tasks, b)[t].place) <==> Registered(tasks[t].place))
      && (Guarded(Cancelled(tasks, b)[t].place) <==> Guarded(tasks[t].place))
  {
  }

  /** Cancelling a batch, wherever its tasks are, touches no lock. */
  lemma CancelKeeps(s: State, b: BatchId)
    requires LockInv(s) && InPhase(s, b, Running)
    ensures LockInv(Next(s, CancelBatch(b)))
  {
    hide LockInv, Next;
    CancelStands(s, b);
    SameStandingKeeps(s, Next(s, CancelBatch(b)));
  }

  lemma BatchStepStands(s: State, step: Step)
    requires Enabled(s, step) && (step.BeginMarkerCleanup? || step.MarkerQuery? || step.MarkerDrop? || step.LateDrop?)
    ensures SameStanding(s, Next(s, step))
  {
    hide Gathered, HasSlot, Marked, WithoutMarker;
  }

  lemma BatchStepKeeps(s: State, step: Step)
    requires LockInv(s) && Enabled(s, step)
    requires step.BeginMarkerCleanup? || step.MarkerQuery? || step.MarkerDrop? || step.LateDrop?
    ensures LockInv(Next(s, step))
  {
    hide LockInv, Enabled, Next, SameStanding;
    BatchStepStands(s, step);
    SameStandingKeeps(s, Next(s, step));
  }

  /** Every step of every task keeps the guard sound. */
  lemma StepKeepsLocks(s: State, step: Step)
    requires LockInv(s) && Enabled(s, step)
    ensures LockInv(Next(s, step))
  {
    hide TasksHoldTable, TableHoldsUsed, CountsAreUsers, LocksNumbered, HoldersAreGuarded, SameStanding, Registering, Acquired, Unlocked, Released, Cancelled;
    if Quiet(step) {
      QuietStands(s, step);
      SameStandingKeeps(s, Next(s, step));
    } else {
      match step
      case StartBatch(b, magnets) => StartKeeps(s, b, magnets);
      case Register(t) =>
        RegisterHoldsTable(s, t);
        RegisterCounts(s, t);
        RegisterLeavesHolders(s, t);
      case Acquire(t) =>
        AcquireKeeps(s, t);
        AcquireCounts(s, t);
        AcquireGuards(s, t);
      case Unlock(t) =>
        UnlockCounts(s, t);
        UnlockKeeps(s, t);
        UnlockGuards(s, t);
      case Release(t) =>
        ReleaseHoldsTable(s, t);
        ReleaseLeavesUsed(s, t);
        ReleaseCounts(s, t);
        ReleaseLeavesHolders(s, t);
      case CancelBatch(b) => CancelKeeps(s, b);
      case _ => BatchStepKeeps(s, step);
    }
  }

  lemma {:induction false} LocksInEveryRun(s: State, steps: seq<Step>)
    requires LockInv(s) && Possible(s, steps)
    ensures LockInv(After(s, steps))
    decreases |steps|
  {
    hide LockInv, Next, Enabled;
    if steps != [] {
      StepKeepsLocks(s, steps[0]);
      LocksInEveryRun(Next(s, steps[0]), steps[1..]);
    }
  }

  /** Mutual exclusion, exact counts, live locks only, and an empty table at rest. */
  lemma GuardTheorem(capacity: Capacity, server: map<Hash, set<BatchId>>, steps: seq<Step>)
    requires Possible(Initial(capacity, server), steps)
    ensures
      var s := After(Initial(capacity, server), steps);
      && (forall t, u | t in s.tasks && u in s.tasks && t.hash == u.hash
                        && Guarded(s.tasks[t].place) && Guarded(s.tasks[u].place) :: t == u)
      && (forall h | h in s.table :: s.table[h] in s.locks
            && s.locks[s.table[h]].users == |set t | t in s.tasks && Registered(s.tasks[t].place) && t.hash == h|)
      && (forall t | t in s.tasks && Registered(s.tasks[t].place) ::
            t.hash in s.table && s.table[t.hash] == s.tasks[t].lock)
      && ((forall t | t in s.tasks :: !Registered(s.tasks[t].place)) ==> s.table == map[])
  {
    assert LockInv(Initial(capacity, server));
    hide Next, Enabled, Possible, After, LockInv;
    LocksInEveryRun(Initial(capacity, server), steps);
    TableAtRest(After(Initial(capacity, server), steps));
    LocksExclude(After(Initial(capacity, server), steps));
  }

  lemma LocksExclude(s: State)
    requires LockInv(s)
    ensures forall t, u | t in s.tasks && u in s.tasks && t.hash == u.hash
                          && Guarded(s.tasks[t].place) && Guarded(s.tasks[u].place) :: t == u
    ensures forall t | t in s.tasks && Registered(s.tasks[t].place) :: t.hash in s.table && s.table[t.hash] == s.tasks[t].lock
  {
    hide CountsAreUsers, LocksNumbered, TableHoldsUsed;
  }

  lemma TableAtRest(s: State)
    requires LockInv(s)
    ensures forall h | h in s.table ::
      s.table[h] in s.locks &&
      s.locks[s.table[h]].users == |set t | t in s.tasks && Registered(s.tasks[t].place) && t.hash == h|
    ensures (forall t | t in s.tasks :: !Registered(s.tasks[t].place)) ==> s.table == map[]
  {
    hide HoldersAreGuarded;
    forall h | h in s.table
      ensures s.locks[s.table[h]].users == |set t | t in s.tasks && Registered(s.tasks[t].place) && t.hash == h|
    {
      var users := set t | t in s.tasks && Registered(s.tasks[t].place) && t.hash == h;
      forall t ensures t in users <==> t in Users(s.tasks, s.table[h]) {}
      assert users == Users(s.tasks, s.table[h]);
    }
    if s.table != map[] {
      var h :| h in s.table;
      assert |Users(s.tasks, s.table[h])| > 0;
      var t :| t in Users(s.tasks, s.table[h]);
    }
  }
}
