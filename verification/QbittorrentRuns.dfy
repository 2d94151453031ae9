/** Building runs of one batch step by step, for the runs at whose end a torrent stays behind. */
module QbittorrentRuns {
  import opened Wrappers
  import opened QbittorrentModel
  import opened QbittorrentLocks

  type Server = map<Hash, set<BatchId>>

  /** The batches of a run are `magnets` under the name of `b`, and no others. */
  ghost predicate OnlyBatch(steps: seq<Step>, b: BatchId, magnets: Magnets) {
    forall step | step in steps && step.StartBatch? :: step == StartBatch(b, magnets)
  }

  ghost predicate Reaches(from: State, steps: seq<Step>, to: State) {
    Possible(from, steps) && After(from, steps) == to
  }

  lemma Nowhere(s: State)
    ensures Reaches(s, [], s)
  {
  }

  /** A run can be continued by any step enabled where it ends. */
  lemma {:induction false} Continue(from: State, steps: seq<Step>, mid: State, step: Step)
    requires Reaches(from, steps, mid) && Enabled(mid, step)
    ensures Reaches(from, steps + [step], Next(mid, step))
    decreases |steps|
  {
    hide Enabled, Next;
    var longer := steps + [step];
    if steps == [] {
      assert longer[0] == step && longer[1..] == [];
      Nowhere(Next(mid, step));
    } else {
      Continue(Next(from, steps[0]), steps[1..], mid, step);
      assert longer[1..] == steps[1..] + [step] && longer[0] == steps[0];
    }
  }

  /** The one batch of the run, with what matters of its tasks: those of `live` are as it says,
      up to the number of their lock, and the others are through without any trouble. */
  ghost predicate Scene(s: State, capacity: Capacity, server: Server, b: BatchId, magnets: Magnets, batch: Batch, live: map<Hash, TaskState>) {
    && s.capacity == capacity && s.server == server && s.batches == map[b := batch]
    && live.Keys <= Named(magnets)
    && (forall t :: t in s.tasks <==> t.batch == b && t.hash in Named(magnets))
    && (forall h | h in Named(magnets) :: if h in live then Is(s.tasks[Task(b, h)], live[h]) else Through(s.tasks[Task(b, h)]))
  }

  function AllFresh(hashes: set<Hash>): map<Hash, TaskState> {
    map h | h in hashes :: Fresh()
  }

  predicate Is(ts: TaskState, wanted: TaskState) {
    ts.(lock := 0) == wanted.(lock := 0)
  }

  predicate Through(ts: TaskState) {
    ts.place.Finished? && !ts.failed && !ts.late
  }

  /** A stage of a run of one batch: the run, and the scene it leads to. */
  ghost predicate Stage(steps: seq<Step>, s: State, before: Server, capacity: Capacity, server: Server, b: BatchId,
                        magnets: Magnets, batch: Batch, live: map<Hash, TaskState>) {
    && Reaches(Initial(capacity, before), steps, s) && OnlyBatch(steps, b, magnets)
    && LockInv(s) && Scene(s, capacity, server, b, magnets, batch, live)
  }

  /** A step of the task of `h` alone. */
  lemma TaskGoes(steps: seq<Step>, s: State, before: Server, capacity: Capacity, server: Server, b: BatchId, magnets: Magnets,
                 batch: Batch, live: map<Hash, TaskState>, step: Step, h: Hash, to: TaskState,
                 server': Server, batch': Batch) returns (s': State)
    requires Stage(steps, s, before, capacity, server, b, magnets, batch, live)
    requires h in Named(magnets) && Enabled(s, step) && !step.StartBatch?
    requires
      var next := Next(s, step);
      && next.capacity == s.capacity && next.server == server' && next.batches == map[b := batch']
      && Task(b, h) in next.tasks && next.tasks == s.tasks[Task(b, h) := next.tasks[Task(b, h)]]
      && Is(next.tasks[Task(b, h)], to)
    ensures Stage(steps + [step], s', before, capacity, server', b, magnets, batch', live[h := to])
    ensures s' == Next(s, step)
  {
    hide Enabled, Next, LockInv, Reaches, Is, Through;
    s' := Next(s, step);
    Continue(Initial(capacity, before), steps, s, step);
    StepKeepsLocks(s, step);
  }

  /** Whoever is through need not be watched any more. */
  lemma LooksAway(steps: seq<Step>, s: State, before: Server, capacity: Capacity, server: Server, b: BatchId,
                  magnets: Magnets, batch: Batch, live: map<Hash, TaskState>, h: Hash)
    requires Stage(steps, s, before, capacity, server, b, magnets, batch, live)
    requires h in live && Through(live[h])
    ensures Stage(steps, s, before, capacity, server, b, magnets, batch, live - {h})
  {
    hide Reaches, LockInv, OnlyBatch;
  }

  /** A step of the batch alone. */
  lemma BatchGoes(steps: seq<Step>, s: State, before: Server, capacity: Capacity, server: Server, b: BatchId, magnets: Magnets,
                  batch: Batch, live: map<Hash, TaskState>, step: Step, server': Server, batch': Batch) returns (s': State)
    requires Stage(steps, s, before, capacity, server, b, magnets, batch, live)
    requires Enabled(s, step) && !step.StartBatch?
    requires
      var next := Next(s, step);
      next.capacity == s.capacity && next.server == server' && next.batches == map[b := batch'] && next.tasks == s.tasks
    ensures Stage(steps + [step], s', before, capacity, server', b, magnets, batch', live)
    ensures s' == Next(s, step)
  {
    hide Enabled, Next, LockInv, Reaches, Is, Through;
    s' := Next(s, step);
    Continue(Initial(capacity, before), steps, s, step);
    StepKeepsLocks(s, step);
  }

  // ------------------------------------------------------------------- single steps

  lemma {:induction false} AtMostOne(s: set<Task>, t: Task)
    requires forall u | u in s :: u == t
    ensures |s| <= 1
  {
    assert s <= {t};
    if t in s {
      assert s == {t};
    } else {
      assert s == {};
    }
  }

  /** There is a slot when nobody works, or one task does and the capacity is two. */
  lemma SlotIsFree(s: State, capacity: Capacity, server: Server, b: BatchId, magnets: Magnets, batch: Batch, live: map<Hash, TaskState>, x: Hash)
    requires Scene(s, capacity, server, b, magnets, batch, live) && (batch.phase.Running? || batch.phase.Ended?)
    requires forall h | h in live && h != x :: !Registered(live[h].place)
    requires capacity >= 2 || (x in live ==> !Registered(live[x].place))
    ensures HasSlot(s)
  {
    forall t | t in Working(s) ensures t == Task(b, x) {
      assert t.hash in live;
    }
    AtMostOne(Working(s), Task(b, x));
    assert Tidying(s) == {};
    if capacity < 2 {
      assert Task(b, x) !in Working(s);
      assert Working(s) == {};
    }
  }

  lemma StageHasSlot(steps: seq<Step>, s: State, before: Server, capacity: Capacity, server: Server, b: BatchId, magnets: Magnets,
                     batch: Batch, live: map<Hash, TaskState>, x: Hash)
    requires Stage(steps, s, before, capacity, server, b, magnets, batch, live) && (batch.phase.Running? || batch.phase.Ended?)
    requires forall h | h in live && h != x :: !Registered(live[h].place)
    requires capacity >= 2 || (x in live ==> !Registered(live[x].place))
    ensures HasSlot(s)
  {
    hide Scene, Reaches, OnlyBatch, LockInv, HasSlot;
    SlotIsFree(s, capacity, server, b, magnets, batch, live, x);
  }

  lemma Registers(steps: seq<Step>, s: State, before: Server, capacity: Capacity, server: Server, b: BatchId, magnets: Magnets,
                  batch: Batch, live: map<Hash, TaskState>, h: Hash) returns (s': State)
    requires Stage(steps, s, before, capacity, server, b, magnets, batch, live)
    requires h in live && live[h] == Fresh() && HasSlot(s)
    ensures Stage(steps + [Register(Task(b, h))], s', before, capacity, server, b, magnets, batch, live[h := Fresh().(place := Waiting)])
  {
    hide HasSlot, Reaches, LockInv;
    s' := TaskGoes(steps, s, before, capacity, server, b, magnets, batch, live, Register(Task(b, h)), h, Fresh().(place := Waiting), server, batch);
  }

  lemma LockIsFree(s: State, t: Task)
    requires LockInv(s) && At(s, t, Waiting) && forall u | u in s.tasks :: u.hash == t.hash ==> u == t
    ensures CanAcquire(s, t)
  {
    hide CountsAreUsers, TableHoldsUsed, LocksNumbered;
    var lock := s.locks[s.tasks[t].lock];
    assert lock.hash == t.hash;
  }

  lemma Acquires(steps: seq<Step>, s: State, before: Server, capacity: Capacity, server: Server, b: BatchId, magnets: Magnets,
                 batch: Batch, live: map<Hash, TaskState>, h: Hash) returns (s': State)
    requires Stage(steps, s, before, capacity, server, b, magnets, batch, live)
    requires h in live && live[h].place.Waiting?
    ensures Stage(steps + [Acquire(Task(b, h))], s', before, capacity, server, b, magnets, batch, live[h := live[h].(place := Checking)])
  {
    hide Reaches, LockInv;
    LockIsFree(s, Task(b, h));
    s' := TaskGoes(steps, s, before, capacity, server, b, magnets, batch, live, Acquire(Task(b, h)), h, live[h].(place := Checking), server, batch);
  }

  lemma CanUnlockIt(s: State, t: Task)
    requires LockInv(s) && At(s, t, Leaving)
    ensures CanUnlock(s, t)
  {
    hide CountsAreUsers, TableHoldsUsed, LocksNumbered;
  }

  lemma Leaves(steps: seq<Step>, s: State, before: Server, capacity: Capacity, server: Server, b: BatchId, magnets: Magnets,
               batch: Batch, live: map<Hash, TaskState>, h: Hash) returns (s': State)
    requires Stage(steps, s, before, capacity, server, b, magnets, batch, live)
    requires h in live && live[h].place.Leaving?
    ensures Stage(steps + [Unlock(Task(b, h))], s', before, capacity, server, b, magnets, batch, live[h := live[h].(place := Releasing)])
  {
    hide Reaches, LockInv;
    CanUnlockIt(s, Task(b, h));
    s' := TaskGoes(steps, s, before, capacity, server, b, magnets, batch, live, Unlock(Task(b, h)), h, live[h].(place := Releasing), server, batch);
  }

  lemma CanReleaseIt(s: State, t: Task)
    requires LockInv(s) && At(s, t, Releasing)
    ensures CanRelease(s, t)
  {
    hide HoldersAreGuarded, LocksNumbered;
    assert t in Users(s.tasks, s.tasks[t].lock);
  }

  lemma Releases(steps: seq<Step>, s: State, before: Server, capacity: Capacity, server: Server, b: BatchId, magnets: Magnets,
                 batch: Batch, live: map<Hash, TaskState>, h: Hash) returns (s': State)
    requires Stage(steps, s, before, capacity, server, b, magnets, batch, live)
    requires h in live && live[h].place.Releasing?
    ensures Stage(steps + [Release(Task(b, h))], s', before, capacity, server, b, magnets, batch, live[h := live[h].(place := Finished)])
  {
    hide Reaches, LockInv;
    CanReleaseIt(s, Task(b, h));
    s' := TaskGoes(steps, s, before, capacity, server, b, magnets, batch, live, Release(Task(b, h)), h, live[h].(place := Finished), server, batch);
  }

  /** On its way out to the end. */
  lemma GetsOut(steps: seq<Step>, s: State, before: Server, capacity: Capacity, server: Server, b: BatchId, magnets: Magnets,
                batch: Batch, live: map<Hash, TaskState>, h: Hash) returns (run: seq<Step>, s': State)
    requires Stage(steps, s, before, capacity, server, b, magnets, batch, live)
    requires h in live && live[h].place.Leaving?
    ensures Stage(run, s', before, capacity, server, b, magnets, batch, live[h := live[h].(place := Finished)])
  {
    hide Stage;
    var l1 := live[h := live[h].(place := Releasing)];
    s' := Leaves(steps, s, before, capacity, server, b, magnets, batch, live, h);
    run := steps + [Unlock(Task(b, h))];
    s' := Releases(run, s', before, capacity, server, b, magnets, batch, l1, h);
    run := run + [Release(Task(b, h))];
    assert l1[h := l1[h].(place := Finished)] == live[h := live[h].(place := Finished)];
  }

  /** From the semaphore into the guard. */
  lemma GetsIn(steps: seq<Step>, s: State, before: Server, capacity: Capacity, server: Server, b: BatchId, magnets: Magnets,
               batch: Batch, live: map<Hash, TaskState>, h: Hash) returns (run: seq<Step>, s': State)
    requires Stage(steps, s, before, capacity, server, b, magnets, batch, live)
    requires h in live && live[h] == Fresh() && HasSlot(s)
    ensures Stage(run, s', before, capacity, server, b, magnets, batch, live[h := Fresh().(place := Checking)])
  {
    hide Stage, HasSlot;
    var l1 := live[h := Fresh().(place := Waiting)];
    s' := Registers(steps, s, before, capacity, server, b, magnets, batch, live, h);
    run := steps + [Register(Task(b, h))];
    s' := Acquires(run, s', before, capacity, server, b, magnets, batch, l1, h);
    run := run + [Acquire(Task(b, h))];
    assert l1[h := l1[h].(place := Checking)] == live[h := Fresh().(place := Checking)];
  }

  lemma CheckFails(steps: seq<Step>, s: State, before: Server, capacity: Capacity, server: Server, b: BatchId, magnets: Magnets,
                   batch: Batch, live: map<Hash, TaskState>, h: Hash) returns (s': State)
    requires Stage(steps, s, before, capacity, server, b, magnets, batch, live)
    requires h in live && live[h].place.Checking?
    ensures Stage(steps + [Check(Task(b, h), true)], s', before, capacity, server, b, magnets, batch, live[h := live[h].(place := Leaving)])
  {
    hide Reaches, LockInv;
    s' := TaskGoes(steps, s, before, capacity, server, b, magnets, batch, live, Check(Task(b, h), true), h, live[h].(place := Leaving), server, batch);
  }

  /** The check finds nothing, and the add is sent. */
  lemma CheckMisses(steps: seq<Step>, s: State, before: Server, capacity: Capacity, server: Server, b: BatchId, magnets: Magnets,
                    batch: Batch, live: map<Hash, TaskState>, h: Hash) returns (s': State)
    requires Stage(steps, s, before, capacity, server, b, magnets, batch, live)
    requires h in live && live[h].place.Checking? && h !in server
    ensures Stage(steps + [Check(Task(b, h), false)], s', before, capacity, server, b, magnets, batch.(markerUsed := true),
                  live[h := live[h].(place := Adding, attempted := true)])
  {
    hide Reaches, LockInv;
    s' := TaskGoes(steps, s, before, capacity, server, b, magnets, batch, live, Check(Task(b, h), false), h,
                   live[h].(place := Adding, attempted := true), server, batch.(markerUsed := true));
  }

  /** One more task runs through, because its check fails. */
  lemma RunsThrough(steps: seq<Step>, s: State, before: Server, capacity: Capacity, b: BatchId, magnets: Magnets,
                    live: map<Hash, TaskState>, h: Hash) returns (run: seq<Step>, s': State)
    requires Stage(steps, s, before, capacity, before, b, magnets, Opened(), live)
    requires h in live && forall k | k in live :: live[k] == Fresh()
    ensures Stage(run, s', before, capacity, before, b, magnets, Opened(), live - {h})
  {
    hide Stage, HasSlot;
    StageHasSlot(steps, s, before, capacity, before, b, magnets, Opened(), live, h);
    var inside, out, gone := Fresh().(place := Checking), Fresh().(place := Leaving), Fresh().(place := Finished);
    run, s' := GetsIn(steps, s, before, capacity, before, b, magnets, Opened(), live, h);
    s' := CheckFails(run, s', before, capacity, before, b, magnets, Opened(), live[h := inside], h);
    Overwritten(live, h, inside, out);
    run, s' := GetsOut(run + [Check(Task(b, h), true)], s', before, capacity, before, b, magnets, Opened(), live[h := out], h);
    Overwritten(live, h, out, gone);
    LooksAway(run, s', before, capacity, before, b, magnets, Opened(), live[h := gone], h);
  }

  lemma Overwritten(live: map<Hash, TaskState>, h: Hash, x: TaskState, y: TaskState)
    ensures live[h := x][h := y] == live[h := y] && live[h := x][h] == x && live[h := y] - {h} == live - {h}
  {
  }

  /** The batch starts, and all its tasks but those of `left` run through. */
  lemma {:induction false} OthersRunThrough(steps: seq<Step>, s: State, before: Server, capacity: Capacity, b: BatchId, magnets: Magnets,
                                            live: map<Hash, TaskState>, left: set<Hash>) returns (run: seq<Step>, s': State)
    requires Stage(steps, s, before, capacity, before, b, magnets, Opened(), live)
    requires (forall k | k in live :: live[k] == Fresh()) && left <= live.Keys
    ensures Stage(run, s', before, capacity, before, b, magnets, Opened(), AllFresh(left))
    decreases |live|
  {
    hide Stage;
    if live.Keys == left {
      run, s' := steps, s;
      assert live == AllFresh(left);
    } else {
      var h :| h in live && h !in left;
      run, s' := RunsThrough(steps, s, before, capacity, b, magnets, live, h);
      assert |live - {h}| < |live| by {
        assert (live - {h}).Keys == live.Keys - {h};
        Smaller(live, h);
      }
      run, s' := OthersRunThrough(run, s', before, capacity, b, magnets, live - {h}, left);
    }
  }

  lemma Smaller(live: map<Hash, TaskState>, h: Hash)
    requires h in live
    ensures |live - {h}| < |live|
  {
    var rest := live - {h};
    assert rest.Keys == live.Keys - {h};
    assert |live.Keys - {h}| == |live.Keys| - 1;
    assert |rest| == |rest.Keys| && |live| == |live.Keys|;
  }

  lemma BatchStarts(before: Server, capacity: Capacity, b: BatchId, magnets: Magnets) returns (s: State)
    requires |magnets| <= MAX_MAGNETS && Named(magnets) != {}
    ensures Stage([StartBatch(b, magnets)], s, before, capacity, before, b, magnets, Opened(), AllFresh(Named(magnets)))
  {
    var start, step := Initial(capacity, before), StartBatch(b, magnets);
    Nowhere(start);
    Continue(start, [], start, step);
    assert [] + [step] == [step];
    s := Next(start, step);
    assert LockInv(start);
    StepKeepsLocks(start, step);
    hide LockInv, Reaches;
    assert Scene(s, capacity, before, b, magnets, Opened(), AllFresh(Named(magnets)));
  }

  /** A run of the batch in which all but the tasks of `left` are through. */
  lemma Prepared(before: Server, capacity: Capacity, b: BatchId, magnets: Magnets, left: set<Hash>) returns (run: seq<Step>, s: State)
    requires |magnets| <= MAX_MAGNETS && Named(magnets) != {} && left <= Named(magnets)
    ensures Stage(run, s, before, capacity, before, b, magnets, Opened(), AllFresh(left))
  {
    s := BatchStarts(before, capacity, b, magnets);
    hide Stage;
    run, s := OthersRunThrough([StartBatch(b, magnets)], s, before, capacity, b, magnets, AllFresh(Named(magnets)), left);
  }
}
