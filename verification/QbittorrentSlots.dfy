/** The semaphore: tasks and marker cleanups at work never exceed the concurrency. */
module QbittorrentSlots {
  import opened Wrappers
  import opened Sets
  import opened QbittorrentModel

  ghost predicate SlotInv(s: State) {
    |Working(s)| + |Tidying(s)| <= s.capacity
  }

  /** At most the task of `more` starts to work, at most the batches of `tidy` start to tidy. */
  ghost predicate Grows(s: State, s': State, more: set<Task>, tidy: set<BatchId>) {
    s'.capacity == s.capacity && Working(s') <= Working(s) + more && Tidying(s') <= Tidying(s) + tidy
  }

  lemma FitsStill(s: State, s': State, more: set<Task>, tidy: set<BatchId>)
    requires SlotInv(s) && Grows(s, s', more, tidy) && |more| + |tidy| <= 1
    requires more != {} || tidy != {} ==> HasSlot(s)
    ensures SlotInv(s')
  {
    hide Working, Tidying;
    SubsetSize(Working(s'), Working(s) + more);
    SubsetSize(Tidying(s'), Tidying(s) + tidy);
    assert |Working(s) + more| <= |Working(s)| + |more|;
    assert |Tidying(s) + tidy| <= |Tidying(s)| + |tidy|;
  }

  /** Only one task changed, and it works no more than it did. */
  ghost predicate MovesOne(s: State, s': State, t: Task) {
    && t in s.tasks && t in s'.tasks && s'.capacity == s.capacity && s'.tasks == s.tasks[t := s'.tasks[t]]
    && (Registered(s'.tasks[t].place) ==> Registered(s.tasks[t].place))
    && s'.batches.Keys == s.batches.Keys && (forall b | b in s.batches :: s'.batches[b].phase == s.batches[b].phase)
  }

  lemma MovesOneGrows(s: State, s': State, t: Task)
    requires MovesOne(s, s', t)
    ensures Grows(s, s', {}, {})
  {
    hide Registered;
  }

  ghost predicate GoesIn(step: Step) {
    step.Acquire? || step.Check? || step.Read? || step.Add? || step.LateAdd? || step.StopPolling?
  }

  ghost predicate GoesOut(step: Step) {
    step.CleanQuery? || step.Delete? || step.LateDelete? || step.Unlock? || step.Release?
  }

  lemma GoingInMoves(s: State, step: Step)
    requires Enabled(s, step) && GoesIn(step)
    ensures MovesOne(s, Next(s, step), step.t)
  {
    hide Gathered, HasSlot, WithoutMarker, WithTorrent, Marked, Cancelled, MarkerAsked, MarkerDropped, Registering;
    hide CleanupAsked, Deleted, DeletedLate, Unlocked, Released;
  }

  lemma GoingOutMoves(s: State, step: Step)
    requires Enabled(s, step) && GoesOut(step)
    ensures MovesOne(s, Next(s, step), step.t)
  {
    hide Gathered, HasSlot, WithoutMarker, WithTorrent, Marked, Cancelled, MarkerAsked, MarkerDropped, Registering;
    hide Acquired, Checked, Added, AddedLate;
  }

  lemma TaskStepMoves(s: State, step: Step)
    requires Enabled(s, step) && (GoesIn(step) || GoesOut(step))
    ensures MovesOne(s, Next(s, step), step.t)
  {
    hide Enabled, Next, MovesOne;
    if GoesIn(step) {
      GoingInMoves(s, step);
    } else {
      GoingOutMoves(s, step);
    }
  }

  lemma RegisterGrows(s: State, t: Task)
    requires CanRegister(s, t)
    ensures Grows(s, Registering(s, t), {t}, {})
  {
  }

  lemma BatchStepGrows(s: State, step: Step)
    requires Enabled(s, step) && (step.StartBatch? || step.CancelBatch? || step.MarkerQuery? || step.MarkerDrop? || step.LateDrop?)
    ensures Grows(s, Next(s, step), {}, {})
  {
    hide Gathered, HasSlot, WithoutMarker, WithTorrent, Marked;
  }

  lemma TidyGrows(s: State, b: BatchId)
    requires CanTidy(s, b)
    ensures Grows(s, Next(s, BeginMarkerCleanup(b)), {}, if s.batches[b].markerUsed then {b} else {})
  {
    hide Gathered, HasSlot;
  }

  lemma StepKeepsSlots(s: State, step: Step)
    requires SlotInv(s) && Enabled(s, step)
    ensures SlotInv(Next(s, step))
  {
    hide SlotInv, Grows, HasSlot, Registering, MovesOne;
    if GoesIn(step) || GoesOut(step) {
      hide Next;
      TaskStepMoves(s, step);
      MovesOneGrows(s, Next(s, step), step.t);
      FitsStill(s, Next(s, step), {}, {});
    } else if step.Register? {
      RegisterGrows(s, step.t);
      FitsStill(s, Next(s, step), {step.t}, {});
    } else if step.BeginMarkerCleanup? {
      hide Next;
      TidyGrows(s, step.b);
      FitsStill(s, Next(s, step), {}, if s.batches[step.b].markerUsed then {step.b} else {});
    } else {
      hide Next;
      BatchStepGrows(s, step);
      FitsStill(s, Next(s, step), {}, {});
    }
  }

  lemma {:induction false} SlotsInEveryRun(s: State, steps: seq<Step>)
    requires SlotInv(s) && Possible(s, steps)
    ensures SlotInv(After(s, steps))
    decreases |steps|
  {
    hide SlotInv, Next, Enabled;
    if steps != [] {
      StepKeepsSlots(s, steps[0]);
      SlotsInEveryRun(Next(s, steps[0]), steps[1..]);
    }
  }

  /** In every run, tasks inside a batch's slot and marker cleanups together are at most as many
      as the concurrency allows. */
  lemma NeverMoreThanCapacity(capacity: Capacity, server: map<Hash, set<BatchId>>, steps: seq<Step>)
    requires Possible(Initial(capacity, server), steps)
    ensures
      var s := After(Initial(capacity, server), steps);
      |set t | t in s.tasks && Registered(s.tasks[t].place)| + |Tidying(s)| <= s.capacity
  {
    var start := Initial(capacity, server);
    assert Working(start) == {} && Tidying(start) == {};
    assert SlotInv(start);
    hide Possible, After;
    SlotsInEveryRun(start, steps);
  }
}
