/**
  When the torrents of the server are restored, said before any batch is sent: exactly when no
  planned batch short enough to be accepted names several infohashes, one of them missing on
  the server, on a client that works on several at a time; and, once adds may take effect after
  their own failure, exactly when no such batch names an infohash that is missing.
 */
module QbittorrentCondition {
  import opened Wrappers
  import opened Sets
  import opened QbittorrentModel
  import opened QbittorrentSlots
  import opened QbittorrentTorrents
  import opened QbittorrentRuns
  import opened QbittorrentLeak

  /** The magnets of each batch that may be sent. */
  type Plan = map<BatchId, Magnets>

  /** A run starts only planned batches, each as planned. */
  ghost predicate AsPlanned(steps: seq<Step>, plan: Plan) {
    forall step | step in steps && step.StartBatch? :: step.b in plan && step.magnets == plan[step.b]
  }

  /** A batch that is refused for its length, or names one infohash at most, or only torrents that
      are there; or a client that works on one infohash at a time. */
  predicate Safe(capacity: Capacity, server: map<Hash, set<BatchId>>, magnets: Magnets) {
    capacity == 1 || |Named(magnets)| <= 1 || AddsNothing(server, magnets)
  }

  predicate AddsNothing(server: map<Hash, set<BatchId>>, magnets: Magnets) {
    |magnets| > MAX_MAGNETS || Named(magnets) <= server.Keys
  }

  // ---------------------------------------------------------- the tasks are the plan's

  ghost predicate TasksPlanned(s: State, plan: Plan, capacity: Capacity) {
    && s.capacity == capacity
    && forall t | t in s.tasks :: t.batch in plan && t.hash in Named(plan[t.batch]) && |plan[t.batch]| <= MAX_MAGNETS
  }

  lemma StepKeepsPlan(s: State, step: Step, plan: Plan, capacity: Capacity)
    requires TasksPlanned(s, plan, capacity) && Enabled(s, step)
    requires step.StartBatch? ==> step.b in plan && step.magnets == plan[step.b]
    ensures TasksPlanned(Next(s, step), plan, capacity)
  {
    StepKeepsTasks(s, step);
    hide Next, Enabled;
    var s' := Next(s, step);
    forall t | t in s'.tasks ensures t.batch in plan && t.hash in Named(plan[t.batch]) && |plan[t.batch]| <= MAX_MAGNETS {
    }
  }

  lemma StepKeepsTasks(s: State, step: Step)
    requires Enabled(s, step)
    ensures Next(s, step).capacity == s.capacity
    ensures forall t | t in Next(s, step).tasks && t !in s.tasks ::
      step.StartBatch? && t.batch == step.b && t.hash in Named(step.magnets) && |step.magnets| <= MAX_MAGNETS
  {
    hide Gathered, HasSlot, WithoutMarker, WithTorrent, Marked;
    if GoesIn(step) || GoesOut(step) {
      hide Next, Enabled;
      TaskStepMoves(s, step);
    }
  }

  lemma {:induction false} PlanInEveryRun(s: State, steps: seq<Step>, plan: Plan, capacity: Capacity)
    requires TasksPlanned(s, plan, capacity) && Possible(s, steps) && AsPlanned(steps, plan)
    ensures TasksPlanned(After(s, steps), plan, capacity)
    decreases |steps|
  {
    hide TasksPlanned, Next, Enabled;
    if steps != [] {
      assert steps[0] in steps;
      StepKeepsPlan(s, steps[0], plan, capacity);
      assert forall step | step in steps[1..] :: step in steps;
      PlanInEveryRun(Next(s, steps[0]), steps[1..], plan, capacity);
    }
  }

  lemma InitiallyPlanned(capacity: Capacity, server: Server, plan: Plan)
    ensures TasksPlanned(Initial(capacity, server), plan, capacity)
  {
  }

  // ------------------------------------------------------------- safe plans are restored

  lemma LeakyIsUnsafe(s: State, capacity: Capacity, server: Server, plan: Plan, b: BatchId, h: Hash)
    requires TasksPlanned(s, plan, capacity) && Leaky(s, b) && Task(b, h) in s.tasks && h !in server
    ensures b in plan && !Safe(capacity, server, plan[b])
  {
    var t, u :| t in s.tasks && u in s.tasks && t.batch == b && u.batch == b && t != u;
    assert t.hash in Named(plan[b]) && u.hash in Named(plan[b]) && h in Named(plan[b]);
    TwoMembers(Named(plan[b]), t.hash, u.hash);
  }

  /** After every run of a safe plan, cancelled or not: if all is through, no cleanup failed and no
      add came late, the torrents are the initial ones. */
  lemma ServerIsRestored(capacity: Capacity, server: Server, plan: Plan, steps: seq<Step>)
    requires Unmarked(server) && Possible(Initial(capacity, server), steps) && AsPlanned(steps, plan)
    requires AllThrough(After(Initial(capacity, server), steps)) && NothingLate(After(Initial(capacity, server), steps))
    requires forall b | b in plan :: Safe(capacity, server, plan[b])
    ensures After(Initial(capacity, server), steps).server == server
  {
    hide Possible, After, Leaky, Safe, TasksPlanned, AsPlanned;
    var s := After(Initial(capacity, server), steps);
    TorrentTheorem(capacity, server, steps);
    InitiallyPlanned(capacity, server, plan);
    PlanInEveryRun(Initial(capacity, server), steps, plan, capacity);
    forall h | h in s.server ensures h in server {
      if h !in server {
        var b :| Task(b, h) in s.tasks && Leaky(s, b);
        LeakyIsUnsafe(s, capacity, server, plan, b, h);
        assert false;
      }
    }
  }

  /** After every run of a plan that adds nothing, whenever requests take effect. */
  lemma ServerIsUntouched(capacity: Capacity, server: Server, plan: Plan, steps: seq<Step>)
    requires Unmarked(server) && Possible(Initial(capacity, server), steps) && AsPlanned(steps, plan)
    requires forall b | b in plan :: AddsNothing(server, plan[b])
    ensures After(Initial(capacity, server), steps).server == server
  {
    hide Possible, After, Leaky, AsPlanned, Responsible;
    var s := After(Initial(capacity, server), steps);
    TorrentTheorem(capacity, server, steps);
    InitiallyPlanned(capacity, server, plan);
    PlanInEveryRun(Initial(capacity, server), steps, plan, capacity);
    forall h | h in s.server ensures h in server {
      if h !in server {
        IsPlanned(s, capacity, plan, h);
      }
    }
  }

  lemma IsPlanned(s: State, capacity: Capacity, plan: Plan, h: Hash)
    requires TasksPlanned(s, plan, capacity) && exists b :: Task(b, h) in s.tasks
    ensures exists b :: b in plan && h in Named(plan[b]) && |plan[b]| <= MAX_MAGNETS
  {
    var b :| Task(b, h) in s.tasks;
    assert b in plan && h in Named(plan[b]);
  }

  // ------------------------------------------------------------- and no others

  lemma OneOfThePlan(steps: seq<Step>, plan: Plan, b: BatchId)
    requires b in plan && OnlyBatch(steps, b, plan[b])
    ensures AsPlanned(steps, plan)
  {
  }

  lemma Missing(server: Server, hashes: set<Hash>) returns (h: Hash)
    requires !(hashes <= server.Keys)
    ensures h in hashes && h !in server
  {
    h :| h in hashes && h !in server.Keys;
  }

  ghost predicate AlwaysRestored(capacity: Capacity, server: Server, plan: Plan) {
    forall steps ::
      Possible(Initial(capacity, server), steps) && AsPlanned(steps, plan)
      && AllThrough(After(Initial(capacity, server), steps)) && NothingLate(After(Initial(capacity, server), steps))
      ==> After(Initial(capacity, server), steps).server == server
  }

  ghost predicate RestoredWhateverComes(capacity: Capacity, server: Server, plan: Plan) {
    forall steps ::
      Possible(Initial(capacity, server), steps) && AsPlanned(steps, plan)
      && AllThrough(After(Initial(capacity, server), steps))
      ==> After(Initial(capacity, server), steps).server == server
  }

  /**
    For every concurrency, server and plan: in every run, in any interleaving and with any
    cancellations, at whose end all is through, no cleanup failed and no add came late, the
    torrents are the initial ones if and only if every planned batch is safe.
   */
  lemma RestoredExactlyWhenSafe(capacity: Capacity, server: Server, plan: Plan)
    requires Unmarked(server)
    ensures AlwaysRestored(capacity, server, plan) <==> forall b | b in plan :: Safe(capacity, server, plan[b])
  {
    hide Possible, After, AllThrough, NothingLate, AsPlanned, OnlyBatch;
    if forall b | b in plan :: Safe(capacity, server, plan[b]) {
      forall steps | Possible(Initial(capacity, server), steps) && AsPlanned(steps, plan)
          && AllThrough(After(Initial(capacity, server), steps)) && NothingLate(After(Initial(capacity, server), steps))
        ensures After(Initial(capacity, server), steps).server == server
      {
        ServerIsRestored(capacity, server, plan, steps);
      }
    } else {
      var b :| b in plan && !Safe(capacity, server, plan[b]);
      var h := Missing(server, Named(plan[b]));
      var steps := CancelledBatchMayLeak(capacity, server, b, plan[b], h);
      OneOfThePlan(steps, plan, b);
    }
  }

  /** When adds may also take effect after their own failure, however late: if and only if no
      planned batch has an infohash that the server lacks. */
  lemma RestoredWhateverComesExactly(capacity: Capacity, server: Server, plan: Plan)
    requires Unmarked(server)
    ensures RestoredWhateverComes(capacity, server, plan) <==> forall b | b in plan :: AddsNothing(server, plan[b])
  {
    hide Possible, After, AllThrough, AsPlanned, OnlyBatch;
    if forall b | b in plan :: AddsNothing(server, plan[b]) {
      forall steps | Possible(Initial(capacity, server), steps) && AsPlanned(steps, plan)
          && AllThrough(After(Initial(capacity, server), steps))
        ensures After(Initial(capacity, server), steps).server == server
      {
        ServerIsUntouched(capacity, server, plan, steps);
      }
    } else {
      var b :| b in plan && !AddsNothing(server, plan[b]);
      var h := Missing(server, Named(plan[b]));
      var steps := LateAddStays(capacity, server, b, plan[b], h);
      OneOfThePlan(steps, plan, b);
    }
  }
}
