/**
  What happens to the torrents of the shared server: those that were there before are never
  touched, and those that stay behind belong to a cleanup that failed, to an add that arrived
  after its cleanup, or to a batch whose cancellation may lose a marker.
 */
module QbittorrentTorrents {
  import opened Wrappers
  import opened QbittorrentModel

  type Server = map<Hash, set<BatchId>>

  /** No torrent carries a marker of ours before we start: markers are fresh random names. */
  predicate Unmarked(server: Server) {
    forall h | h in server :: server[h] == {}
  }

  /** An add was sent and its cleanup has not ended. */
  predicate Responsible(p: Place) {
    p.Adding? || p.Polling? || p.Cleaning? || p.Deleting?
  }

  /** On the way out: nothing will be added any more. */
  predicate Settling(p: Place) {
    p.Leaving? || p.Releasing? || p.Finished?
  }

  /** Where a task of a cancelled batch can be. */
  predicate Calm(ts: TaskState) {
    (ts.place.Adding? && ts.cancelled) || ts.place.Cleaning? || ts.place.Deleting? || Settling(ts.place)
  }

  /** The batch has more than one task. */
  ghost predicate Several(s: State, b: BatchId) {
    exists t, u :: t in s.tasks && u in s.tasks && t.batch == b && u.batch == b && t != u
  }

  /** The batch was cancelled, and one of its tasks may end while another one's add is sent. */
  ghost predicate Leaky(s: State, b: BatchId) {
    b in s.batches && s.batches[b].cancelled && s.capacity >= 2 && Several(s, b)
  }

  /** What was there is there, without any marker. */
  ghost predicate OldTorrentsStay(s: State, before: Server) {
    forall h | h in before :: h in s.server && s.server[h] == {}
  }

  /** `b` put the torrent there; it is about to be removed, or its removal failed, or it came too
      late, or the batch may leak. */
  ghost predicate Answers(s: State, b: BatchId, h: Hash)
    requires h in s.server
  {
    var t := Task(b, h);
    && t in s.tasks && s.tasks[t].attempted && s.server[h] <= {b}
    && (|| Leaky(s, b) || s.tasks[t].failed || s.tasks[t].late
        || (Responsible(s.tasks[t].place) && s.server[h] == {b}))
  }

  ghost predicate NewTorrentsAnsweredFor(s: State, before: Server) {
    forall h | h in s.server && h !in before :: exists b :: Answers(s, b, h)
  }

  /** What is known of one task. */
  predicate TaskOk(t: Task, ts: TaskState, before: Server) {
    && (ts.attempted ==> t.hash !in before)
    && (Responsible(ts.place) || ts.addPending || ts.deletePending ==> ts.attempted)
    && (ts.attempted ==> Responsible(ts.place) || ts.cleaned)
  }

  ghost predicate TasksOk(s: State, before: Server) {
    forall t | t in s.tasks :: TaskOk(t, s.tasks[t], before)
  }

  /** What is known of a task and its batch: a batch past its gather adds nothing, unless it may
      leak. */
  predicate Orderly(ts: TaskState, batch: Batch, leaky: bool) {
    && (ts.attempted ==> batch.markerUsed)
    && (batch.cancelled ==> Calm(ts))
    && (!batch.phase.Running? && !leaky ==> Settling(ts.place))
  }

  ghost predicate InOrder(s: State) {
    forall t | t in s.tasks :: t.batch in s.batches && Orderly(s.tasks[t], s.batches[t.batch], Leaky(s, t.batch))
  }

  ghost predicate TorrentInv(s: State, before: Server) {
    OldTorrentsStay(s, before) && NewTorrentsAnsweredFor(s, before) && TasksOk(s, before) && InOrder(s)
  }

  // -------------------------------------------------- steps of one task

  /** Nothing but `t`, its batch's marker and perhaps the torrent of its hash changed. */
  ghost predicate TaskMoves(s: State, s': State, t: Task) {
    && t in s.tasks && t in s'.tasks && s'.tasks == s.tasks[t := s'.tasks[t]]
    && s'.capacity == s.capacity && s'.batches.Keys == s.batches.Keys && t.batch in s.batches
    && (forall b | b in s.batches :: SameBatch(s.batches[b], s'.batches[b]))
  }

  predicate SameBatch(b: Batch, b': Batch) {
    b'.cancelled == b.cancelled && b'.phase == b.phase && (b.markerUsed ==> b'.markerUsed)
  }

  lemma SameLeaks(s: State, s': State, t: Task, b: BatchId)
    requires TaskMoves(s, s', t)
    ensures Leaky(s', b) <==> Leaky(s, b)
  {
    if Several(s, b) {
      var u, v :| u in s.tasks && v in s.tasks && u.batch == b && v.batch == b && u != v;
      assert u in s'.tasks && v in s'.tasks;
    }
    if Several(s', b) {
      var u, v :| u in s'.tasks && v in s'.tasks && u.batch == b && v.batch == b && u != v;
      assert u in s.tasks && v in s.tasks;
    }
    hide Several;
  }

  /** The move leaves the task and its place in the batch in order. */
  ghost predicate StaysInOrder(s: State, s': State, t: Task, before: Server)
    requires TaskMoves(s, s', t)
  {
    && TaskOk(t, s'.tasks[t], before)
    && (s'.tasks[t].attempted ==> s'.batches[t.batch].markerUsed)
    && (s.batches[t.batch].cancelled ==> Calm(s'.tasks[t]))
    && (Settling(s.tasks[t].place) ==> Settling(s'.tasks[t].place))
  }

  lemma MoveKeepsOrder(s: State, s': State, t: Task, before: Server)
    requires TasksOk(s, before) && InOrder(s) && TaskMoves(s, s', t) && StaysInOrder(s, s', t, before)
    ensures TasksOk(s', before) && InOrder(s')
  {
    hide Leaky, TaskOk, Calm, Settling;
    forall u | u in s'.tasks ensures u.batch in s'.batches && Orderly(s'.tasks[u], s'.batches[u.batch], Leaky(s', u.batch)) {
      SameLeaks(s, s', t, u.batch);
      assert SameBatch(s.batches[u.batch], s'.batches[u.batch]);
    }
  }

  /** On a server left as it was, whoever answered still does. */
  ghost predicate KeepsAnswering(s: State, s': State, t: Task)
    requires TaskMoves(s, s', t)
  {
    var from, to := s.tasks[t], s'.tasks[t];
    && s'.server == s.server
    && (from.attempted ==> to.attempted) && (from.failed ==> to.failed) && (from.late ==> to.late)
    && (Responsible(from.place) ==>
          Responsible(to.place) || to.failed || t.hash !in s.server || t.batch !in s.server[t.hash])
  }

  lemma MoveKeepsAnswers(s: State, s': State, t: Task, before: Server)
    requires NewTorrentsAnsweredFor(s, before) && OldTorrentsStay(s, before)
    requires TaskMoves(s, s', t) && KeepsAnswering(s, s', t)
    ensures NewTorrentsAnsweredFor(s', before) && OldTorrentsStay(s', before)
  {
    hide Responsible, Leaky;
    forall h | h in s'.server && h !in before ensures exists b :: Answers(s', b, h) {
      var b :| Answers(s, b, h);
      SameLeaks(s, s', t, b);
      assert Answers(s', b, h);
    }
  }

  ghost predicate Mover(step: Step) {
    || step.Register? || step.Acquire? || step.Check? || step.Read? || step.StopPolling?
    || step.CleanQuery? || step.Unlock? || step.Release?
  }

  lemma MoverMoves(s: State, step: Step)
    requires Enabled(s, step) && Mover(step) && step.t.batch in s.batches
    ensures TaskMoves(s, Next(s, step), step.t)
  {
    hide Gathered, HasSlot, WithoutMarker, Added, AddedLate, Deleted, DeletedLate, Cancelled;
  }

  lemma MoverKeeps(s: State, step: Step, before: Server)
    requires Enabled(s, step) && Mover(step) && TaskMoves(s, Next(s, step), step.t)
    requires TaskOk(step.t, s.tasks[step.t], before) && OldTorrentsStay(s, before)
    requires Orderly(s.tasks[step.t], s.batches[step.t.batch], Leaky(s, step.t.batch))
    ensures StaysInOrder(s, Next(s, step), step.t, before)
    ensures KeepsAnswering(s, Next(s, step), step.t)
  {
    hide TaskMoves, Gathered, HasSlot, WithoutMarker, Added, AddedLate, Deleted, DeletedLate, Cancelled, Leaky;
    hide Checked, CleanupAsked, Registering, Acquired, Unlocked, Released, OldTorrentsStay, TaskOk, Orderly, StaysInOrder, KeepsAnswering;
    match step
    case Check(t, fails) => CheckKeeps(s, t, fails, before);
    case CleanQuery(t, fails) => CleanupKeeps(s, t, fails, before);
    case _ => PlainMoveKeeps(s, step, before);
  }

  /** Steps that only move the task to another place. */
  lemma PlainMoveKeeps(s: State, step: Step, before: Server)
    requires Enabled(s, step) && Mover(step) && !step.Check? && !step.CleanQuery? && TaskMoves(s, Next(s, step), step.t)
    requires TaskOk(step.t, s.tasks[step.t], before)
    requires Orderly(s.tasks[step.t], s.batches[step.t.batch], Leaky(s, step.t.batch))
    ensures StaysInOrder(s, Next(s, step), step.t, before)
    ensures KeepsAnswering(s, Next(s, step), step.t)
  {
    hide TaskMoves, Gathered, HasSlot, WithoutMarker, Added, AddedLate, Deleted, DeletedLate, Cancelled, Leaky, Checked, CleanupAsked;
  }

  lemma CheckKeeps(s: State, t: Task, fails: bool, before: Server)
    requires At(s, t, Checking) && t.batch in s.batches && TaskMoves(s, Checked(s, t, fails), t)
    requires TaskOk(t, s.tasks[t], before) && OldTorrentsStay(s, before)
    requires Orderly(s.tasks[t], s.batches[t.batch], Leaky(s, t.batch))
    ensures StaysInOrder(s, Checked(s, t, fails), t, before)
    ensures KeepsAnswering(s, Checked(s, t, fails), t)
  {
    hide TaskMoves, Leaky;
    assert t.hash in before ==> t.hash in s.server;
    hide OldTorrentsStay;
    var to := Checked(s, t, fails).tasks[t];
    assert to.place.Adding? ==> !s.batches[t.batch].cancelled && Checked(s, t, fails).batches[t.batch].markerUsed;
    hide WithTorrent, WithoutMarker;
  }

  lemma CleanupKeeps(s: State, t: Task, fails: bool, before: Server)
    requires At(s, t, Cleaning) && TaskMoves(s, CleanupAsked(s, t, fails), t)
    requires TaskOk(t, s.tasks[t], before)
    requires Orderly(s.tasks[t], s.batches[t.batch], Leaky(s, t.batch))
    ensures StaysInOrder(s, CleanupAsked(s, t, fails), t, before)
    ensures KeepsAnswering(s, CleanupAsked(s, t, fails), t)
  {
    hide TaskMoves, Leaky;
    var s' := CleanupAsked(s, t, fails);
    assert s'.batches == s.batches && s'.server == s.server;
    assert s'.tasks[t].attempted && s.tasks[t].attempted;
    assert s'.tasks[t].place.Deleting? || s'.tasks[t].place.Leaving?;
  }

  lemma MoverStepKeeps(s: State, step: Step, before: Server)
    requires TorrentInv(s, before) && Enabled(s, step) && Mover(step)
    ensures TorrentInv(Next(s, step), before)
  {
    assert step.t in s.tasks && step.t.batch in s.batches by {
      hide Gathered, HasSlot;
    }
    hide Next, Enabled, TaskMoves, StaysInOrder, KeepsAnswering, OldTorrentsStay, NewTorrentsAnsweredFor, Leaky, Orderly, TaskOk, Mover;
    MoverMoves(s, step);
    MoverKeeps(s, step, before);
    MoveKeepsOrder(s, Next(s, step), step.t, before);
    MoveKeepsAnswers(s, Next(s, step), step.t, before);
  }

  // ------------------------------------------------------------ adds and deletes

  /** A torrent comes, if it was not there, from a task that answers for it. */
  ghost predicate Brings(s: State, s': State, t: Task)
    requires TaskMoves(s, s', t)
  {
    var from, to := s.tasks[t], s'.tasks[t];
    && (s'.server == s.server || s'.server == WithTorrent(s.server, t))
    && from.attempted && to.attempted && (from.failed ==> to.failed) && (from.late ==> to.late)
    && (Responsible(from.place) ==> Responsible(to.place))
    && (Responsible(to.place) || to.late || s'.server == s.server)
  }

  lemma BringingKeepsAnswers(s: State, s': State, t: Task, before: Server)
    requires NewTorrentsAnsweredFor(s, before) && OldTorrentsStay(s, before)
    requires TaskMoves(s, s', t) && Brings(s, s', t)
    ensures NewTorrentsAnsweredFor(s', before) && OldTorrentsStay(s', before)
  {
    hide Responsible, Leaky;
    forall h | h in s'.server && h !in before ensures exists b :: Answers(s', b, h) {
      if h in s.server {
        var b :| Answers(s, b, h);
        SameLeaks(s, s', t, b);
        assert Answers(s', b, h);
      } else {
        assert h == t.hash && t == Task(t.batch, h) && s'.server[h] == {t.batch};
        assert Answers(s', t.batch, h);
      }
    }
  }

  lemma AddMoves(s: State, t: Task, effect: Effect, before: Server)
    requires At(s, t, Adding) && t.batch in s.batches && TaskOk(t, s.tasks[t], before)
    requires Orderly(s.tasks[t], s.batches[t.batch], Leaky(s, t.batch))
    ensures TaskMoves(s, Added(s, t, effect), t)
    ensures StaysInOrder(s, Added(s, t, effect), t, before) && Brings(s, Added(s, t, effect), t)
  {
    hide Leaky, WithTorrent;
  }

  lemma LateAddMoves(s: State, t: Task, before: Server)
    requires t in s.tasks && s.tasks[t].addPending && t.batch in s.batches && TaskOk(t, s.tasks[t], before)
    requires Orderly(s.tasks[t], s.batches[t.batch], Leaky(s, t.batch))
    ensures TaskMoves(s, AddedLate(s, t), t)
    ensures StaysInOrder(s, AddedLate(s, t), t, before) && Brings(s, AddedLate(s, t), t)
  {
    hide Leaky;
  }

  lemma AddKeepsAnswers(s: State, step: Step, before: Server)
    requires TorrentInv(s, before) && Enabled(s, step) && (step.Add? || step.LateAdd?)
    ensures TorrentInv(Next(s, step), before)
  {
    hide OldTorrentsStay, NewTorrentsAnsweredFor, Leaky, Orderly, TaskOk, Added, AddedLate, TaskMoves, StaysInOrder, Brings;
    assert step.t in s.tasks && step.t.batch in s.batches;
    if step.Add? {
      AddMoves(s, step.t, step.effect, before);
    } else {
      LateAddMoves(s, step.t, before);
    }
    MoveKeepsOrder(s, Next(s, step), step.t, before);
    BringingKeepsAnswers(s, Next(s, step), step.t, before);
  }

  /** A torrent of the task's own hash goes, or the removal is known to have failed. */
  ghost predicate Removes(s: State, s': State, t: Task)
    requires TaskMoves(s, s', t)
  {
    var from, to := s.tasks[t], s'.tasks[t];
    && (s'.server == s.server - {t.hash} || (s'.server == s.server && (Responsible(from.place) ==> to.failed)))
    && from.attempted && to.attempted && (from.failed ==> to.failed) && (from.late ==> to.late)
  }

  lemma RemovingKeepsAnswers(s: State, s': State, t: Task, before: Server)
    requires NewTorrentsAnsweredFor(s, before) && OldTorrentsStay(s, before)
    requires TaskMoves(s, s', t) && Removes(s, s', t) && t.hash !in before
    ensures NewTorrentsAnsweredFor(s', before) && OldTorrentsStay(s', before)
  {
    hide Responsible, Leaky;
    forall h | h in s'.server && h !in before ensures exists b :: Answers(s', b, h) {
      var b :| Answers(s, b, h);
      SameLeaks(s, s', t, b);
      assert Answers(s', b, h);
    }
  }

  lemma DeleteMoves(s: State, t: Task, effect: Effect, confirmed: bool, before: Server)
    requires At(s, t, Deleting) && (confirmed ==> effect.Applied?) && t.batch in s.batches && TaskOk(t, s.tasks[t], before)
    requires Orderly(s.tasks[t], s.batches[t.batch], Leaky(s, t.batch))
    ensures TaskMoves(s, Deleted(s, t, effect, confirmed), t)
    ensures StaysInOrder(s, Deleted(s, t, effect, confirmed), t, before) && Removes(s, Deleted(s, t, effect, confirmed), t)
  {
    hide Leaky;
  }

  lemma LateDeleteMoves(s: State, t: Task, before: Server)
    requires t in s.tasks && s.tasks[t].deletePending && t.batch in s.batches && TaskOk(t, s.tasks[t], before)
    requires Orderly(s.tasks[t], s.batches[t.batch], Leaky(s, t.batch))
    ensures TaskMoves(s, DeletedLate(s, t), t)
    ensures StaysInOrder(s, DeletedLate(s, t), t, before) && Removes(s, DeletedLate(s, t), t)
  {
    hide Leaky;
  }

  lemma DeleteKeepsAnswers(s: State, step: Step, before: Server)
    requires TorrentInv(s, before) && Enabled(s, step) && (step.Delete? || step.LateDelete?)
    ensures TorrentInv(Next(s, step), before)
  {
    assert step.t in s.tasks && step.t.batch in s.batches && TaskOk(step.t, s.tasks[step.t], before) && step.t.hash !in before;
    hide OldTorrentsStay, NewTorrentsAnsweredFor, Leaky, Orderly, TaskOk, Deleted, DeletedLate, TaskMoves, StaysInOrder, Removes;
    if step.Delete? {
      DeleteMoves(s, step.t, step.effect, step.confirmed, before);
    } else {
      LateDeleteMoves(s, step.t, before);
    }
    MoveKeepsOrder(s, Next(s, step), step.t, before);
    RemovingKeepsAnswers(s, Next(s, step), step.t, before);
  }

  // ---------------------------------------------------------------- steps of a batch

  /** Tasks keep what they answer with; batches at most become leaky; at most a marker goes. */
  ghost predicate BatchMoves(s: State, s': State, b: BatchId) {
    && s'.capacity == s.capacity && s'.tasks.Keys == s.tasks.Keys && b in s.batches
    && s'.batches.Keys == s.batches.Keys && (forall c | c in s.batches && c != b :: s'.batches[c] == s.batches[c])
    && (s.batches[b].cancelled ==> s'.batches[b].cancelled)
    && (forall t | t in s.tasks :: SameDuty(s.tasks[t], s'.tasks[t]))
    && (s'.server == s.server || s'.server == WithoutMarker(s.server, b))
  }

  predicate SameDuty(ts: TaskState, ts': TaskState) {
    && ts'.attempted == ts.attempted && ts'.failed == ts.failed && ts'.late == ts.late
    && (Responsible(ts.place) ==> Responsible(ts'.place))
  }

  lemma MayBecomeLeaky(s: State, s': State, b: BatchId, c: BatchId)
    requires BatchMoves(s, s', b)
    ensures Leaky(s, c) ==> Leaky(s', c)
    ensures c != b ==> (Leaky(s', c) <==> Leaky(s, c))
  {
    hide WithoutMarker, SameDuty;
    if Several(s, c) {
      var u, v :| u in s.tasks && v in s.tasks && u.batch == c && v.batch == c && u != v;
      assert u in s'.tasks && v in s'.tasks;
    }
    if Several(s', c) {
      var u, v :| u in s'.tasks && v in s'.tasks && u.batch == c && v.batch == c && u != v;
      assert u in s.tasks && v in s.tasks;
    }
    hide Several;
  }

  /** A marker goes only when no task of the batch is responsible any more, or it may leak. */
  lemma BatchMovesKeep(s: State, s': State, b: BatchId, before: Server)
    requires NewTorrentsAnsweredFor(s, before) && OldTorrentsStay(s, before) && BatchMoves(s, s', b)
    requires s'.server == s.server || Leaky(s, b) || forall t | t in s.tasks && t.batch == b :: !Responsible(s.tasks[t].place)
    ensures NewTorrentsAnsweredFor(s', before) && OldTorrentsStay(s', before)
  {
    hide Leaky;
    forall h | h in s'.server && h !in before ensures exists c :: Answers(s', c, h) {
      var c :| Answers(s, c, h);
      MayBecomeLeaky(s, s', b, c);
      assert SameDuty(s.tasks[Task(c, h)], s'.tasks[Task(c, h)]);
      hide Responsible;
      assert Answers(s', c, h);
    }
  }

  lemma BatchKeepsOrder(s: State, s': State, b: BatchId, before: Server)
    requires TasksOk(s, before) && InOrder(s) && BatchMoves(s, s', b)
    requires forall t | t in s.tasks && t.batch != b :: s'.tasks[t] == s.tasks[t]
    requires forall t | t in s.tasks && t.batch == b ::
      TaskOk(t, s'.tasks[t], before) && Orderly(s'.tasks[t], s'.batches[b], Leaky(s', b))
    ensures TasksOk(s', before) && InOrder(s')
  {
    hide Leaky, TaskOk, Orderly, SameDuty, WithoutMarker;
    forall t | t in s'.tasks
      ensures TaskOk(t, s'.tasks[t], before)
      ensures t.batch in s'.batches && Orderly(s'.tasks[t], s'.batches[t.batch], Leaky(s', t.batch))
    {
      MayBecomeLeaky(s, s', b, t.batch);
    }
  }

  lemma CancelMoves(s: State, b: BatchId)
    requires InPhase(s, b, Running)
    ensures BatchMoves(s, Next(s, CancelBatch(b)), b)
    ensures forall t | t in s.tasks && t.batch != b :: Next(s, CancelBatch(b)).tasks[t] == s.tasks[t]
  {
    hide WithoutMarker;
  }

  lemma CancelledTaskOk(t: Task, ts: TaskState, batch: Batch, leaky: bool, leaky': bool, before: Server)
    requires TaskOk(t, ts, before) && Orderly(ts, batch, leaky) && batch.phase.Running?
    ensures
      var ts' := if ts.place.Finished? then ts else ts.(place := CancelledTo(ts.place), cancelled := true);
      TaskOk(t, ts', before) && Orderly(ts', batch.(cancelled := true), leaky')
  {
  }

  lemma CancelKeepsTorrents(s: State, b: BatchId, before: Server)
    requires TorrentInv(s, before) && InPhase(s, b, Running)
    ensures TorrentInv(Next(s, CancelBatch(b)), before)
  {
    hide OldTorrentsStay, NewTorrentsAnsweredFor, BatchMoves, Leaky, TaskOk, Orderly, WithoutMarker;
    var s' := Next(s, CancelBatch(b));
    CancelMoves(s, b);
    BatchMovesKeep(s, s', b, before);
    forall t | t in s.tasks && t.batch == b
      ensures TaskOk(t, s'.tasks[t], before) && Orderly(s'.tasks[t], s'.batches[b], Leaky(s', b))
    {
      CancelledTaskOk(t, s.tasks[t], s.batches[b], Leaky(s, b), Leaky(s', b), before);
    }
    BatchKeepsOrder(s, s', b, before);
  }

  /** With one slot, or a single task, a gather that is over has nobody left who could add. */
  lemma GatheredIsSettled(s: State, b: BatchId, t: Task, before: Server)
    requires TasksOk(s, before) && InOrder(s) && CanTidy(s, b) && !Leaky(s, b) && t in s.tasks && t.batch == b
    ensures Settling(s.tasks[t].place)
  {
    if !AllFinished(s, b) {
      var u :| u in s.tasks && u.batch == b && s.tasks[u].place.Finished? && s.tasks[u].cancelled;
      if t != u {
        assert Several(s, b);
        assert s.capacity == 1;
        if s.batches[b].markerUsed {
          NobodyWorks(s, t);
        }
      }
    }
  }

  lemma NobodyWorks(s: State, t: Task)
    requires HasSlot(s) && s.capacity == 1 && t in s.tasks
    ensures !Registered(s.tasks[t].place)
  {
    assert Working(s) == {};
    assert t !in Working(s);
  }

  lemma TidyKeeps(s: State, b: BatchId, before: Server)
    requires TorrentInv(s, before) && CanTidy(s, b)
    ensures TorrentInv(Next(s, BeginMarkerCleanup(b)), before)
  {
    var s' := Next(s, BeginMarkerCleanup(b));
    hide OldTorrentsStay, NewTorrentsAnsweredFor, WithoutMarker, Gathered, HasSlot, Several, TaskOk;
    assert BatchMoves(s, s', b);
    BatchMovesKeep(s, s', b, before);
    forall t | t in s.tasks && t.batch == b
      ensures TaskOk(t, s'.tasks[t], before) && Orderly(s'.tasks[t], s'.batches[b], Leaky(s', b))
    {
      MayBecomeLeaky(s, s', b, b);
      if !Leaky(s, b) {
        GatheredIsSettled(s, b, t, before);
      }
    }
    hide BatchMoves, Leaky, Orderly, CanTidy;
    BatchKeepsOrder(s, s', b, before);
  }

  ghost predicate MarkerStep(s: State, step: Step) {
    || (step.MarkerQuery? && InPhase(s, step.b, Querying))
    || (step.MarkerDrop? && InPhase(s, step.b, Dropping))
    || (step.LateDrop? && InPhase(s, step.b, Ended))
  }

  lemma MarkerStepMoves(s: State, step: Step)
    requires Enabled(s, step) && MarkerStep(s, step)
    ensures BatchMoves(s, Next(s, step), step.b) && Next(s, step).tasks == s.tasks
    ensures
      var batch, batch' := s.batches[step.b], Next(s, step).batches[step.b];
      batch'.cancelled == batch.cancelled && batch'.markerUsed == batch.markerUsed && !batch'.phase.Running?
  {
    hide WithoutMarker, SameDuty, Marked, Gathered, HasSlot, Cancelled;
    DutiesStay(s);
    match step
    case MarkerQuery(b, fails) =>
      hide BatchMoves;
      OnlyBatchMoves(s, MarkerAsked(s, b, fails), b);
    case MarkerDrop(b, effect, confirmed) =>
      hide BatchMoves;
      OnlyBatchMoves(s, MarkerDropped(s, b, effect, confirmed), b);
    case LateDrop(b) =>
      hide BatchMoves;
      OnlyBatchMoves(s, Next(s, step), b);
  }

  lemma OnlyBatchMoves(s: State, s': State, b: BatchId)
    requires b in s.batches && b in s'.batches && s'.batches[b].cancelled == s.batches[b].cancelled
    requires s' == s.(batches := s.batches[b := s'.batches[b]], server := s'.server)
    requires s'.server == s.server || s'.server == WithoutMarker(s.server, b)
    ensures BatchMoves(s, s', b)
  {
    hide WithoutMarker;
  }

  lemma DutiesStay(s: State)
    ensures forall t | t in s.tasks :: SameDuty(s.tasks[t], s.tasks[t])
  {
  }

  lemma MarkerStepKeeps(s: State, step: Step, before: Server)
    requires TorrentInv(s, before) && Enabled(s, step) && MarkerStep(s, step)
    ensures TorrentInv(Next(s, step), before)
  {
    var b, s' := step.b, Next(s, step);
    MarkerStepMoves(s, step);
    assert !s.batches[b].phase.Running?;
    hide OldTorrentsStay, NewTorrentsAnsweredFor, TaskOk, Next, Enabled, BatchMoves, Leaky, MarkerStep;
    MarkerMayGo(s, b, before);
    BatchMovesKeep(s, s', b, before);
    forall t | t in s.tasks && t.batch == b
      ensures TaskOk(t, s'.tasks[t], before) && Orderly(s'.tasks[t], s'.batches[b], Leaky(s', b))
    {
      MayBecomeLeaky(s, s', b, b);
    }
    hide Orderly;
    BatchKeepsOrder(s, s', b, before);
  }

  lemma MarkerMayGo(s: State, b: BatchId, before: Server)
    requires InOrder(s) && b in s.batches && !s.batches[b].phase.Running?
    ensures Leaky(s, b) || forall t | t in s.tasks && t.batch == b :: !Responsible(s.tasks[t].place)
  {
    hide Leaky;
  }

  lemma StartKeepsTorrents(s: State, b: BatchId, magnets: Magnets, before: Server)
    requires TorrentInv(s, before) && Enabled(s, StartBatch(b, magnets))
    ensures TorrentInv(Next(s, StartBatch(b, magnets)), before)
  {
    hide Leaky, Next, Enabled, TasksOk, Responsible;
    assert forall t | t in s.tasks :: t.batch in s.batches;
    hide InOrder;
    var s' := Next(s, StartBatch(b, magnets));
    StartAdds(s, b, magnets);
    StartKeepsOrder(s, b, magnets, before);
    forall h | h in s'.server && h !in before ensures exists c :: Answers(s', c, h) {
      var c :| Answers(s, c, h);
      assert Task(c, h) in s'.tasks;
      assert c in s.batches;
      assert Answers(s', c, h);
    }
  }

  lemma StartKeepsOrder(s: State, b: BatchId, magnets: Magnets, before: Server)
    requires TasksOk(s, before) && InOrder(s) && Enabled(s, StartBatch(b, magnets))
    ensures TasksOk(Next(s, StartBatch(b, magnets)), before) && InOrder(Next(s, StartBatch(b, magnets)))
  {
    var s' := Next(s, StartBatch(b, magnets));
    StartAdds(s, b, magnets);
    hide Leaky, Next, Enabled, TaskOk, Orderly;
    forall t | t in s'.tasks
      ensures TaskOk(t, s'.tasks[t], before)
      ensures t.batch in s'.batches && Orderly(s'.tasks[t], s'.batches[t.batch], Leaky(s', t.batch))
    {
      FreshIsOk(t, before, Leaky(s', t.batch));
    }
  }

  /** What a new batch adds, and what it leaves. */
  lemma StartAdds(s: State, b: BatchId, magnets: Magnets)
    requires Enabled(s, StartBatch(b, magnets))
    ensures
      var s' := Next(s, StartBatch(b, magnets));
      && s'.server == s.server && s'.batches == s.batches[b := Opened()]
      && (forall t | t in s.tasks :: t in s'.tasks && s'.tasks[t] == s.tasks[t])
      && (forall t | t in s'.tasks && t !in s.tasks :: t.batch == b && s'.tasks[t] == Fresh())
      && (forall c | c in s.batches :: Leaky(s', c) <==> Leaky(s, c))
  {
    forall c | c in s.batches ensures Leaky(Next(s, StartBatch(b, magnets)), c) <==> Leaky(s, c) {
      StartLeaks(s, b, magnets, c);
    }
    hide Leaky;
  }

  lemma FreshIsOk(t: Task, before: Server, leaky: bool)
    ensures TaskOk(t, Fresh(), before) && Orderly(Fresh(), Opened(), leaky)
  {
  }

  lemma StartLeaks(s: State, b: BatchId, magnets: Magnets, c: BatchId)
    requires Enabled(s, StartBatch(b, magnets)) && c in s.batches
    ensures Leaky(Next(s, StartBatch(b, magnets)), c) <==> Leaky(s, c)
  {
    var s' := Next(s, StartBatch(b, magnets));
    assert forall t: Task | t.batch == c :: t in s'.tasks <==> t in s.tasks;
    if Several(s, c) {
      var u, v :| u in s.tasks && v in s.tasks && u.batch == c && v.batch == c && u != v;
      assert u in s'.tasks && v in s'.tasks;
    }
  }

  // --------------------------------------------------------------------- every run

  lemma StepKeepsTorrents(s: State, step: Step, before: Server)
    requires TorrentInv(s, before) && Enabled(s, step)
    ensures TorrentInv(Next(s, step), before)
  {
    hide TorrentInv, Next;
    if Mover(step) {
      MoverStepKeeps(s, step, before);
    } else {
      match step
      case Add(t, effect) => AddKeepsAnswers(s, step, before);
      case LateAdd(t) => AddKeepsAnswers(s, step, before);
      case Delete(t, effect, confirmed) => DeleteKeepsAnswers(s, step, before);
      case LateDelete(t) => DeleteKeepsAnswers(s, step, before);
      case StartBatch(b, magnets) => StartKeepsTorrents(s, b, magnets, before);
      case CancelBatch(b) => CancelKeepsTorrents(s, b, before);
      case BeginMarkerCleanup(b) => TidyKeeps(s, b, before);
      case _ => MarkerStepKeeps(s, step, before);
    }
  }

  lemma {:induction false} TorrentsInEveryRun(s: State, steps: seq<Step>, before: Server)
    requires TorrentInv(s, before) && Possible(s, steps)
    ensures TorrentInv(After(s, steps), before)
    decreases |steps|
  {
    hide TorrentInv, Next, Enabled;
    if steps != [] {
      StepKeepsTorrents(s, steps[0], before);
      TorrentsInEveryRun(Next(s, steps[0]), steps[1..], before);
    }
  }

  /**
    Over every interleaving of every set of batches, whenever requests take effect: a torrent
    that was on the server stays, untouched; a torrent that is new belongs to a task still on its
    way to removing it, to a cleanup reported as failed, to an add that arrived when its cleanup
    had looked already, or to a cancelled batch of several infohashes on a client that works on
    several at a time; and every add was followed by its cleanup before the guard was left.
   */
  lemma TorrentTheorem(capacity: Capacity, server: Server, steps: seq<Step>)
    requires Unmarked(server) && Possible(Initial(capacity, server), steps)
    ensures
      var s := After(Initial(capacity, server), steps);
      && (forall h | h in server :: h in s.server && s.server[h] == server[h])
      && (forall h | h in s.server && h !in server :: exists b ::
            var t := Task(b, h);
            && t in s.tasks && s.tasks[t].attempted
            && (Responsible(s.tasks[t].place) || s.tasks[t].failed || s.tasks[t].late || Leaky(s, b)))
      && (forall t | t in s.tasks && s.tasks[t].attempted && !Guarded(s.tasks[t].place) :: s.tasks[t].cleaned)
  {
    hide Next, Enabled, Possible, After;
    TorrentsInEveryRun(Initial(capacity, server), steps, server);
    var s := After(Initial(capacity, server), steps);
    hide InOrder, Leaky;
    forall h | h in s.server && h !in server
      ensures exists b ::
        var t := Task(b, h);
        && t in s.tasks && s.tasks[t].attempted
        && (Responsible(s.tasks[t].place) || s.tasks[t].failed || s.tasks[t].late || Leaky(s, b))
    {
      var b :| Answers(s, b, h);
      var t := Task(b, h);
      assert t in s.tasks && s.tasks[t].attempted;
    }
  }
}
