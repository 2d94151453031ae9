/**
  Two runs of one batch at whose end everything is finished, no cleanup failed, and a torrent
  stays behind.  In the first the batch is cancelled: its gather ends with its first child, so
  its marker is dropped while another child's shielded add is still under way, and the torrent
  loses the tag its cleanup looks for.  In the second an add arrives after its cleanup.
 */
module QbittorrentLeak {
  import opened Wrappers
  import opened QbittorrentModel
  import opened QbittorrentLocks
  import opened QbittorrentTorrents
  import opened QbittorrentRuns

  /** Every task and every batch is through, and no cleanup failed. */
  ghost predicate AllThrough(s: State) {
    && (forall t | t in s.tasks :: s.tasks[t].place.Finished? && !s.tasks[t].failed)
    && (forall b | b in s.batches :: s.batches[b].phase.Ended? && !s.batches[b].failed)
  }

  /** No add arrived after its cleanup had looked. */
  ghost predicate NothingLate(s: State) {
    forall t | t in s.tasks :: !s.tasks[t].late
  }

  /** The task of `h` asks the server something that changes neither it nor the batch. */
  lemma Asks(steps: seq<Step>, s: State, before: Server, capacity: Capacity, server: Server, b: BatchId, magnets: Magnets,
             batch: Batch, live: map<Hash, TaskState>, h: Hash, step: Step, to: TaskState) returns (s': State)
    requires Stage(steps, s, before, capacity, server, b, magnets, batch, live) && h in live
    requires
      || (step == StopPolling(Task(b, h)) && live[h].place.Polling? && to == live[h].(place := Cleaning))
      || (step == CleanQuery(Task(b, h), false) && live[h].place.Cleaning? && (h !in server || b !in server[h])
          && to == live[h].(place := Leaving, cleaned := true))
    ensures Stage(steps + [step], s', before, capacity, server, b, magnets, batch, live[h := to])
  {
    hide Reaches, LockInv;
    s' := TaskGoes(steps, s, before, capacity, server, b, magnets, batch, live, step, h, to, server, batch);
  }

  /** The gather is over: the marker's cleanup starts, finds no torrent, and goes on. */
  lemma MarkerLooksUnused(steps: seq<Step>, s: State, before: Server, capacity: Capacity, server: Server, b: BatchId,
                          magnets: Magnets, batch: Batch, live: map<Hash, TaskState>) returns (run: seq<Step>, s': State)
    requires Stage(steps, s, before, capacity, server, b, magnets, batch, live)
    requires batch.phase.Running? && batch.markerUsed && Gathered(s, b) && HasSlot(s) && !Marked(server, b)
    ensures Stage(run, s', before, capacity, server, b, magnets, batch.(phase := Dropping), live)
  {
    hide Reaches, LockInv, HasSlot, Gathered, Marked, Named, Is, Through;
    s' := BatchGoes(steps, s, before, capacity, server, b, magnets, batch, live, BeginMarkerCleanup(b), server, batch.(phase := Querying));
    run := steps + [BeginMarkerCleanup(b)];
    s' := BatchGoes(run, s', before, capacity, server, b, magnets, batch.(phase := Querying), live, MarkerQuery(b, false), server,
                    batch.(phase := Dropping));
    run := run + [MarkerQuery(b, false)];
  }

  lemma MarkerGoes(steps: seq<Step>, s: State, before: Server, capacity: Capacity, server: Server, b: BatchId,
                   magnets: Magnets, batch: Batch, live: map<Hash, TaskState>) returns (s': State)
    requires Stage(steps, s, before, capacity, server, b, magnets, batch, live) && batch.phase.Dropping?
    ensures Stage(steps + [MarkerDrop(b, Applied, true)], s', before, capacity, WithoutMarker(server, b), b, magnets,
                  batch.(phase := Ended, failed := false, dropPending := false), live)
  {
    hide Reaches, LockInv, WithoutMarker;
    s' := BatchGoes(steps, s, before, capacity, server, b, magnets, batch, live, MarkerDrop(b, Applied, true), WithoutMarker(server, b),
                    batch.(phase := Ended, failed := false, dropPending := false));
  }

  lemma NoMarkers(server: Server, b: BatchId)
    requires Unmarked(server)
    ensures !Marked(server, b) && WithoutMarker(server, b) == server
  {
    assert WithoutMarker(server, b).Keys == server.Keys;
    assert forall h | h in server :: WithoutMarker(server, b)[h] == server[h] - {b} && server[h] == {};
    assert forall h | h in server :: WithoutMarker(server, b)[h] == server[h];
  }

  lemma TagIsLost(server: Server, b: BatchId, h: Hash)
    requires Unmarked(server) && h !in server
    ensures WithoutMarker(server[h := {b}], b) == server[h := {}]
  {
    var stripped := WithoutMarker(server[h := {b}], b);
    assert stripped.Keys == server[h := {}].Keys;
    assert forall k | k in server :: stripped[k] == server[k] - {b} && server[k] == {};
    assert stripped[h] == {b} - {b};
    assert forall k | k in stripped :: stripped[k] == server[h := {}][k];
  }

  /** At the end of a stage at which all that is watched is through. */
  lemma StageEnds(steps: seq<Step>, s: State, before: Server, capacity: Capacity, server: Server, b: BatchId,
                  magnets: Magnets, batch: Batch, live: map<Hash, TaskState>)
    requires Stage(steps, s, before, capacity, server, b, magnets, batch, live)
    requires batch.phase.Ended? && !batch.failed
    requires forall h | h in live :: live[h].place.Finished? && !live[h].failed
    ensures Possible(Initial(capacity, before), steps) && OnlyBatch(steps, b, magnets)
    ensures AllThrough(After(Initial(capacity, before), steps)) && After(Initial(capacity, before), steps).server == server
    ensures (forall h | h in live :: !live[h].late) ==> NothingLate(After(Initial(capacity, before), steps))
  {
    hide LockInv, Possible, After, OnlyBatch;
    assert forall t | t in s.tasks :: t == Task(b, t.hash);
  }

  // --------------------------------------------------------------- a cancelled batch

  /** What a cancelled gather does to one of its tasks. */
  function CancelledOne(ts: TaskState): TaskState {
    if ts.place.Finished? then ts else ts.(place := CancelledTo(ts.place), cancelled := true)
  }

  lemma IsCancelled(ts: TaskState, wanted: TaskState)
    ensures Is(ts, wanted) ==> Is(CancelledOne(ts), CancelledOne(wanted))
    ensures Through(ts) ==> CancelledOne(ts) == ts
  {
  }

  lemma BatchIsCancelled(steps: seq<Step>, s: State, before: Server, capacity: Capacity, server: Server, b: BatchId, magnets: Magnets,
                         batch: Batch, live: map<Hash, TaskState>) returns (s': State)
    requires Stage(steps, s, before, capacity, server, b, magnets, batch, live) && batch.phase.Running?
    ensures Stage(steps + [CancelBatch(b)], s', before, capacity, server, b, magnets, batch.(cancelled := true), AllCancelled(live))
  {
    s' := Next(s, CancelBatch(b));
    hide Next, Reaches, LockInv, AllCancelled;
    CancelledScene(s, capacity, server, b, magnets, batch, live);
    assert Enabled(s, CancelBatch(b));
    hide Scene, Enabled;
    Continue(Initial(capacity, before), steps, s, CancelBatch(b));
    StepKeepsLocks(s, CancelBatch(b));
  }

  function AllCancelled(live: map<Hash, TaskState>): map<Hash, TaskState> {
    map h | h in live :: CancelledOne(live[h])
  }

  lemma CancelledScene(s: State, capacity: Capacity, server: Server, b: BatchId, magnets: Magnets, batch: Batch, live: map<Hash, TaskState>)
    requires Scene(s, capacity, server, b, magnets, batch, live) && batch.phase.Running?
    ensures InPhase(s, b, Running)
    ensures Scene(Next(s, CancelBatch(b)), capacity, server, b, magnets, batch.(cancelled := true), AllCancelled(live))
  {
    hide Next, Is, Through, CancelledOne, Named;
    CancelOnly(s, b);
    var s' := Next(s, CancelBatch(b));
    forall h | h in Named(magnets) ensures
      if h in live then Is(s'.tasks[Task(b, h)], CancelledOne(live[h])) else Through(s'.tasks[Task(b, h)])
    {
      IsCancelled(s.tasks[Task(b, h)], if h in live then live[h] else Fresh());
    }
  }

  lemma CancelOnly(s: State, b: BatchId)
    requires InPhase(s, b, Running)
    ensures
      var s' := Next(s, CancelBatch(b));
      && s'.capacity == s.capacity && s'.server == s.server && s'.batches == s.batches[b := s.batches[b].(cancelled := true)]
      && s'.tasks.Keys == s.tasks.Keys
      && forall t | t in s.tasks && t.batch == b :: s'.tasks[t] == CancelledOne(s.tasks[t])
  {
  }

  function Sending(): TaskState {
    Fresh().(place := Adding, attempted := true)
  }

  function Out(): TaskState {
    Fresh().(place := Leaving, cancelled := true)
  }

  /** All but `left` are through, and one of those is inside. */
  lemma FirstEnters(server: Server, capacity: Capacity, b: BatchId, magnets: Magnets, left: set<Hash>, h: Hash) returns (run: seq<Step>, s: State)
    requires |magnets| <= MAX_MAGNETS && left <= Named(magnets) && h in left
    ensures Stage(run, s, server, capacity, server, b, magnets, Opened(), AllFresh(left)[h := Fresh().(place := Checking)])
  {
    hide Stage, HasSlot;
    assert h in Named(magnets);
    run, s := Prepared(server, capacity, b, magnets, left);
    StageHasSlot(run, s, server, capacity, server, b, magnets, Opened(), AllFresh(left), h);
    run, s := GetsIn(run, s, server, capacity, server, b, magnets, Opened(), AllFresh(left), h);
  }

  lemma TwoFresh(g: Hash, h: Hash, to: TaskState)
    requires g != h
    ensures AllFresh({g, h})[g := to] == map[g := to, h := Fresh()]
  {
  }

  lemma OneFresh(h: Hash, to: TaskState)
    ensures AllFresh({h})[h := to] == map[h := to]
  {
  }

  /** Two tasks are inside at once: one still checks, the other sends its add. */
  lemma BothEnter(server: Server, capacity: Capacity, b: BatchId, magnets: Magnets, g: Hash, h: Hash) returns (run: seq<Step>, s: State)
    requires capacity >= 2 && |magnets| <= MAX_MAGNETS && g in Named(magnets) && h in Named(magnets) && g != h && h !in server
    ensures Stage(run, s, server, capacity, server, b, magnets, Opened().(markerUsed := true),
                  map[g := Fresh().(place := Checking), h := Sending()])
  {
    hide Stage, HasSlot, AllFresh;
    var inside := Fresh().(place := Checking);
    var l1 := map[g := inside, h := Fresh()];
    run, s := FirstEnters(server, capacity, b, magnets, {g, h}, g);
    TwoFresh(g, h, inside);
    StageHasSlot(run, s, server, capacity, server, b, magnets, Opened(), l1, g);
    run, s := GetsIn(run, s, server, capacity, server, b, magnets, Opened(), l1, h);
    var l2 := map[g := Fresh().(place := Checking), h := Fresh().(place := Checking)];
    assert l1[h := Fresh().(place := Checking)] == l2;
    s := CheckMisses(run, s, server, capacity, server, b, magnets, Opened(), l2, h);
    run := run + [Check(Task(b, h), false)];
    assert l2[h := l2[h].(place := Adding, attempted := true)] == map[g := Fresh().(place := Checking), h := Sending()];
  }

  /** The batch is cancelled; the checking task leaves, which ends the gather; the other's add is
      shielded. */
  lemma FirstLeaves(server: Server, capacity: Capacity, b: BatchId, magnets: Magnets, g: Hash, h: Hash) returns (run: seq<Step>, s: State)
    requires capacity >= 2 && |magnets| <= MAX_MAGNETS && g in Named(magnets) && h in Named(magnets) && g != h && h !in server
    ensures Stage(run, s, server, capacity, server, b, magnets, Opened().(markerUsed := true, cancelled := true),
                  map[g := Out().(place := Finished), h := Sending().(cancelled := true)])
  {
    hide Stage;
    run, s := BothEnter(server, capacity, b, magnets, g, h);
    var l2 := map[g := Fresh().(place := Checking), h := Sending()];
    s := BatchIsCancelled(run, s, server, capacity, server, b, magnets, Opened().(markerUsed := true), l2);
    var l3 := map[g := Out(), h := Sending().(cancelled := true)];
    assert AllCancelled(l2) == l3;
    run, s := GetsOut(run + [CancelBatch(b)], s, server, capacity, server, b, magnets, Opened().(markerUsed := true, cancelled := true), l3, g);
    assert l3[g := l3[g].(place := Finished)] == map[g := Out().(place := Finished), h := Sending().(cancelled := true)];
  }

  lemma GatherIsOver(s: State, capacity: Capacity, server: Server, b: BatchId, magnets: Magnets, batch: Batch, live: map<Hash, TaskState>, g: Hash)
    requires Scene(s, capacity, server, b, magnets, batch, live) && batch.cancelled && g in live && live[g].place.Finished? && live[g].cancelled
    ensures Gathered(s, b)
  {
    assert s.tasks[Task(b, g)].place.Finished? && s.tasks[Task(b, g)].cancelled;
  }

  /** The marker is about to go while the add is under way. */
  lemma MarkerTooEarly(server: Server, capacity: Capacity, b: BatchId, magnets: Magnets, g: Hash, h: Hash) returns (run: seq<Step>, s: State)
    requires capacity >= 2 && |magnets| <= MAX_MAGNETS && g in Named(magnets) && h in Named(magnets) && g != h && h !in server && Unmarked(server)
    ensures Stage(run, s, server, capacity, server, b, magnets, Opened().(markerUsed := true, cancelled := true, phase := Dropping),
                  map[g := Out().(place := Finished), h := Sending().(cancelled := true)])
  {
    run, s := FirstLeaves(server, capacity, b, magnets, g, h);
    var batch := Opened().(markerUsed := true, cancelled := true);
    var live := map[g := Out().(place := Finished), h := Sending().(cancelled := true)];
    NoMarkers(server, b);
    hide Unmarked, Gathered, HasSlot, Marked, Reaches, LockInv, Named;
    GatherIsOver(s, capacity, server, b, magnets, batch, live, g);
    SlotIsFree(s, capacity, server, b, magnets, batch, live, h);
    hide Stage;
    run, s := MarkerLooksUnused(run, s, server, capacity, server, b, magnets, batch, live);
  }

  lemma Adds(steps: seq<Step>, s: State, before: Server, capacity: Capacity, server: Server, b: BatchId, magnets: Magnets,
             batch: Batch, live: map<Hash, TaskState>, h: Hash, effect: Effect) returns (s': State)
    requires Stage(steps, s, before, capacity, server, b, magnets, batch, live) && h in live && live[h].place.Adding?
    ensures Stage(steps + [Add(Task(b, h), effect)], s', before, capacity,
                  if effect.Applied? then WithTorrent(server, Task(b, h)) else server, b, magnets, batch,
                  live[h := live[h].(place := if live[h].cancelled then Cleaning else Polling, addPending := effect.Pending?)])
  {
    hide Reaches, LockInv, WithTorrent;
    s' := TaskGoes(steps, s, before, capacity, server, b, magnets, batch, live, Add(Task(b, h), effect), h,
                   live[h].(place := if live[h].cancelled then Cleaning else Polling, addPending := effect.Pending?),
                   if effect.Applied? then WithTorrent(server, Task(b, h)) else server, batch);
  }

  /** The add arrives, the marker goes, and the cleanup finds nothing of its own. */
  lemma TorrentIsLost(server: Server, capacity: Capacity, b: BatchId, magnets: Magnets, g: Hash, h: Hash) returns (run: seq<Step>, s: State)
    requires capacity >= 2 && |magnets| <= MAX_MAGNETS && g in Named(magnets) && h in Named(magnets) && g != h && h !in server && Unmarked(server)
    ensures Stage(run, s, server, capacity, server[h := {}], b, magnets,
                  Opened().(markerUsed := true, cancelled := true, phase := Ended),
                  map[g := Out().(place := Finished), h := Sending().(cancelled := true, place := Finished, cleaned := true)])
  {
    hide Stage;
    run, s := MarkerTooEarly(server, capacity, b, magnets, g, h);
    var dropping, ended := Opened().(markerUsed := true, cancelled := true, phase := Dropping), Opened().(markerUsed := true, cancelled := true, phase := Ended);
    var gone := Out().(place := Finished);
    var l0 := map[g := gone, h := Sending().(cancelled := true)];
    s := Adds(run, s, server, capacity, server, b, magnets, dropping, l0, h, Applied);
    run := run + [Add(Task(b, h), Applied)];
    var l1 := map[g := gone, h := Sending().(cancelled := true, place := Cleaning)];
    assert l0[h := l0[h].(place := Cleaning, addPending := false)] == l1;
    assert WithTorrent(server, Task(b, h)) == server[h := {b}];
    TagIsLost(server, b, h);
    hide WithTorrent, WithoutMarker, Unmarked;
    s := MarkerGoes(run, s, server, capacity, server[h := {b}], b, magnets, dropping, l1);
    run := run + [MarkerDrop(b, Applied, true)];
    var to := l1[h].(place := Leaving, cleaned := true);
    s := Asks(run, s, server, capacity, server[h := {}], b, magnets, ended, l1, h, CleanQuery(Task(b, h), false), to);
    Overwritten(l1, h, to, to.(place := Finished));
    run, s := GetsOut(run + [CleanQuery(Task(b, h), false)], s, server, capacity, server[h := {}], b, magnets, ended, l1[h := to], h);
    assert l1[h := to.(place := Finished)] == map[g := gone, h := Sending().(cancelled := true, place := Finished, cleaned := true)];
  }

  /**
    For every concurrency of two or more, every server, and every accepted batch that names two
    or more infohashes of which the server lacks one, there is a run of that batch alone, cancelled once,
    at whose end everything is through, no cleanup failed, no add came late, and that torrent
    stays behind.
   */
  lemma CancelledBatchMayLeak(capacity: Capacity, server: Server, b: BatchId, magnets: Magnets, h: Hash) returns (steps: seq<Step>)
    requires capacity >= 2 && |magnets| <= MAX_MAGNETS && |Named(magnets)| >= 2 && h in Named(magnets) && h !in server && Unmarked(server)
    ensures Possible(Initial(capacity, server), steps) && OnlyBatch(steps, b, magnets)
    ensures
      var s := After(Initial(capacity, server), steps);
      AllThrough(s) && NothingLate(s) && s.server == server[h := {}]
  {
    var g := Another(Named(magnets), h);
    var s: State;
    steps, s := TorrentIsLost(server, capacity, b, magnets, g, h);
    hide Stage, AllThrough, NothingLate, Unmarked, Possible, After;
    StageEnds(steps, s, server, capacity, server[h := {}], b, magnets, Opened().(markerUsed := true, cancelled := true, phase := Ended),
              map[g := Out().(place := Finished), h := Sending().(cancelled := true, place := Finished, cleaned := true)]);
  }

  lemma Another(hashes: set<Hash>, h: Hash) returns (g: Hash)
    requires |hashes| >= 2 && h in hashes
    ensures g in hashes && g != h
  {
    assert |hashes - {h}| >= 1;
    g :| g in hashes - {h};
  }

  // ------------------------------------------------------------------- a late add

  /** The add fails, its cleanup finds nothing, and the batch ends. */
  lemma AddIsGivenUp(server: Server, capacity: Capacity, b: BatchId, magnets: Magnets, h: Hash) returns (run: seq<Step>, s: State)
    requires |magnets| <= MAX_MAGNETS && h in Named(magnets) && h !in server
    ensures Stage(run, s, server, capacity, server, b, magnets, Opened().(markerUsed := true),
                  map[h := Sending().(place := Finished, cleaned := true, addPending := true)])
  {
    hide Stage, AllFresh;
    var l1 := map[h := Fresh().(place := Checking)];
    run, s := FirstEnters(server, capacity, b, magnets, {h}, h);
    OneFresh(h, Fresh().(place := Checking));
    s := CheckMisses(run, s, server, capacity, server, b, magnets, Opened(), l1, h);
    var l2 := map[h := Sending()];
    assert l1[h := l1[h].(place := Adding, attempted := true)] == l2;
    run, s := CleansUp(run + [Check(Task(b, h), false)], s, server, capacity, b, magnets, h);
  }

  lemma CleansUp(steps: seq<Step>, s: State, server: Server, capacity: Capacity, b: BatchId, magnets: Magnets, h: Hash)
      returns (run: seq<Step>, s': State)
    requires Stage(steps, s, server, capacity, server, b, magnets, Opened().(markerUsed := true), map[h := Sending()]) && h !in server
    ensures Stage(run, s', server, capacity, server, b, magnets, Opened().(markerUsed := true),
                  map[h := Sending().(place := Finished, cleaned := true, addPending := true)])
  {
    hide Stage;
    var batch := Opened().(markerUsed := true);
    s' := Adds(steps, s, server, capacity, server, b, magnets, batch, map[h := Sending()], h, Pending);
    run := steps + [Add(Task(b, h), Pending)];
    var given := Sending().(place := Polling, addPending := true);
    assert map[h := Sending()][h := given] == map[h := given];
    s' := Asks(run, s', server, capacity, server, b, magnets, batch, map[h := given], h, StopPolling(Task(b, h)), given.(place := Cleaning));
    run := run + [StopPolling(Task(b, h))];
    assert map[h := given][h := given.(place := Cleaning)] == map[h := given.(place := Cleaning)];
    var out := given.(place := Leaving, cleaned := true);
    s' := Asks(run, s', server, capacity, server, b, magnets, batch, map[h := given.(place := Cleaning)], h, CleanQuery(Task(b, h), false), out);
    run := run + [CleanQuery(Task(b, h), false)];
    assert map[h := given.(place := Cleaning)][h := out] == map[h := out];
    run, s' := GetsOut(run, s', server, capacity, server, b, magnets, batch, map[h := out], h);
    assert map[h := out][h := out.(place := Finished)] == map[h := out.(place := Finished)];
  }

  lemma AllAreFinished(s: State, capacity: Capacity, server: Server, b: BatchId, magnets: Magnets, batch: Batch, live: map<Hash, TaskState>)
    requires Scene(s, capacity, server, b, magnets, batch, live) && forall h | h in live :: live[h].place.Finished?
    ensures Gathered(s, b)
  {
    assert forall t | t in s.tasks :: t == Task(b, t.hash);
  }

  /** The batch ends; then the add arrives. */
  lemma ArrivesLate(server: Server, capacity: Capacity, b: BatchId, magnets: Magnets, h: Hash) returns (run: seq<Step>, s: State)
    requires |magnets| <= MAX_MAGNETS && h in Named(magnets) && h !in server && Unmarked(server)
    ensures Stage(run, s, server, capacity, server[h := {b}], b, magnets, Opened().(markerUsed := true, phase := Ended),
                  map[h := Sending().(place := Finished, cleaned := true, late := true)])
  {
    run, s := AddIsGivenUp(server, capacity, b, magnets, h);
    var batch, live := Opened().(markerUsed := true), map[h := Sending().(place := Finished, cleaned := true, addPending := true)];
    NoMarkers(server, b);
    hide Unmarked, Gathered, HasSlot, Marked, Reaches, LockInv, WithoutMarker;
    AllAreFinished(s, capacity, server, b, magnets, batch, live);
    SlotIsFree(s, capacity, server, b, magnets, batch, live, h);
    hide Stage;
    run, s := MarkerLooksUnused(run, s, server, capacity, server, b, magnets, batch, live);
    s := MarkerGoes(run, s, server, capacity, server, b, magnets, batch.(phase := Dropping), live);
    run := run + [MarkerDrop(b, Applied, true)];
    s := Arrives(run, s, server, capacity, b, magnets, batch.(phase := Ended), h);
    run := run + [LateAdd(Task(b, h))];
  }

  lemma Arrives(steps: seq<Step>, s: State, server: Server, capacity: Capacity, b: BatchId, magnets: Magnets, batch: Batch, h: Hash) returns (s': State)
    requires Stage(steps, s, server, capacity, server, b, magnets, batch, map[h := Sending().(place := Finished, cleaned := true, addPending := true)])
    requires h !in server
    ensures Stage(steps + [LateAdd(Task(b, h))], s', server, capacity, server[h := {b}], b, magnets, batch,
                  map[h := Sending().(place := Finished, cleaned := true, late := true)])
  {
    hide Reaches, LockInv;
    var live, to := map[h := Sending().(place := Finished, cleaned := true, addPending := true)], Sending().(place := Finished, cleaned := true, late := true);
    assert live[h := to] == map[h := to];
    s' := TaskGoes(steps, s, server, capacity, server, b, magnets, batch, live, LateAdd(Task(b, h)), h, to, server[h := {b}], batch);
  }

  /**
    For every concurrency, every server and every accepted batch that names an infohash the server
    lacks there is a run of that batch alone, not cancelled, at whose end everything is through, no
    cleanup failed, and that torrent stays behind, because its add arrived last.
   */
  lemma LateAddStays(capacity: Capacity, server: Server, b: BatchId, magnets: Magnets, h: Hash) returns (steps: seq<Step>)
    requires |magnets| <= MAX_MAGNETS && h in Named(magnets) && h !in server && Unmarked(server)
    ensures Possible(Initial(capacity, server), steps) && OnlyBatch(steps, b, magnets)
    ensures
      var s := After(Initial(capacity, server), steps);
      AllThrough(s) && s.server == server[h := {b}]
  {
    var s: State;
    steps, s := ArrivesLate(server, capacity, b, magnets, h);
    hide Stage, AllThrough, NothingLate, Unmarked, Possible, After;
    StageEnds(steps, s, server, capacity, server[h := {b}], b, magnets, Opened().(markerUsed := true, phase := Ended),
              map[h := Sending().(place := Finished, cleaned := true, late := true)]);
  }
}
