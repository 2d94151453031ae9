/**
  The qBittorrent inspection client as a step system.  Tasks of many batches share a table of
  reference-counted locks, one per infohash, a semaphore that lets a fixed number of them and of
  marker cleanups work at a time, and one torrent server.  Between any two awaits another task
  may run, any request may fail, a request that failed may take effect later, and a batch may be
  cancelled at any moment.
 */
module QbittorrentModel {
  import opened Wrappers

  type Hash = string
  type BatchId = nat
  type LockId = nat

  /** The concurrency: the constructor refuses less than one. */
  type Capacity = c: nat | c >= 1 witness 1

  const MAX_MAGNETS: nat := 30

  /** The magnets of one call, each by its infohash, or None when it has none. */
  type Magnets = seq<Option<Hash>>

  /** The infohashes to inspect: an invalid magnet is skipped, and so is one that repeats another. */
  function Named(magnets: Magnets): set<Hash> {
    set m | m in magnets && m.Some? :: m.value
  }

  /** A batch inspects each infohash once, so batch and hash name the task.  The batch also
      stands for the marker its torrents are tagged with. */
  datatype Task = Task(batch: BatchId, hash: Hash)

  datatype Place =
    | Idle        // waiting for the semaphore
    | Waiting     // registered in the table, queued on the lock
    | Checking    // asking whether the torrent exists
    | Reading     // it exists: only reads from here
    | Adding      // the shielded add is under way
    | Polling     // waiting for metadata
    | Cleaning    // the shielded cleanup asks for torrents with the batch's tag
    | Deleting    // it saw ours and deletes it
    | Leaving     // done inside the guard
    | Releasing   // lock given back, the shielded release of the table entry is under way
    | Finished

  datatype TaskState = TaskState(
    place: Place,
    lock: LockId,
    attempted: bool,       // an add was sent
    cleaned: bool,         // a cleanup ran to its end
    failed: bool,          // ... and could not be confirmed: the result is "cleanup_failed"
    cancelled: bool,
    addPending: bool,      // the add failed, but may still take effect
    deletePending: bool,   // so may the delete
    late: bool)            // the add took effect when its cleanup had already looked

  datatype Lock = Lock(hash: Hash, users: nat, holder: Option<Task>)

  datatype Phase = Running | Querying | Dropping | Ended

  datatype Batch = Batch(phase: Phase, cancelled: bool, markerUsed: bool, failed: bool, dropPending: bool)

  /** What becomes of a request: it takes effect before it is answered, or never, or perhaps
      after its failure. */
  datatype Effect = Applied | Lost | Pending

  datatype State = State(
    capacity: Capacity,
    table: map<Hash, LockId>,
    locks: map<LockId, Lock>,
    nextLock: LockId,
    tasks: map<Task, TaskState>,
    batches: map<BatchId, Batch>,
    server: map<Hash, set<BatchId>>)   // torrents and the markers among their tags

  /** Markers are fresh random names: no torrent carries one beforehand. */
  function Initial(capacity: Capacity, server: map<Hash, set<BatchId>>): State {
    State(capacity, map[], map[], 0, map[], map[], server)
  }

  function Fresh(): TaskState {
    TaskState(Idle, 0, false, false, false, false, false, false, false)
  }

  function Opened(): Batch {
    Batch(Running, false, false, false, false)
  }

  predicate Registered(p: Place) {
    !p.Idle? && !p.Finished?
  }

  /** Inside the guard: the task holds the lock of its hash. */
  predicate Guarded(p: Place) {
    p.Checking? || p.Reading? || p.Adding? || p.Polling? || p.Cleaning? || p.Deleting? || p.Leaving?
  }

  datatype Step =
    | StartBatch(b: BatchId, magnets: Magnets)
    | Register(t: Task)
    | Acquire(t: Task)
    | Check(t: Task, fails: bool)
    | Read(t: Task)
    | Add(t: Task, effect: Effect)
    | LateAdd(t: Task)
    | StopPolling(t: Task)
    | CleanQuery(t: Task, fails: bool)
    | Delete(t: Task, effect: Effect, confirmed: bool)
    | LateDelete(t: Task)
    | Unlock(t: Task)
    | Release(t: Task)
    | CancelBatch(b: BatchId)
    | BeginMarkerCleanup(b: BatchId)
    | MarkerQuery(b: BatchId, fails: bool)
    | MarkerDrop(b: BatchId, effect: Effect, confirmed: bool)
    | LateDrop(b: BatchId)

  predicate At(s: State, t: Task, p: Place) {
    t in s.tasks && s.tasks[t].place == p
  }

  predicate InPhase(s: State, b: BatchId, phase: Phase) {
    b in s.batches && s.batches[b].phase == phase
  }

  predicate AllFinished(s: State, b: BatchId) {
    forall t | t in s.tasks && t.batch == b :: s.tasks[t].place.Finished?
  }

  /** A cancelled gather ends with its first cancelled child; any other gather with its last. */
  predicate Gathered(s: State, b: BatchId)
    requires b in s.batches
  {
    || AllFinished(s, b)
    || (s.batches[b].cancelled && exists t | t in s.tasks && t.batch == b :: s.tasks[t].place.Finished? && s.tasks[t].cancelled)
  }

  /** The tasks that hold a slot of the semaphore, and the batches whose marker cleanup does. */
  function Working(s: State): set<Task> {
    set t | t in s.tasks && Registered(s.tasks[t].place)
  }

  function Tidying(s: State): set<BatchId> {
    set b | b in s.batches && (s.batches[b].phase.Querying? || s.batches[b].phase.Dropping?)
  }

  predicate HasSlot(s: State) {
    |Working(s)| + |Tidying(s)| < s.capacity
  }

  predicate CanRegister(s: State, t: Task) {
    At(s, t, Idle) && HasSlot(s)
  }

  /** The gather is over, and if the marker was used there is a slot for its cleanup. */
  predicate CanTidy(s: State, b: BatchId) {
    InPhase(s, b, Running) && Gathered(s, b) && (s.batches[b].markerUsed ==> HasSlot(s))
  }

  predicate CanAcquire(s: State, t: Task) {
    At(s, t, Waiting) && s.tasks[t].lock in s.locks && s.locks[s.tasks[t].lock].holder.None?
  }

  predicate CanUnlock(s: State, t: Task) {
    At(s, t, Leaving) && s.tasks[t].lock in s.locks
  }

  predicate CanRelease(s: State, t: Task) {
    At(s, t, Releasing) && s.tasks[t].lock in s.locks && s.locks[s.tasks[t].lock].users > 0
  }

  predicate Enabled(s: State, step: Step) {
    match step
    case StartBatch(b, magnets) =>
      b !in s.batches && |magnets| <= MAX_MAGNETS && Named(magnets) != {} && forall t | t in s.tasks :: t.batch != b
    case Register(t) => CanRegister(s, t)
    case Acquire(t) => CanAcquire(s, t)
    case Check(t, _) => At(s, t, Checking) && t.batch in s.batches
    case Read(t) => At(s, t, Reading)
    case Add(t, _) => At(s, t, Adding)
    case LateAdd(t) => t in s.tasks && s.tasks[t].addPending
    case StopPolling(t) => At(s, t, Polling)
    case CleanQuery(t, _) => At(s, t, Cleaning)
    case Delete(t, effect, confirmed) => At(s, t, Deleting) && (confirmed ==> effect.Applied?)
    case LateDelete(t) => t in s.tasks && s.tasks[t].deletePending
    case Unlock(t) => CanUnlock(s, t)
    case Release(t) => CanRelease(s, t)
    case CancelBatch(b) => InPhase(s, b, Running)
    case BeginMarkerCleanup(b) => CanTidy(s, b)
    case MarkerQuery(b, _) => InPhase(s, b, Querying)
    case MarkerDrop(b, effect, confirmed) => InPhase(s, b, Dropping) && (confirmed ==> effect.Applied?)
    case LateDrop(b) => InPhase(s, b, Ended) && s.batches[b].dropPending
  }

  function Moved(s: State, t: Task, to: TaskState): State {
    s.(tasks := s.tasks[t := to])
  }

  /** Registering happens while the table's own lock is held and awaits nothing. */
  function Registering(s: State, t: Task): State
    requires At(s, t, Idle)
  {
    var known := t.hash in s.table && s.table[t.hash] in s.locks;
    var id := if known then s.table[t.hash] else s.nextLock;
    var lock := if known then s.locks[id] else Lock(t.hash, 0, None);
    s.(table := s.table[t.hash := id],
       locks := s.locks[id := lock.(users := lock.users + 1)],
       nextLock := if known then s.nextLock else s.nextLock + 1,
       tasks := s.tasks[t := s.tasks[t].(place := Waiting, lock := id)])
  }

  function Acquired(s: State, t: Task): State
    requires CanAcquire(s, t)
  {
    var id := s.tasks[t].lock;
    Moved(s, t, s.tasks[t].(place := Checking)).(locks := s.locks[id := s.locks[id].(holder := Some(t))])
  }

  function Unlocked(s: State, t: Task): State
    requires CanUnlock(s, t)
  {
    var id := s.tasks[t].lock;
    Moved(s, t, s.tasks[t].(place := Releasing)).(locks := s.locks[id := s.locks[id].(holder := None)])
  }

  /** The last user takes the entry out, if it is still the one in the table. */
  function Released(s: State, t: Task): State
    requires CanRelease(s, t)
  {
    var id := s.tasks[t].lock;
    var lock := s.locks[id];
    var last := lock.users == 1 && t.hash in s.table && s.table[t.hash] == id;
    s.(table := if last then s.table - {t.hash} else s.table,
       locks := s.locks[id := lock.(users := lock.users - 1)],
       tasks := s.tasks[t := s.tasks[t].(place := Finished)])
  }

  /** Where a cancellation takes effect.  Adding, cleaning and releasing are shielded: they only
      remember it. */
  function CancelledTo(p: Place): Place {
    match p
    case Idle => Finished
    case Waiting => Releasing
    case Checking => Leaving
    case Reading => Leaving
    case Polling => Cleaning
    case _ => p
  }

  /** The gather cancels every child that is not done. */
  function Cancelled(tasks: map<Task, TaskState>, b: BatchId): map<Task, TaskState> {
    map t | t in tasks ::
      if t.batch == b && !tasks[t].place.Finished?
      then tasks[t].(place := CancelledTo(tasks[t].place), cancelled := true)
      else tasks[t]
  }

  /** deleteTags takes the marker off every torrent. */
  function WithoutMarker(server: map<Hash, set<BatchId>>, b: BatchId): map<Hash, set<BatchId>> {
    map h | h in server :: server[h] - {b}
  }

  function Checked(s: State, t: Task, fails: bool): State
    requires t in s.tasks && t.batch in s.batches
  {
    if fails then Moved(s, t, s.tasks[t].(place := Leaving))
    else if t.hash in s.server then Moved(s, t, s.tasks[t].(place := Reading))
    else Moved(s, t, s.tasks[t].(place := Adding, attempted := true))
           .(batches := s.batches[t.batch := s.batches[t.batch].(markerUsed := true)])
  }

  /** An add of a torrent that is there already changes nothing. */
  function WithTorrent(server: map<Hash, set<BatchId>>, t: Task): map<Hash, set<BatchId>> {
    if t.hash in server then server else server[t.hash := {t.batch}]
  }

  /** The answer of an add, good or bad, only decides how long the task polls. */
  function Added(s: State, t: Task, effect: Effect): State
    requires t in s.tasks
  {
    Moved(s, t, s.tasks[t].(place := if s.tasks[t].cancelled then Cleaning else Polling, addPending := effect.Pending?))
      .(server := if effect.Applied? then WithTorrent(s.server, t) else s.server)
  }

  /** An add that arrives after its failure; it is late when its cleanup has looked already. */
  function AddedLate(s: State, t: Task): State
    requires t in s.tasks
  {
    var missed := t.hash !in s.server && !s.tasks[t].place.Polling? && !s.tasks[t].place.Cleaning?;
    Moved(s, t, s.tasks[t].(addPending := false, late := s.tasks[t].late || missed)).(server := WithTorrent(s.server, t))
  }

  function CleanupAsked(s: State, t: Task, fails: bool): State
    requires t in s.tasks
  {
    if fails then Moved(s, t, s.tasks[t].(place := Leaving, cleaned := true, failed := true))
    else if t.hash in s.server && t.batch in s.server[t.hash] then Moved(s, t, s.tasks[t].(place := Deleting))
    else Moved(s, t, s.tasks[t].(place := Leaving, cleaned := true))
  }

  function Deleted(s: State, t: Task, effect: Effect, confirmed: bool): State
    requires t in s.tasks
  {
    Moved(s, t, s.tasks[t].(place := Leaving, cleaned := true, failed := s.tasks[t].failed || !confirmed,
                            deletePending := effect.Pending?))
      .(server := if effect.Applied? then s.server - {t.hash} else s.server)
  }

  function DeletedLate(s: State, t: Task): State
    requires t in s.tasks
  {
    Moved(s, t, s.tasks[t].(deletePending := false)).(server := s.server - {t.hash})
  }

  function WithBatch(s: State, b: BatchId, batch: Batch): State {
    s.(batches := s.batches[b := batch])
  }

  predicate Marked(server: map<Hash, set<BatchId>>, b: BatchId) {
    exists h | h in server :: b in server[h]
  }

  /** The marker's tag is removed only if no torrent carries it. */
  function MarkerAsked(s: State, b: BatchId, fails: bool): State
    requires b in s.batches
  {
    if fails || Marked(s.server, b)
    then WithBatch(s, b, s.batches[b].(phase := Ended, failed := true))
    else WithBatch(s, b, s.batches[b].(phase := Dropping))
  }

  function MarkerDropped(s: State, b: BatchId, effect: Effect, confirmed: bool): State
    requires b in s.batches
  {
    WithBatch(s, b, s.batches[b].(phase := Ended, failed := !confirmed, dropPending := effect.Pending?))
      .(server := if effect.Applied? then WithoutMarker(s.server, b) else s.server)
  }

  function Next(s: State, step: Step): State
    requires Enabled(s, step)
  {
    match step
    case StartBatch(b, magnets) =>
      s.(batches := s.batches[b := Opened()], tasks := s.tasks + map h | h in Named(magnets) :: Task(b, h) := Fresh())
    case Register(t) => Registering(s, t)
    case Acquire(t) => Acquired(s, t)
    case Check(t, fails) => Checked(s, t, fails)
    case Read(t) => Moved(s, t, s.tasks[t].(place := Leaving))
    case Add(t, effect) => Added(s, t, effect)
    case LateAdd(t) => AddedLate(s, t)
    case StopPolling(t) => Moved(s, t, s.tasks[t].(place := Cleaning))
    case CleanQuery(t, fails) => CleanupAsked(s, t, fails)
    case Delete(t, effect, confirmed) => Deleted(s, t, effect, confirmed)
    case LateDelete(t) => DeletedLate(s, t)
    case Unlock(t) => Unlocked(s, t)
    case Release(t) => Released(s, t)
    case CancelBatch(b) =>
      s.(batches := s.batches[b := s.batches[b].(cancelled := true)], tasks := Cancelled(s.tasks, b))
    case BeginMarkerCleanup(b) =>
      WithBatch(s, b, s.batches[b].(phase := if s.batches[b].markerUsed then Querying else Ended))
    case MarkerQuery(b, fails) => MarkerAsked(s, b, fails)
    case MarkerDrop(b, effect, confirmed) => MarkerDropped(s, b, effect, confirmed)
    case LateDrop(b) =>
      WithBatch(s, b, s.batches[b].(dropPending := false)).(server := WithoutMarker(s.server, b))
  }

  /** A run: every step was enabled where it was taken. */
  ghost predicate Possible(s: State, steps: seq<Step>)
    decreases |steps|
  {
    steps == [] || (Enabled(s, steps[0]) && Possible(Next(s, steps[0]), steps[1..]))
  }

  function After(s: State, steps: seq<Step>): State
    requires Possible(s, steps)
    decreases |steps|
  {
    if steps == [] then s else After(Next(s, steps[0]), steps[1..])
  }
}
