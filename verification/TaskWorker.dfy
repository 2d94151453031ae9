/**
  The leased task worker.  Each method is what happens between two awaits, so any sequence of
  calls is a run: tasks are queued again, claimed, submitted and finished, the worker crashes,
  leases are recovered.  A task is never submitted more often than it was queued.
 */
module TaskWorker {
  import opened Wrappers

  type Id = string
  type Time = int

  datatype TaskState = Queued | Submitting | Accepted | NeedsAuth | Uncertain | Failed

  /** What the remote can say of a task. */
  type Settled = state | state in {Accepted, NeedsAuth, Uncertain, Failed} witness Failed

  /** One row of the task table.  Only offline downloads can be pushed. */
  datatype Row = Row(offline: bool, state: TaskState, attempts: nat, createdAt: Time, remoteRef: Option<string>,
                     leaseOwner: Option<string>, leaseExpires: Option<Time>)
  {
    function Ended(result: Settled, ref: Option<string>): Row {
      this.(state := result, remoteRef := ref, leaseOwner := None, leaseExpires := None)
    }
  }

  /** What can stop an offline download before it is submitted. */
  datatype Preflight = BlockedByInventory | Undecryptable | Clear

  /** What an adapter returns when it does not raise. */
  datatype Submission = Submission(status: Settled, ref: Option<string>)

  /** The row an expired lease leaves: what the remote says of its reference, if there is one and
      the remote answers. */
  function Recovered(row: Row, status: Option<Settled>): Row {
    if !row.offline then row.Ended(Failed, None)
    else if row.remoteRef.Some? && row.remoteRef.value != "" && status.Some? then row.Ended(status.value, row.remoteRef)
    else row.Ended(Uncertain, row.remoteRef)
  }

  /** A run in progress, with the attempt that its claim is, and whether it has submitted. */
  datatype Run = Run(task: Id, attempt: nat, submitted: bool)

  /** What happened to one task so far; a submission is known by the attempt it belongs to. */
  datatype Record = Record(queued: nat, claims: nat, firstAttempts: nat, sent: set<nat>)

  predicate RecordOk(row: Row, r: Record) {
    && row.attempts == r.firstAttempts + r.claims
    && r.claims + (if row.state.Queued? then 1 else 0) <= r.queued
    && forall a | a in r.sent :: r.firstAttempts < a <= row.attempts
  }

  class Worker {
    const owner: string
    const leaseSeconds: nat
    var tasks: map<Id, Row>
    var current: Option<Run>
    ghost var records: map<Id, Record>

    ghost predicate Valid()
      reads this
    {
      && records.Keys == tasks.Keys
      && (forall id | id in tasks :: RecordOk(tasks[id], records[id]))
      && (current.Some? ==>
            && current.value.task in tasks
            && records[current.value.task].firstAttempts < current.value.attempt <= tasks[current.value.task].attempts
            && (!current.value.submitted ==> current.value.attempt !in records[current.value.task].sent))
    }

    constructor (owner: string, leaseSeconds: nat, tasks: map<Id, Row>)
      ensures Valid() && this.owner == owner && this.leaseSeconds == leaseSeconds && this.tasks == tasks && current.None?
      ensures forall id | id in tasks :: records[id] == Record(if tasks[id].state.Queued? then 1 else 0, 0, tasks[id].attempts, {})
    {
      this.owner, this.leaseSeconds, this.tasks, current := owner, leaseSeconds, tasks, None;
      records := map id | id in tasks :: Record(if tasks[id].state.Queued? then 1 else 0, 0, tasks[id].attempts, {});
    }

    /** A new task is queued when it is created. */
    method Create(id: Id, offline: bool, now: Time)
      requires Valid() && id !in tasks
      modifies this
      ensures Valid() && tasks == old(tasks)[id := Row(offline, Queued, 0, now, None, None, None)] && current == old(current)
      ensures records == old(records)[id := Record(1, 0, 0, {})]
    {
      tasks := tasks[id := Row(offline, Queued, 0, now, None, None, None)];
      records := records[id := Record(1, 0, 0, {})];
    }

    /** A manual retry queues a task whose last result was not acceptance, and no other. */
    method Retry(id: Id) returns (ok: bool)
      requires Valid() && id in tasks
      modifies this
      ensures Valid() && current == old(current)
      ensures ok <==> old(tasks)[id].state in {Failed, NeedsAuth, Uncertain}
      ensures !ok ==> tasks == old(tasks) && records == old(records)
      ensures ok ==>
        && tasks == old(tasks)[id := old(tasks)[id].(state := Queued, remoteRef := None, leaseOwner := None, leaseExpires := None)]
        && records == old(records)[id := old(records)[id].(queued := old(records)[id].queued + 1)]
    {
      if tasks[id].state !in {Failed, NeedsAuth, Uncertain} {
        return false;
      }
      tasks := tasks[id := tasks[id].(state := Queued, remoteRef := None, leaseOwner := None, leaseExpires := None)];
      records := records[id := records[id].(queued := records[id].queued + 1)];
      return true;
    }

    predicate Ready(id: Id, now: Time)
      reads `tasks
    {
      && id in tasks && tasks[id].state.Queued?
      && (tasks[id].leaseExpires.None? || tasks[id].leaseExpires.value < now)
    }

    /** Takes the oldest ready task, if there is one; a claim is one attempt and one lease. */
    method ClaimOne(now: Time) returns (claimed: Option<Id>)
      requires Valid() && current.None?
      modifies this
      ensures Valid()
      ensures claimed.None? ==> tasks == old(tasks) && current.None? && records == old(records)
      ensures claimed.None? <==> forall id :: !old(Ready(id, now))
      ensures claimed.Some? ==>
        var id := claimed.value;
        && old(Ready(id, now))
        && (forall other | old(Ready(other, now)) :: old(tasks)[id].createdAt <= old(tasks)[other].createdAt)
        && tasks.Keys == old(tasks).Keys
        && tasks == old(tasks)[id := old(tasks)[id].(state := Submitting, attempts := old(tasks)[id].attempts + 1,
                                                      leaseOwner := Some(owner), leaseExpires := Some(now + leaseSeconds))]
        && records == old(records)[id := old(records)[id].(claims := old(records)[id].claims + 1)]
        && current == Some(Run(id, tasks[id].attempts, false))
    {
      hide RecordOk;
      var ready := set id | id in tasks && Ready(id, now);
      if ready == {} {
        assert forall id :: Ready(id, now) ==> id in ready;
        return None;
      }
      OldestExists(tasks, ready);
      var id :| id in ready && forall other | other in ready :: tasks[id].createdAt <= tasks[other].createdAt;
      assert forall other :: Ready(other, now) ==> other in ready;
      Lease(id, now);
      return Some(id);
    }

    method Lease(id: Id, now: Time)
      requires Valid() && current.None? && Ready(id, now)
      modifies this
      ensures Valid() && tasks.Keys == old(tasks).Keys && current == Some(Run(id, tasks[id].attempts, false))
      ensures tasks == old(tasks)[id := old(tasks)[id].(state := Submitting, attempts := old(tasks)[id].attempts + 1,
                                                         leaseOwner := Some(owner), leaseExpires := Some(now + leaseSeconds))]
      ensures records == old(records)[id := old(records)[id].(claims := old(records)[id].claims + 1)]
    {
      tasks := tasks[id := tasks[id].(state := Submitting, attempts := tasks[id].attempts + 1,
                                       leaseOwner := Some(owner), leaseExpires := Some(now + leaseSeconds))];
      records := records[id := records[id].(claims := records[id].claims + 1)];
      current := Some(Run(id, tasks[id].attempts, false));
    }

    /** The one remote submission of a claim. */
    method Submit()
      requires Valid() && current.Some? && !current.value.submitted
      modifies this
      ensures Valid() && tasks == old(tasks) && current == Some(old(current).value.(submitted := true))
      ensures
        var run := old(current).value;
        && run.attempt !in old(records)[run.task].sent
        && records == old(records)[run.task := old(records)[run.task].(sent := old(records)[run.task].sent + {run.attempt})]
    {
      var run := current.value;
      records := records[run.task := records[run.task].(sent := records[run.task].sent + {run.attempt})];
      current := Some(run.(submitted := true));
    }

    /** Writes the result, whatever has become of the row meanwhile, and gives up the lease. */
    method Finish(result: Settled, ref: Option<string>)
      requires Valid() && current.Some?
      modifies this
      ensures Valid() && current.None? && records == old(records)
      ensures tasks == old(tasks)[old(current).value.task := old(tasks)[old(current).value.task].Ended(result, ref)]
    {
      var id := current.value.task;
      tasks := tasks[id := tasks[id].Ended(result, ref)];
      current := None;
    }

    /** A claim worked through undisturbed: nothing is submitted unless the task is an offline
        download and every check passes, and an adapter that raises leaves the outcome uncertain. */
    method WorkThrough(preflight: Preflight, answer: Option<Submission>)
      requires Valid() && current.Some? && !current.value.submitted
      modifies this
      ensures Valid() && current.None?
      ensures
        var run := old(current).value;
        var row, sent := old(tasks)[run.task], old(records)[run.task].sent;
        var submits := row.offline && preflight.Clear?;
        && records == old(records)[run.task := old(records)[run.task].(sent := if submits then sent + {run.attempt} else sent)]
        && tasks == old(tasks)[run.task :=
             if !submits then row.Ended(Failed, None)
             else if answer.None? then row.Ended(Uncertain, None)
             else row.Ended(answer.value.status, answer.value.ref)]
    {
      if !tasks[current.value.task].offline || !preflight.Clear? {
        Finish(Failed, None);
      } else {
        Submit();
        if answer.None? {
          Finish(Uncertain, None);
        } else {
          Finish(answer.value.status, answer.value.ref);
        }
      }
    }

    /** The process goes down: the row stays as the claim left it. */
    method Crash()
      requires Valid()
      modifies `current
      ensures Valid() && current.None?
    {
      current := None;
    }

    predicate Expired(id: Id, now: Time)
      reads `tasks
    {
      id in tasks && tasks[id].state.Submitting? && tasks[id].leaseExpires.Some? && tasks[id].leaseExpires.value < now
    }

    /** Every expired lease ends in what the remote says of its task, and nothing else changes. */
    method RecoverExpired(now: Time, status: Id -> Option<Settled>) returns (recovered: nat)
      requires Valid()
      modifies `tasks
      ensures Valid() && tasks.Keys == old(tasks).Keys
      ensures forall id | id in tasks ::
        tasks[id] == if old(Expired(id, now)) then Recovered(old(tasks)[id], status(id)) else old(tasks)[id]
      ensures forall id | id in tasks && tasks[id].state.Queued? :: tasks[id] == old(tasks)[id]
      ensures recovered == |set id | id in old(tasks) && old(Expired(id, now))|
    {
      var expired := set id | id in tasks && Expired(id, now);
      recovered := |expired|;
      tasks := map id | id in tasks :: if Expired(id, now) then Recovered(tasks[id], status(id)) else tasks[id];
    }
  }

  lemma {:induction false} OldestExists(tasks: map<Id, Row>, ready: set<Id>)
    requires ready != {} && ready <= tasks.Keys
    ensures exists id | id in ready :: forall other | other in ready :: tasks[id].createdAt <= tasks[other].createdAt
  {
    var id :| id in ready;
    if ready != {id} {
      OldestExists(tasks, ready - {id});
      var oldest :| oldest in ready - {id} && forall other | other in ready - {id} :: tasks[oldest].createdAt <= tasks[other].createdAt;
      var first := if tasks[id].createdAt <= tasks[oldest].createdAt then id else oldest;
      assert forall other | other in ready :: other == id || other in ready - {id};
      assert first in ready && forall other | other in ready :: tasks[first].createdAt <= tasks[other].createdAt;
    }
  }

  lemma {:induction false} NumbersBetween(s: set<nat>, first: nat, last: nat)
    requires first <= last && forall a | a in s :: first < a <= last
    ensures |s| <= last - first
    decreases last
  {
    if first == last {
      assert s == {};
    } else {
      NumbersBetween(s - {last}, first, last - 1);
      assert last in s ==> s == (s - {last}) + {last};
      assert last !in s ==> s == s - {last};
    }
  }

  /** However often workers crash and leases are recovered: no more submissions than claims, no
      more claims than times queued, one attempt a claim. */
  lemma NeverSubmittedTwice(worker: Worker, id: Id)
    requires worker.Valid() && id in worker.tasks
    ensures
      var r := worker.records[id];
      && |r.sent| <= r.claims <= r.queued
      && worker.tasks[id].attempts == r.firstAttempts + r.claims
  {
    NumbersBetween(worker.records[id].sent, worker.records[id].firstAttempts, worker.tasks[id].attempts);
  }
}
