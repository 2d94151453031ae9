/**
  The C03 fixture probe itself: counters, steps and manifest are fields updated in place, and
  every await is a question to the environment.  Its contracts say when each call succeeds and
  what the history looks like afterwards.
 */
module C03Probe {
  import opened Wrappers
  import opened C03Model

  /** The stable error codes; a code met during cleanup is reported with a prefix. */
  datatype ErrorCode =
    | InvalidParentId | WriteDisabled | ApprovalRequired | CleanupPlanRequired | LiveDisabled
    | InvalidCallBudget | InvalidTimeout
    | WriteCallLimitReached | ListCallLimitReached | ReadCallLimitReached | TotalCallLimitReached
    | DeadlineExceeded | WriteTimeout | RemoteWriteFailed | WriteResultUnconfirmed
    | ListTimeout | ListFailed | ListResultUnconfirmed | ListIncomplete
    | ReadResultUnconfirmed | PostconditionNotSatisfied
    | RootCreationUnconfirmed | MkdirUnconfirmed | RenameUnconfirmed | MoveUnconfirmed
    | CleanupScopeUnconfirmed | CleanupUnconfirmed | CleanupNotConfirmed
    | RunCancelled
    | DuringCleanup(cause: ErrorCode)

  /** What a step of the run ends in: a value, a halt with its code, or cancellation. */
  datatype Outcome<+T> = Done(value: T) | Halted(code: ErrorCode) | Cancelled
  {
    predicate IsFailure() {
      !Done?
    }

    function PropagateFailure<U>(): Outcome<U>
      requires IsFailure()
    {
      if Halted? then Halted(code) else Cancelled
    }

    function Extract(): T
      requires Done?
    {
      value
    }
  }

  datatype StepStatus = Satisfied | NotSatisfied | Unconfirmed

  datatype StepReport = StepReport(operation: Operation, status: StepStatus)

  datatype ProbeStatus = Blocked | Success | UncertainRun

  datatype Cleanup = NotStarted | NotAttempted | NotAttemptedUncertain | UncertainCleanup | Complete

  datatype Report = Report(
    status: ProbeStatus,
    steps: seq<StepReport>,
    writeCalls: nat,
    readCalls: nat,
    listCalls: nat,
    pageCalls: nat,
    cleanup: Cleanup,
    errorCode: Option<ErrorCode>)

  /** The environment switches a caller sets before a run. */
  datatype Gates = Gates(writeEnabled: bool, managedFixture: bool, cleanupPlan: bool, live: bool, liveEnabled: bool)

  const MAX_RUN_TIMEOUT_SECONDS: real := 600.0

  function GateError(gates: Gates, budget: Budget): Option<ErrorCode> {
    if !gates.writeEnabled then Some(WriteDisabled)
    else if !gates.managedFixture then Some(ApprovalRequired)
    else if !gates.cleanupPlan then Some(CleanupPlanRequired)
    else if gates.live && !gates.liveEnabled then Some(LiveDisabled)
    else if !budget.Valid() then Some(InvalidCallBudget)
    else None
  }

  /** The request may be tried at all: acceptable parent, open gates, a timeout in range. */
  predicate Admitted(parentId: RawId, gates: Gates, budget: Budget, timeoutSeconds: Option<real>) {
    && NormalizeId(parentId).Some?
    && GateError(gates, budget).None?
    && timeoutSeconds.Some?
    && 0.0 < timeoutSeconds.value <= MAX_RUN_TIMEOUT_SECONDS
  }

  /** In a readable listing every element is good and new. */
  lemma ElementIsGood(raw: seq<RawEntry>, parent: Id, entries: seq<Entry>, i: nat, before: seq<Entry>)
    requires Reads(raw, parent, entries) && i < |raw|
    requires Reads(raw[..i], parent, before)
    ensures NormalizeEntry(raw[i]).Some?
    ensures NormalizeEntry(raw[i]).value.parentId == parent
    ensures NormalizeEntry(raw[i]).value !in before
  {
    assert NormalizeEntry(raw[i]) == Some(entries[i]);
    forall j | 0 <= j < i ensures before[j] == entries[j] {
      assert NormalizeEntry(raw[j]) == Some(entries[j]);
      assert NormalizeEntry(raw[..i][j]) == Some(before[j]);
    }
  }

  /** The loop that reads a listing element by element and refuses a bad one. */
  method NormalizeListing(raw: seq<RawEntry>, parent: Id) returns (r: Option<seq<Entry>>)
    ensures r.Some? <==> Readable(raw, parent)
    ensures r.Some? ==> Reads(raw, parent, r.value)
  {
    var actual: seq<Entry> := [];
    for i := 0 to |raw|
      invariant Reads(raw[..i], parent, actual)
    {
      var entry := NormalizeEntry(raw[i]);
      if entry.None? || entry.value.parentId != parent || entry.value in actual {
        forall entries | Reads(raw, parent, entries) {
          ElementIsGood(raw, parent, entries, i, actual);
        }
        return None;
      }
      actual := actual + [entry.value];
    }
    assert raw[..|raw|] == raw;
    r := Some(actual);
  }

  /** The steps of the first `k` edits, all satisfied. */
  function EditSteps(f: Fixture, k: nat): seq<StepReport>
    requires k <= EDITS
  {
    if k == 0 then [] else EditSteps(f, k - 1) + [StepReport(EditAt(f, k - 1).request.Op(), Satisfied)]
  }

  /** What was written is some initial part of the plan's edits. */
  ghost predicate InPlan(f: Fixture, h: History) {
    exists k: nat | k <= EDITS :: Writes(h) == Plan(f, k)
  }

  /** Edit number `k` was tried after the ones before it passed: the write log is still in the
      plan, and if the edit did not pass then no run through `n` edits exists. */
  lemma Tried(env: Environment, b: Budget, f: Fixture, k: nat, n: nat, after: History)
    requires k < n <= EDITS && EditsOk(env, b, f, k)
    requires
      || Writes(after) == Writes(EditHistory(env, f, k))
      || Writes(after) == Writes(EditHistory(env, f, k)) + [EditAt(f, k).request]
    ensures InPlan(f, after)
    ensures EditsOk(env, b, f, n) ==> EditOk(env, b, EditHistory(env, f, k), EditAt(f, k))
    ensures EditOk(env, b, EditHistory(env, f, k), EditAt(f, k)) ==> EditsOk(env, b, f, k + 1)
  {
    hide EditOk, EditAt, AfterEdit;
    WritesOfEdits(env, f, k);
    assert Plan(f, k + 1) == Plan(f, k) + [EditAt(f, k).request];
    if EditsOk(env, b, f, n) {
      EarlierEditsOk(env, b, f, k, n);
    }
  }

  class Probe {
    const env: Environment
    const budget: Budget
    var trace: History
    var writeCalls: nat
    var writeCallsSent: nat
    var readCalls: nat
    var listCalls: nat
    var pageCalls: nat
    var steps: seq<StepReport>
    var rootId: Option<Id>
    var rootName: Option<string>
    var rootConfirmed: bool
    var managed: Manifest

    constructor (env: Environment, budget: Budget)
      ensures this.env == env && this.budget == budget
      ensures Fresh()
    {
      this.env, this.budget := env, budget;
      trace, steps := [], [];
      writeCalls, writeCallsSent, readCalls, listCalls, pageCalls := 0, 0, 0, 0, 0;
      rootId, rootName, rootConfirmed := None, None, false;
      managed := Manifest([], map[]);
    }

    ghost predicate Fresh()
      reads this
    {
      && trace == [] && steps == []
      && writeCalls == writeCallsSent == readCalls == listCalls == pageCalls == 0
      && rootId.None? && rootName.None? && !rootConfirmed && managed == Manifest([], map[])
    }

    /** The counters are the counts of the history, with the last call counted too when the
        deadline stopped it; and the caps hold whatever happened. */
    ghost predicate WithinBudget()
      reads `trace, `writeCalls, `writeCallsSent, `readCalls, `listCalls, `pageCalls
    {
      && (Counted() || WriteStopped() || ListStopped())
      && writeCalls <= budget.maxWriteCalls
      && listCalls <= budget.maxListCalls
      && readCalls <= budget.maxReadCalls
      && writeCalls + readCalls <= budget.maxTotalCalls
    }

    /** While no deadline has struck, the counters are the counts of the history. */
    ghost predicate Counted()
      reads `trace, `writeCalls, `writeCallsSent, `readCalls, `listCalls, `pageCalls
    {
      && writeCalls == writeCallsSent == |Writes(trace)|
      && listCalls == ListCount(trace)
      && readCalls == pageCalls == PageCount(trace)
    }

    /** A write was within its caps and counted when the deadline stopped it. */
    ghost predicate WriteStopped()
      reads `trace, `writeCalls, `writeCallsSent, `readCalls, `listCalls, `pageCalls
    {
      && CanWrite(budget, trace) && env.expired(trace)
      && writeCalls == writeCallsSent + 1 == |Writes(trace)| + 1
      && listCalls == ListCount(trace)
      && readCalls == pageCalls == PageCount(trace)
    }

    /** A listing was within its caps and charged its full reservation when the deadline stopped it. */
    ghost predicate ListStopped()
      reads `trace, `writeCalls, `writeCallsSent, `readCalls, `listCalls, `pageCalls
    {
      && CanList(budget, trace) && env.expired(trace)
      && writeCalls == writeCallsSent == |Writes(trace)|
      && listCalls == ListCount(trace) + 1
      && readCalls == pageCalls == PageCount(trace) + MAX_LIST_PAGE_CALLS
    }

    method ListChildren(parent: Id) returns (r: Outcome<ListAnswer>)
      requires Counted() && WithinBudget()
      modifies this`trace, this`listCalls, this`readCalls, this`pageCalls
      ensures WithinBudget()
      ensures Writes(trace) == Writes(old(trace))
      ensures r.Done? <==> ListOk(env, budget, old(trace), parent)
      ensures r.Done? ==> Counted() && r.value == env.list(old(trace), parent)
      ensures trace == if CanList(budget, old(trace)) && !env.expired(old(trace))
                       then AfterList(env, old(trace), parent) else old(trace)
      ensures r.Cancelled? <==> trace != old(trace) && env.list(old(trace), parent).ListCancelled?
      ensures r == Halted(ListIncomplete) <==>
        && trace != old(trace)
        && env.list(old(trace), parent).Listing?
        && env.list(old(trace), parent).pageCalls <= budget.maxListPageCalls
        && !env.list(old(trace), parent).complete
      // A deadline that strikes here is reported like any other failed listing.
      ensures CanList(budget, old(trace)) && env.expired(old(trace)) ==> r == Halted(ListFailed)
      ensures r != Halted(PostconditionNotSatisfied)
    {
      CountsAfter(env, trace, Recycle(parent), parent);
      if listCalls >= budget.maxListCalls {
        return Halted(ListCallLimitReached);
      }
      var reserved := MAX_LIST_PAGE_CALLS;
      if readCalls + reserved > budget.maxReadCalls {
        return Halted(ReadCallLimitReached);
      }
      if writeCalls + readCalls + reserved > budget.maxTotalCalls {
        return Halted(TotalCallLimitReached);
      }
      listCalls := listCalls + 1;
      readCalls := readCalls + reserved;
      if env.expired(trace) {
        pageCalls := pageCalls + reserved;
        return Halted(ListFailed);
      }
      var answer := env.list(trace, parent);
      trace := trace + [Listed(parent, answer)];
      match answer {
        case ListCancelled =>
          pageCalls := pageCalls + reserved;
          return Cancelled;
        case ListTimedOut =>
          pageCalls := pageCalls + reserved;
          return Halted(ListTimeout);
        case ListRaised =>
          pageCalls := pageCalls + reserved;
          return Halted(ListFailed);
        case NotAListing =>
          pageCalls := pageCalls + reserved;
          return Halted(ListResultUnconfirmed);
        case Listing(_, complete, pages) =>
          readCalls := readCalls - reserved + pages;
          pageCalls := pageCalls + pages;
          if pages > budget.maxListPageCalls {
            return Halted(ListCallLimitReached);
          }
          if !complete {
            return Halted(ListIncomplete);
          }
          return Done(answer);
      }
    }

    /** Looks for `entry` in a fresh listing of its parent and records a step either way. */
    method Verify(operation: Operation, entry: Entry) returns (r: Outcome<()>)
      requires Counted() && WithinBudget() && entry.isDirectory
      modifies this`trace, this`listCalls, this`readCalls, this`pageCalls, this`steps
      ensures WithinBudget()
      ensures Writes(trace) == Writes(old(trace)) && old(trace) <= trace
      ensures r.Done? <==> SeesOk(env, budget, old(trace), entry)
      ensures r.Done? ==> Counted() && trace == AfterList(env, old(trace), entry.parentId)
      ensures r.Cancelled? ==> steps == old(steps)
      ensures !r.Cancelled? ==> steps == old(steps) + [StepReport(operation,
        if r.Done? then Satisfied
        else if r == Halted(PostconditionNotSatisfied) then NotSatisfied else Unconfirmed)]
      ensures r == Halted(PostconditionNotSatisfied) <==>
        && ListOk(env, budget, old(trace), entry.parentId)
        && Readable(env.list(old(trace), entry.parentId).entries, entry.parentId)
        && entry !in Shown(env.list(old(trace), entry.parentId).entries, entry.parentId)
    {
      var listing := ListChildren(entry.parentId);
      if listing.Cancelled? {
        return Cancelled;
      }
      if listing.Halted? {
        steps := steps + [StepReport(operation, Unconfirmed)];
        return Halted(listing.code);
      }
      var actual := NormalizeListing(listing.value.entries, entry.parentId);
      if actual.None? {
        steps := steps + [StepReport(operation, Unconfirmed)];
        return Halted(ReadResultUnconfirmed);
      }
      ShownIs(listing.value.entries, entry.parentId, actual.value);
      var matched := entry in actual.value;
      steps := steps + [StepReport(operation, if matched then Satisfied else NotSatisfied)];
      if !matched {
        return Halted(PostconditionNotSatisfied);
      }
      r := Done(());
    }

    /** Sends one write.  A write of a known object that raises is followed by one look. */
    method Write(request: Request, verify: Option<Entry>) returns (r: Outcome<Receipt>)
      requires Counted() && WithinBudget()
      requires verify.Some? ==> verify.value.isDirectory
      modifies this`trace, this`writeCalls, this`writeCallsSent, this`listCalls, this`readCalls, this`pageCalls, this`steps
      ensures WithinBudget()
      ensures r.Done? <==> CanWrite(budget, old(trace)) && !env.expired(old(trace)) && env.execute(old(trace), request).Received?
      ensures r.Done? ==>
        && Counted() && steps == old(steps)
        && trace == AfterWrite(env, old(trace), request)
        && r.value == env.execute(old(trace), request).receipt
      ensures if CanWrite(budget, old(trace)) && !env.expired(old(trace))
              then AfterWrite(env, old(trace), request) <= trace && Writes(trace) == Writes(old(trace)) + [request]
              else trace == old(trace)
      ensures r.Cancelled? <==> trace != old(trace) && env.execute(old(trace), request).WriteCancelled?
      ensures verify.None? ==> trace == old(trace) || trace == AfterWrite(env, old(trace), request)
      ensures verify.None? && trace != old(trace) && r.Halted? ==>
        steps == old(steps) + [StepReport(request.Op(), Unconfirmed)]
    {
      CountsAfter(env, trace, request, "");
      if writeCalls >= budget.maxWriteCalls {
        return Halted(WriteCallLimitReached);
      }
      if writeCalls + readCalls >= budget.maxTotalCalls {
        return Halted(TotalCallLimitReached);
      }
      writeCalls := writeCalls + 1;
      if env.expired(trace) {
        return Halted(DeadlineExceeded);
      }
      writeCallsSent := writeCallsSent + 1;
      var answer := env.execute(trace, request);
      trace := trace + [Wrote(request, answer)];
      match answer {
        case WriteCancelled =>
          if verify.Some? {
            BestEffortVerify(request.Op(), verify.value);
          }
          return Cancelled;
        case WriteTimedOut =>
          AfterFailedWrite(request.Op(), verify);
          return Halted(WriteTimeout);
        case WriteRaised =>
          AfterFailedWrite(request.Op(), verify);
          return Halted(RemoteWriteFailed);
        case NotAReceipt =>
          steps := steps + [StepReport(request.Op(), Unconfirmed)];
          return Halted(WriteResultUnconfirmed);
        case Received(receipt) =>
          return Done(receipt);
      }
    }

    method AfterFailedWrite(operation: Operation, verify: Option<Entry>)
      requires Counted() && WithinBudget()
      requires verify.Some? ==> verify.value.isDirectory
      modifies this`trace, this`listCalls, this`readCalls, this`pageCalls, this`steps
      ensures WithinBudget() && Writes(trace) == Writes(old(trace)) && old(trace) <= trace
      ensures verify.None? ==> trace == old(trace) && steps == old(steps) + [StepReport(operation, Unconfirmed)]
    {
      if verify.None? {
        steps := steps + [StepReport(operation, Unconfirmed)];
      } else {
        BestEffortVerify(operation, verify.value);
      }
    }

    /** The outcome of this look is recorded as a step and otherwise dropped. */
    method BestEffortVerify(operation: Operation, entry: Entry)
      requires Counted() && WithinBudget() && entry.isDirectory
      modifies this`trace, this`listCalls, this`readCalls, this`pageCalls, this`steps
      ensures WithinBudget() && Writes(trace) == Writes(old(trace)) && old(trace) <= trace
    {
      var _ := Verify(operation, entry);
    }

    method MakeDirectory(parent: Id, name: string) returns (r: Outcome<Id>)
      requires Counted() && WithinBudget()
      modifies this`trace, this`writeCalls, this`writeCallsSent, this`listCalls, this`readCalls, this`pageCalls, this`steps
      ensures WithinBudget()
      ensures Writes(trace) == Writes(old(trace)) || Writes(trace) == Writes(old(trace)) + [Mkdir(parent, name)]
      ensures
        var edit := MkdirEdit(env, old(trace), parent, name);
        && (r.Done? <==> EditOk(env, budget, old(trace), edit))
        && (r.Done? ==> Performed(old(trace), old(steps), edit) && r.value == edit.entry.fileId)
    {
      hide SeesOk, CanWrite, Writes, ListCount, PageCount, WithinBudget, Counted;
      var h := trace;
      var receipt :- Write(Mkdir(parent, name), None);
      var id := receipt.Identity();
      if id.None? {
        return Halted(MkdirUnconfirmed);
      }
      CountsAfter(env, h, Mkdir(parent, name), "");
      var _ :- Verify(MkdirOp, Folder(id.value, parent, name));
      if receipt.status != Succeeded {
        return Halted(MkdirUnconfirmed);
      }
      r := Done(id.value);
    }

    method RenameAndVerify(id: Id, parent: Id, name: string) returns (r: Outcome<()>)
      requires Counted() && WithinBudget()
      modifies this`trace, this`writeCalls, this`writeCallsSent, this`listCalls, this`readCalls, this`pageCalls, this`steps
      ensures WithinBudget()
      ensures Writes(trace) == Writes(old(trace)) || Writes(trace) == Writes(old(trace)) + [Rename(id, name)]
      ensures
        var edit := Edit(Rename(id, name), Folder(id, parent, name));
        && (r.Done? <==> EditOk(env, budget, old(trace), edit))
        && (r.Done? ==> Performed(old(trace), old(steps), edit))
    {
      hide SeesOk, CanWrite, Writes, ListCount, PageCount, WithinBudget, Counted;
      var h := trace;
      var receipt :- Write(Rename(id, name), Some(Folder(id, parent, name)));
      CountsAfter(env, h, Rename(id, name), "");
      var _ :- Verify(RenameOp, Folder(id, parent, name));
      if receipt.status != Succeeded {
        return Halted(RenameUnconfirmed);
      }
      r := Done(());
    }

    method MoveAndVerify(id: Id, parent: Id, name: string) returns (r: Outcome<()>)
      requires Counted() && WithinBudget()
      modifies this`trace, this`writeCalls, this`writeCallsSent, this`listCalls, this`readCalls, this`pageCalls, this`steps
      ensures WithinBudget()
      ensures Writes(trace) == Writes(old(trace)) || Writes(trace) == Writes(old(trace)) + [Move(id, parent)]
      ensures
        var edit := Edit(Move(id, parent), Folder(id, parent, name));
        && (r.Done? <==> EditOk(env, budget, old(trace), edit))
        && (r.Done? ==> Performed(old(trace), old(steps), edit))
    {
      hide SeesOk, CanWrite, Writes, ListCount, PageCount, WithinBudget, Counted;
      var h := trace;
      var receipt :- Write(Move(id, parent), Some(Folder(id, parent, name)));
      CountsAfter(env, h, Move(id, parent), "");
      var _ :- Verify(MoveOp, Folder(id, parent, name));
      if receipt.status != Succeeded {
        return Halted(MoveUnconfirmed);
      }
      r := Done(());
    }

    /** An edit went through: two calls more in the history, one satisfied step. */
    ghost predicate Performed(h: History, before: seq<StepReport>, edit: Edit)
      reads `trace, `writeCalls, `writeCallsSent, `readCalls, `listCalls, `pageCalls, `steps
    {
      && Counted()
      && trace == AfterEdit(env, h, edit)
      && steps == before + [StepReport(edit.request.Op(), Satisfied)]
    }

    /** The first `k` edits went through and nothing else happened. */
    ghost predicate At(f: Fixture, k: nat)
      requires k <= EDITS
      reads `trace, `writeCalls, `writeCallsSent, `readCalls, `listCalls, `pageCalls, `steps
    {
      && Counted() && WithinBudget()
      && trace == EditHistory(env, f, k)
      && EditsOk(env, budget, f, k)
      && steps == EditSteps(f, k)
    }

    /** The first edit also fixes which root the run owns. */
    method MakeRoot(parent: Id, name: string) returns (r: Outcome<Id>)
      requires Counted() && WithinBudget() && managed == Manifest([], map[])
      modifies this
      ensures WithinBudget()
      ensures Writes(trace) == Writes(old(trace)) || Writes(trace) == Writes(old(trace)) + [Mkdir(parent, name)]
      ensures
        var edit := MkdirEdit(env, old(trace), parent, name);
        && (r.Done? <==> EditOk(env, budget, old(trace), edit))
        && (r.Done? ==>
              && Performed(old(trace), old(steps), edit)
              && r.value == edit.entry.fileId
              && rootId == Some(r.value) && rootName == Some(name) && rootConfirmed
              && managed == Manifest([], map[]).Put(r.value, parent, name))
    {
      hide CanWrite, SeesOk, Writes, ListCount, PageCount, WithinBudget, Counted;
      var h := trace;
      var receipt :- Write(Mkdir(parent, name), None);
      var id := receipt.Identity();
      if id.None? {
        return Halted(RootCreationUnconfirmed);
      }
      rootId, rootName := Some(id.value), Some(name);
      CountsAfter(env, h, Mkdir(parent, name), "");
      var _ :- Verify(MkdirOp, Folder(id.value, parent, name));
      rootConfirmed := true;
      managed := managed.Put(id.value, parent, name);
      if receipt.status != Succeeded {
        return Halted(RootCreationUnconfirmed);
      }
      r := Done(id.value);
    }

    /** The four directories of the fixture. */
    method MakeFolders(parent: Id, name: string) returns (r: Outcome<(Id, Id, Id)>)
      requires Fresh() && WithinBudget()
      modifies this
      ensures WithinBudget() && InPlan(FixtureOf(env, parent, name), trace)
      ensures
        var f := FixtureOf(env, parent, name);
        && (r.Done? <==> EditsOk(env, budget, f, 4))
        && (r.Done? ==>
              && At(f, 4) && r.value == (f.root, f.source, f.quarantine)
              && rootId == Some(f.root) && rootName == Some(name) && rootConfirmed
              && managed == ManifestOf(f))
    {
      hide EditOk, EditsOk, EditHistory, EditSteps, EditAt, Folder, IdentityOf, AfterEdit, Writes, ListCount, PageCount, InPlan, FixtureOf, WithinBudget, Counted, Performed, Manifest.Put, Manifest.Valid;
      ghost var f := FixtureOf(env, parent, name);
      FixtureEdits(env, parent, name);
      AtStart(f);
      var root := MakeRoot(parent, name);
      Tried(env, budget, f, 0, 4, trace);
      if !root.Done? { return root.PropagateFailure(); }
      Arrived(f, 0);
      var source := MakeDirectory(root.value, "source");
      Tried(env, budget, f, 1, 4, trace);
      if !source.Done? { return source.PropagateFailure(); }
      Arrived(f, 1);
      managed := managed.Put(source.value, root.value, "source");
      var quarantine := MakeDirectory(root.value, "quarantine");
      Tried(env, budget, f, 2, 4, trace);
      if !quarantine.Done? { return quarantine.PropagateFailure(); }
      Arrived(f, 2);
      managed := managed.Put(quarantine.value, root.value, "quarantine");
      var artifact := MakeDirectory(root.value, "artifact");
      Tried(env, budget, f, 3, 4, trace);
      if !artifact.Done? { return artifact.PropagateFailure(); }
      Arrived(f, 3);
      managed := managed.Put(artifact.value, root.value, "artifact");
      r := Done((root.value, source.value, quarantine.value));
    }

    /** Passing edit number `k` leads to the next place. */
    lemma Arrived(f: Fixture, k: nat)
      requires k < EDITS && EditsOk(env, budget, f, k + 1) && WithinBudget()
      requires Performed(EditHistory(env, f, k), EditSteps(f, k), EditAt(f, k))
      ensures At(f, k + 1)
    {
    }

    lemma AtStart(f: Fixture)
      requires Fresh() && WithinBudget()
      ensures At(f, 0)
    {
    }

    /** Isolate the source, put it in quarantine, mark it, take it back and unmark it. */
    method QuarantineAndRestore(ghost f: Fixture, root: Id, source: Id, quarantine: Id) returns (r: Outcome<()>)
      requires At(f, 4) && (root, source, quarantine) == (f.root, f.source, f.quarantine)
      modifies this`trace, this`writeCalls, this`writeCallsSent, this`listCalls, this`readCalls, this`pageCalls, this`steps
      ensures WithinBudget() && InPlan(f, trace)
      ensures r.Done? <==> EditsOk(env, budget, f, EDITS)
      ensures r.Done? ==> At(f, EDITS)
    {
      hide EditOk, EditsOk, EditHistory, EditSteps, AfterEdit, Writes, ListCount, PageCount, InPlan, WithinBudget, Counted, Performed;
      r := RenameAndVerify(source, root, "source-isolated");
      Tried(env, budget, f, 4, EDITS, trace);
      if !r.Done? { return; }
      Arrived(f, 4);
      r := MoveAndVerify(source, quarantine, "source-isolated");
      Tried(env, budget, f, 5, EDITS, trace);
      if !r.Done? { return; }
      Arrived(f, 5);
      r := RenameAndVerify(source, quarantine, "source-quarantined");
      Tried(env, budget, f, 6, EDITS, trace);
      if !r.Done? { return; }
      Arrived(f, 6);
      r := MoveAndVerify(source, root, "source-quarantined");
      Tried(env, budget, f, 7, EDITS, trace);
      if !r.Done? { return; }
      Arrived(f, 7);
      r := RenameAndVerify(source, root, "source");
      Tried(env, budget, f, 8, EDITS, trace);
      if r.Done? {
        Arrived(f, 8);
      }
    }

    /** The guarded body of the run: nine edits in order, the first halt or cancellation wins. */
    method PerformEdits(parent: Id, name: string) returns (r: Outcome<()>)
      requires Fresh() && WithinBudget()
      modifies this
      ensures WithinBudget() && InPlan(FixtureOf(env, parent, name), trace)
      ensures
        var f := FixtureOf(env, parent, name);
        && (r.Done? <==> EditsOk(env, budget, f, EDITS))
        && (r.Done? ==>
              && At(f, EDITS)
              && rootId == Some(f.root) && rootName == Some(name) && rootConfirmed
              && managed == ManifestOf(f))
    {
      hide EditOk, EditsOk, AfterEdit, Writes, ListCount, PageCount, InPlan, FixtureOf;
      ghost var f := FixtureOf(env, parent, name);
      if EditsOk(env, budget, f, EDITS) {
        EarlierEditsOk(env, budget, f, 4, EDITS);
      }
      var ids := MakeFolders(parent, name);
      if !ids.Done? { return ids.PropagateFailure(); }
      r := QuarantineAndRestore(f, ids.value.0, ids.value.1, ids.value.2);
    }

    /** Lists every managed directory and requires each to show exactly its manifest. */
    method VerifyManagedScope() returns (r: Outcome<()>)
      requires Counted() && WithinBudget() && managed.Valid()
      modifies this`trace, this`listCalls, this`readCalls, this`pageCalls
      ensures WithinBudget() && Writes(trace) == Writes(old(trace))
      ensures r.Done? <==> ScopeOk(env, budget, old(trace), managed, |managed.order|)
      ensures r.Done? ==> Counted() && trace == ScopeHistory(env, old(trace), managed, |managed.order|)
    {
      hide CanList, Writes, ListCount, PageCount, AfterList;
      ghost var h := trace;
      for i := 0 to |managed.order|
        invariant Counted() && WithinBudget() && Writes(trace) == Writes(h)
        invariant trace == ScopeHistory(env, h, managed, i)
        invariant ScopeOk(env, budget, h, managed, i)
      {
        var id := managed.order[i];
        ghost var before := trace;
        if ScopeOk(env, budget, h, managed, |managed.order|) {
          EarlierScopeOk(env, budget, h, managed, i, |managed.order|);
        }
        var listing := ListChildren(id);
        if !listing.Done? {
          return listing.PropagateFailure();
        }
        var expected := managed.Children(id);
        var actual := NormalizeListing(listing.value.entries, id);
        if actual.None? {
          return Halted(CleanupScopeUnconfirmed);
        }
        ShownIs(listing.value.entries, id, actual.value);
        if (set e | e in actual.value) != expected {
          return Halted(CleanupScopeUnconfirmed);
        }
        assert ShowsExactly(env, budget, before, managed, id);
      }
      r := Done(());
    }

    /** The recycle went out. */
    predicate Attempted(verdict: Cleanup) {
      verdict.UncertainCleanup? || verdict.Complete?
    }

    /** Looks at the root and at everything below it, and only then recycles it. */
    method CleanUp(parent: Id) returns (verdict: Cleanup, error: Option<ErrorCode>)
      requires Counted() && WithinBudget() && managed.Valid() && rootId.Some? && rootName.Some?
      modifies this`trace, this`writeCalls, this`writeCallsSent, this`listCalls, this`readCalls, this`pageCalls, this`steps
      ensures WithinBudget()
      ensures Attempted(verdict) || verdict.NotAttemptedUncertain?
      ensures Writes(trace) == Writes(old(trace)) + (if Attempted(verdict) then [Recycle(rootId.value)] else [])
      ensures
        var h := old(trace);
        var before := ScopeHistory(env, AfterList(env, h, parent), managed, |managed.order|);
        var observed :=
          && SeesOk(env, budget, h, Folder(rootId.value, parent, rootName.value))
          && ScopeOk(env, budget, AfterList(env, h, parent), managed, |managed.order|);
        && (Attempted(verdict) ==> observed && AfterWrite(env, before, Recycle(rootId.value)) <= trace)
        && (verdict.Complete? <==>
              && observed
              && WriteOk(env, budget, before, Recycle(rootId.value))
              && GoneOk(env, budget, AfterWrite(env, before, Recycle(rootId.value)), parent, rootId.value))
        && (verdict.Complete? ==>
              && Counted()
              && trace == AfterList(env, AfterWrite(env, before, Recycle(rootId.value)), parent)
              && steps == old(steps) + [StepReport(RecycleOp, Satisfied)])
      ensures error.None? <==> verdict.Complete?
    {
      hide CanList, CanWrite, Writes, ListCount, PageCount, ScopeOk, ScopeHistory, SeesOk;
      var root := rootId.value;
      ghost var h := trace;
      CountsAfter(env, h, Recycle(root), parent);
      var seen := Verify(RecycleOp, Folder(root, parent, rootName.value));
      if !seen.Done? {
        return NotAttemptedUncertain, Some(CleanupCode(seen));
      }
      var scope := VerifyManagedScope();
      if !scope.Done? {
        return NotAttemptedUncertain, Some(CleanupCode(scope));
      }
      verdict, error := RecycleRoot(parent, root);
    }

    /** Sends the recycle and looks for the root one last time. */
    method RecycleRoot(parent: Id, root: Id) returns (verdict: Cleanup, error: Option<ErrorCode>)
      requires Counted() && WithinBudget()
      modifies this`trace, this`writeCalls, this`writeCallsSent, this`listCalls, this`readCalls, this`pageCalls, this`steps
      ensures WithinBudget()
      ensures Attempted(verdict) || verdict.NotAttemptedUncertain?
      ensures Writes(trace) == Writes(old(trace)) + (if Attempted(verdict) then [Recycle(root)] else [])
      ensures Attempted(verdict) ==> AfterWrite(env, old(trace), Recycle(root)) <= trace
      ensures verdict.Complete? <==>
        && WriteOk(env, budget, old(trace), Recycle(root))
        && GoneOk(env, budget, AfterWrite(env, old(trace), Recycle(root)), parent, root)
      ensures verdict.Complete? ==>
        Counted() && trace == AfterList(env, AfterWrite(env, old(trace), Recycle(root)), parent) && steps == old(steps)
      ensures error.None? <==> verdict.Complete?
    {
      hide CanList, Writes, ListCount, PageCount;
      ghost var h := trace;
      CountsAfter(env, h, Recycle(root), parent);
      var sentBefore := writeCallsSent;
      var receipt := Write(Recycle(root), None);
      if !receipt.Done? {
        return if writeCallsSent > sentBefore then UncertainCleanup else NotAttemptedUncertain, Some(CleanupCode(receipt));
      }
      if receipt.value.status != Succeeded {
        return UncertainCleanup, Some(CleanupUnconfirmed);
      }
      var listing := ListChildren(parent);
      if !listing.Done? {
        return UncertainCleanup, Some(CleanupCode(listing));
      }
      var actual := NormalizeListing(listing.value.entries, parent);
      if actual.None? {
        return UncertainCleanup, Some(CleanupNotConfirmed);
      }
      ShownIs(listing.value.entries, parent, actual.value);
      if exists e | e in actual.value :: e.fileId == root {
        return UncertainCleanup, Some(CleanupNotConfirmed);
      }
      return Complete, None;
    }

    /** How a halt or a cancellation during cleanup is reported. */
    function CleanupCode<T>(r: Outcome<T>): ErrorCode
      requires r.IsFailure()
    {
      if r.Halted? then DuringCleanup(r.code) else RunCancelled
    }

    function MakeReport(status: ProbeStatus, cleanup: Cleanup, errorCode: Option<ErrorCode>): Report
      reads this
    {
      Report(status, steps, writeCalls, readCalls, listCalls, pageCalls, cleanup, errorCode)
    }

    /**
      What a report says about the history behind it.  The write log is an initial part of the
      plan; its last element, the recycle, is there exactly when the cleanup verdict says that
      cleanup was attempted, and only after everything the fixture needs was observed.  Success
      is reported exactly when every answer along the lifecycle is good.
     */
    ghost predicate Accounts(report: Report, f: Fixture)
      reads this
    {
      && report == MakeReport(report.status, report.cleanup, report.errorCode)
      && (report.status.Success? || report.status.UncertainRun?)
      && (report.status.Success? <==> report.cleanup.Complete?)
      && (report.status.Success? <==> report.errorCode.None?)
      && (Attempted(report.cleanup) || report.cleanup.NotAttemptedUncertain?)
      && (report.status.Success? <==> RunOk(env, budget, f))
      && (report.status.Success? ==>
            && Counted()
            && trace == RunHistory(env, f)
            && steps == EditSteps(f, EDITS) + [StepReport(RecycleOp, Satisfied)])
      && (exists k: nat | k <= EDITS + 1 :: Writes(trace) == Plan(f, k))
      && (Attempted(report.cleanup) <==> Writes(trace) == Plan(f, EDITS + 1))
      && (Attempted(report.cleanup) ==>
            && Confirmed(env, budget, f)
            && AfterWrite(env, RecycleHistory(env, f), Recycle(f.root)) <= trace)
    }

    /** The edits and, only if all of them were confirmed, the cleanup. */
    method Lifecycle(parent: Id, rootName: string) returns (report: Report)
      requires Fresh() && WithinBudget()
      modifies this
      ensures WithinBudget() && Accounts(report, FixtureOf(env, parent, rootName))
    {
      hide EditsOk, EditHistory, EditSteps, Writes, ListCount, PageCount, FixtureOf, SeesOk, ScopeOk, ScopeHistory, WriteOk, GoneOk, WithinBudget, Counted, ManifestOf;
      ghost var f := FixtureOf(env, parent, rootName);
      WritesOfEdits(env, f, EDITS);
      FixtureEdits(env, parent, rootName);
      var edits := PerformEdits(parent, rootName);
      ShortOfPlan(f, trace);
      if !edits.Done? {
        report := MakeReport(UncertainRun, NotAttemptedUncertain,
                             Some(if edits.Halted? then edits.code else RunCancelled));
        return;
      }
      var verdict, error := CleanUp(parent);
      WholePlan(f);
      report := MakeReport(if error.Some? then UncertainRun else Success, verdict, error);
    }

    /** One run.  `rootName` is the fresh name the run picks for its root directory. */
    method Run(parentId: RawId, gates: Gates, timeoutSeconds: Option<real>, rootName: string) returns (report: Report)
      requires Fresh()
      modifies this
      ensures budget.Valid() ==> WithinBudget()
      ensures report.status.Blocked? <==> !Admitted(parentId, gates, budget, timeoutSeconds)
      ensures report.status.Blocked? ==>
        && trace == [] && report.cleanup.NotStarted? && report.errorCode.Some?
        && report == MakeReport(Blocked, NotStarted, report.errorCode)
      ensures !report.status.Blocked? ==>
        Accounts(report, FixtureOf(env, NormalizeId(parentId).value, rootName))
    {
      hide Accounts, FixtureOf, WithinBudget;
      if budget.Valid() {
        NothingSpent();
      }
      var parent := NormalizeId(parentId);
      if parent.None? {
        report := MakeReport(Blocked, NotStarted, Some(InvalidParentId));
        return;
      }
      var gateError := GateError(gates, budget);
      if gateError.Some? {
        report := MakeReport(Blocked, NotStarted, gateError);
        return;
      }
      if timeoutSeconds.None? || timeoutSeconds.value <= 0.0 || timeoutSeconds.value > MAX_RUN_TIMEOUT_SECONDS {
        report := MakeReport(Blocked, NotStarted, Some(InvalidTimeout));
        return;
      }
      report := Lifecycle(parent.value, rootName);
      NotBlocked(report, FixtureOf(env, parent.value, rootName));
    }

    lemma NotBlocked(report: Report, f: Fixture)
      requires Accounts(report, f)
      ensures !report.status.Blocked?
    {
    }

    lemma NothingSpent()
      requires Fresh() && budget.Valid()
      ensures WithinBudget()
    {
    }
  }

  lemma WholePlan(f: Fixture)
    ensures Plan(f, EDITS + 1) == Plan(f, EDITS) + [Recycle(f.root)]
  {
  }

  /** A write log within the nine edits is not the whole plan. */
  lemma ShortOfPlan(f: Fixture, h: History)
    requires InPlan(f, h)
    ensures exists k: nat | k <= EDITS + 1 :: Writes(h) == Plan(f, k)
    ensures Writes(h) != Plan(f, EDITS + 1)
  {
  }
}
