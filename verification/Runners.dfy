/**
  The gated runners that move and rename one remote file and put it back.  Whatever the remote
  answers, a run follows its script until the first answer that is not the expected one; it
  reports success exactly when every answer was, and never denies a write it sent.
 */
module Runners {
  import opened Wrappers
  import Organization

  type ObjectState = Organization.ObjectState
  type Status = Organization.Status

  datatype Raised = TransportError | TimedOut | Cancelled | OtherError

  datatype Reading = Saw(state: Option<ObjectState>) | ReadRaised(raised: Raised)

  datatype Write = MoveTo(id: string, parent: string) | RenameTo(id: string, name: string)

  datatype Answer = Receipt(status: Status) | WriteRaised(raised: Raised)

  /** What a run does, with what it got for it. */
  datatype Event =
    | ReadObject(reading: Reading)
    | ReadTarget(name: string, reading: Reading)
    | Consume(granted: bool)
    | Send(write: Write, answer: Answer)

  type Log = seq<Event>

  /** The rest of the world may answer anything, depending on all that went before. */
  datatype World = World(
    shows: Log -> Reading,
    showsAt: (Log, string) -> Reading,
    grants: Log -> bool,
    answers: (Log, Write) -> Answer)

  /** The three scripts: what is done at each step, with the answer that lets the run go on. */
  datatype Script =
    | Organize(id: string, parent: string, original: string, probe: string)
    | Prove(id: string, parent: string, original: string, probe: string)
    | Restore(id: string, parent: string, original: string, probe: string)

  predicate SameAsk(a: Event, b: Event) {
    || (a.ReadObject? && b.ReadObject?)
    || (a.ReadTarget? && b.ReadTarget? && a.name == b.name)
    || (a.Consume? && b.Consume?)
    || (a.Send? && b.Send? && a.write == b.write)
  }

  predicate IsRead(e: Event) {
    e.ReadObject? || e.ReadTarget?
  }

  /** The first k events are the script's, answers included. */
  ghost predicate Follows(log: Log, script: Script, k: nat) {
    k <= |log| && forall i | 0 <= i < k :: log[i] == Step(script, i)
  }

  ghost predicate On(log: Log, script: Script, k: nat) {
    |log| == k && Follows(log, script, k)
  }

  /** The answer at step k was not the expected one; after it there is at most one more look. */
  ghost predicate Off(log: Log, script: Script, k: nat) {
    && Follows(log, script, k) && k < |log| <= k + 2
    && SameAsk(log[k], Step(script, k)) && log[k] != Step(script, k)
    && (|log| == k + 2 ==> IsRead(log[k + 1]))
  }

  function ReceiptsIn(log: Log): nat {
    if log == [] then 0
    else ReceiptsIn(log[..|log| - 1]) + if log[|log| - 1].Send? && log[|log| - 1].answer.Receipt? then 1 else 0
  }

  /** Every answer in the log is the world's. */
  ghost predicate Produced(world: World, log: Log) {
    forall i | 0 <= i < |log| :: Answers(world, log[..i], log[i])
  }

  predicate Answers(world: World, before: Log, e: Event) {
    match e
    case ReadObject(reading) => reading == world.shows(before)
    case ReadTarget(name, reading) => reading == world.showsAt(before, name)
    case Consume(granted) => granted == world.grants(before)
    case Send(write, answer) => answer == world.answers(before, write)
  }

  lemma OneMore(world: World, log: Log, e: Event)
    requires Produced(world, log) && Answers(world, log, e)
    ensures Produced(world, log + [e])
    ensures ReceiptsIn(log + [e]) == ReceiptsIn(log) + if e.Send? && e.answer.Receipt? then 1 else 0
  {
    var longer := log + [e];
    assert longer[..|log|] == log;
    assert forall i | 0 <= i < |log| :: longer[..i] == log[..i] && longer[i] == log[i];
  }

  /** One more event: the expected one goes on with the script, another answer strays from it,
      and after straying there may be one look. */
  lemma OneStep(log: Log, script: Script, k: nat, e: Event)
    ensures On(log, script, k) && SameAsk(e, Step(script, k)) ==>
      |log| == k && if e == Step(script, k) then On(log + [e], script, k + 1) else Off(log + [e], script, k)
    ensures Off(log, script, k) && |log| == k + 1 && IsRead(e) ==> Off(log + [e], script, k)
  {
    hide Step;
  }

  datatype RunStatus = Succeeded | NotApplied | Blocked | Unsure

  /** A run ends with a report, or with an exception that nothing turns into one. */
  datatype Report = Report(status: RunStatus, error: string, writeStarted: bool, receipts: Option<nat>) | Crashed

  predicate IsSuccess(report: Report) {
    report.Report? && report.status.Succeeded?
  }

  // ---------------------------------------------------------------------- the scripts

  function At(id: string, parent: string, name: string): Reading {
    Saw(Some(Organization.ObjectState(id, parent, name)))
  }

  const SENT: Answer := Receipt(Organization.Success)

  function Length(script: Script): nat {
    match script
    case Organize(_, _, _, _) => 12
    case Prove(_, _, _, _) => 11
    case Restore(_, _, _, _) => 5
  }

  function Step(script: Script, k: nat): Event {
    match script
    case Organize(_, _, _, _) => OrganizeStep(script, k)
    case Prove(_, _, _, _) => ProveStep(script, k)
    case Restore(_, _, _, _) => RestoreStep(script, k)
  }

  function Original(script: Script): Reading {
    At(script.id, script.parent, script.original)
  }

  function Probe(script: Script): Reading {
    At(script.id, script.parent, script.probe)
  }

  /** The organization probe: move in place, rename, and both again on the way back. */
  function OrganizeStep(script: Script, k: nat): Event {
    if k == 0 || k == 4 || k == 11 then ReadObject(Original(script))
    else if k == 1 then ReadTarget(script.probe, Saw(None))
    else if k == 2 then Consume(true)
    else if k == 3 || k == 9 then Send(MoveTo(script.id, script.parent), SENT)
    else if k == 5 then Send(RenameTo(script.id, script.probe), SENT)
    else if k == 6 || k == 7 then ReadObject(Probe(script))
    else if k == 8 then ReadTarget(script.original, Saw(None))
    else Send(RenameTo(script.id, script.original), SENT)
  }

  /** The production write probe takes its authorization first and does not move on the way back. */
  function ProveStep(script: Script, k: nat): Event {
    if k == 0 then Consume(true)
    else if k == 1 || k == 4 || k == 10 then ReadObject(Original(script))
    else if k == 2 then ReadTarget(script.probe, Saw(None))
    else if k == 3 then Send(MoveTo(script.id, script.parent), SENT)
    else if k == 5 then Send(RenameTo(script.id, script.probe), SENT)
    else if k == 6 || k == 7 then ReadObject(Probe(script))
    else if k == 8 then ReadTarget(script.original, Saw(None))
    else Send(RenameTo(script.id, script.original), SENT)
  }

  /** The restore finds the probe's name and gives the recorded one back. */
  function RestoreStep(script: Script, k: nat): Event {
    if k == 0 then ReadObject(Probe(script))
    else if k == 1 then ReadTarget(script.original, Saw(None))
    else if k == 2 then Consume(true)
    else if k == 3 then Send(RenameTo(script.id, script.original), SENT)
    else ReadObject(Original(script))
  }

  /** The step at which the authorization is taken; every write comes later. */
  function Gate(script: Script): nat {
    if script.Prove? then 0 else 2
  }

  // ---------------------------------------------------------------------- the reports

  function RaisedBy(e: Event): Option<Raised> {
    if (e.ReadObject? || e.ReadTarget?) && e.reading.ReadRaised? then Some(e.reading.raised)
    else if e.Send? && e.answer.WriteRaised? then Some(e.answer.raised)
    else None
  }

  /** A run that strays at step k is reported by that step and by whether what it saw last was an
      exception; each runner lets other exceptions through. */
  function StrayReport(script: Script, k: nat, log: Log): Report
    requires log != []
  {
    match script
    case Organize(_, _, _, _) => OrganizeReport(k, RaisedBy(log[|log| - 1]), ReceiptsIn(log))
    case Prove(_, _, _, _) => ProveReport(k, RaisedBy(log[|log| - 1]), log[|log| - 1] == ReadObject(Original(script)))
    case Restore(_, _, _, _) => RestoreReport(k, RaisedBy(log[|log| - 1]))
  }

  function OrganizeReport(k: nat, raised: Option<Raised>, receipts: nat): Report {
    if raised == Some(OtherError) then Crashed
    else if raised.Some? then Report(Unsure, if k < 7 then "outcome_unknown" else "cleanup_outcome_unknown", true, Some(receipts))
    else if k < 2 then Report(Blocked, "precondition_changed", false, None)
    else if k == 2 then Report(Blocked, "authorization_already_consumed", false, None)
    else Report(Unsure,
                if k == 3 then "move_unconfirmed" else if k == 4 then "move_postcondition_unconfirmed"
                else if k == 5 then "rename_unconfirmed" else if k == 6 then "rename_postcondition_unconfirmed"
                else if k < 9 then "cleanup_precondition_changed" else "cleanup_unconfirmed",
                true, Some(receipts))
  }

  function ProveReport(k: nat, raised: Option<Raised>, original: bool): Report {
    if raised == Some(Cancelled) then Crashed
    else if raised.Some? then Report(Unsure, if raised == Some(OtherError) then "probe_failed" else "outcome_unknown", true, None)
    else if k == 0 then Report(Blocked, "authorization_already_consumed", false, None)
    else if k < 3 then Report(Blocked, "precondition_changed", false, None)
    else if 5 <= k < 7 && original then Report(NotApplied, "rename_not_applied", true, None)
    else Report(Unsure,
                if k == 3 then "move_unconfirmed" else if k == 4 then "move_postcondition_unconfirmed"
                else if k < 7 then "rename_postcondition_unconfirmed"
                else if k < 9 then "cleanup_precondition_changed" else "cleanup_unconfirmed",
                true, None)
  }

  function RestoreReport(k: nat, raised: Option<Raised>): Report {
    if k < 2 && raised == Some(OtherError) then Report(Blocked, "restore_failed", false, None)
    else if k < 2 && raised.Some? then Report(Unsure, "outcome_unknown", true, None)
    else if k < 2 then Report(Blocked, "restore_precondition_changed", false, None)
    else if k == 2 then Report(Blocked, "authorization_already_consumed", false, None)
    else Report(Unsure,
                if k == 4 then "restore_postcondition_unconfirmed"
                else if raised.Some? then "restore_outcome_unknown" else "restore_receipt_unconfirmed",
                true, None)
  }

  // -------------------------------------------------------------------------- the run

  class Run {
    const world: World
    var log: Log
    var receipts: nat

    constructor (world: World)
      ensures this.world == world && log == [] && receipts == 0
    {
      this.world, log, receipts := world, [], 0;
    }

    ghost predicate Counted()
      reads this
    {
      receipts == ReceiptsIn(log) && Produced(world, log)
    }

    /** Looks at the object. */
    method Look(ghost script: Script, ghost k: nat) returns (reading: Reading)
      requires Counted() && (On(log, script, k) || (Off(log, script, k) && |log| == k + 1))
      modifies this
      ensures Counted() && log == old(log) + [ReadObject(reading)] && reading == world.shows(old(log))
      ensures On(old(log), script, k) && Step(script, k).ReadObject? ==>
        if reading == Step(script, k).reading then On(log, script, k + 1) else Off(log, script, k) && |log| == k + 1
      ensures Off(old(log), script, k) ==> Off(log, script, k)
    {
      reading := world.shows(log);
      OneMore(world, log, ReadObject(reading));
      OneStep(log, script, k, ReadObject(reading));
      hide On, Off, Step, Produced, ReceiptsIn;
      log := log + [ReadObject(reading)];
    }

    /** Looks where something is meant to go. */
    method LookAt(name: string, ghost script: Script, ghost k: nat) returns (reading: Reading)
      requires Counted() && (On(log, script, k) || (Off(log, script, k) && |log| == k + 1))
      modifies this
      ensures Counted() && log == old(log) + [ReadTarget(name, reading)] && reading == world.showsAt(old(log), name)
      ensures On(old(log), script, k) && Step(script, k).ReadTarget? && Step(script, k).name == name ==>
        if reading == Step(script, k).reading then On(log, script, k + 1) else Off(log, script, k) && |log| == k + 1
      ensures Off(old(log), script, k) ==> Off(log, script, k)
    {
      reading := world.showsAt(log, name);
      OneMore(world, log, ReadTarget(name, reading));
      OneStep(log, script, k, ReadTarget(name, reading));
      hide On, Off, Step, Produced, ReceiptsIn;
      log := log + [ReadTarget(name, reading)];
    }

    method TakeAuthorization(ghost script: Script, ghost k: nat) returns (granted: bool)
      requires Counted() && On(log, script, k) && Step(script, k) == Consume(true)
      modifies this
      ensures Counted() && log == old(log) + [Consume(granted)] && granted == world.grants(old(log))
      ensures if granted then On(log, script, k + 1) else Off(log, script, k)
    {
      granted := world.grants(log);
      OneMore(world, log, Consume(granted));
      OneStep(log, script, k, Consume(granted));
      hide On, Off, Step, Produced, ReceiptsIn;
      log := log + [Consume(granted)];
    }

    method Write(write: Write, ghost script: Script, ghost k: nat) returns (answer: Answer)
      requires Counted() && On(log, script, k) && Step(script, k) == Send(write, SENT)
      modifies this
      ensures Counted() && log == old(log) + [Send(write, answer)] && answer == world.answers(old(log), write)
      ensures if answer == SENT then On(log, script, k + 1) else Off(log, script, k) && |log| == k + 1
    {
      answer := world.answers(log, write);
      OneMore(world, log, Send(write, answer));
      OneStep(log, script, k, Send(write, answer));
      hide On, Off, Step, Produced;
      log := log + [Send(write, answer)];
      if answer.Receipt? {
        receipts := receipts + 1;
      }
    }

    // ------------------------------------------------------------ organization probe

    function Doubt(error: string): Report
      reads `receipts
    {
      Report(Unsure, error, true, Some(receipts))
    }

    /** Timeouts, cancellations and transport errors are caught; anything else is not. */
    function Excuse(raised: Raised, error: string): Report
      reads `receipts
    {
      if raised.OtherError? then Crashed else Doubt(error)
    }

    method OrganizationProbe(script: Script) returns (report: Report, ghost k: nat)
      requires script.Organize? && log == [] && receipts == 0
      modifies this
      ensures if IsSuccess(report) then On(log, script, Length(script)) else k < Length(script) && Off(log, script, k)
      ensures !IsSuccess(report) ==> log != [] && report == StrayReport(script, k, log)
      ensures Produced(world, log)
      ensures IsSuccess(report) ==> report == Report(Succeeded, "", true, Some(ReceiptsIn(log)))
    {
      hide On, Off, ReceiptsIn, SameAsk, Produced, Answers, ProveReport, RestoreReport;
      StartsOn(script);
      var seen := Look(script, 0);
      k := if seen == Original(script) then 1 else 0;
      if seen.ReadRaised? {
        return Excuse(seen.raised, "outcome_unknown"), k;
      }
      var target := LookAt(script.probe, script, k);
      k := if k == 1 && target == Saw(None) then 2 else k;
      if target.ReadRaised? {
        return Excuse(target.raised, "outcome_unknown"), k;
      }
      if seen != Original(script) || target.state.Some? {
        return Report(Blocked, "precondition_changed", false, None), k;
      }
      var granted := TakeAuthorization(script, 2);
      if !granted {
        return Report(Blocked, "authorization_already_consumed", false, None), k;
      }
      report, k := MoveAndRename(script);
      if report.Report? && report.status.Succeeded? {
        report, k := PutBack(script);
      }
    }

    method MoveAndRename(script: Script) returns (report: Report, ghost k: nat)
      requires script.Organize? && Counted() && On(log, script, 3)
      modifies this
      ensures Counted() && if IsSuccess(report) then On(log, script, 7) else 3 <= k < 7 && Off(log, script, k)
      ensures !IsSuccess(report) ==> log != [] && report == StrayReport(script, k, log)
    {
      hide On, Off, ReceiptsIn, SameAsk, Produced, Answers, ProveReport, RestoreReport;
      k := 3;
      var moved := Write(MoveTo(script.id, script.parent), script, 3);
      if moved.WriteRaised? {
        return Excuse(moved.raised, "outcome_unknown"), k;
      }
      if !moved.status.Success? {
        return Doubt("move_unconfirmed"), k;
      }
      k := 4;
      var seen := Look(script, 4);
      if seen.ReadRaised? {
        return Excuse(seen.raised, "outcome_unknown"), k;
      }
      if seen != Original(script) {
        return Doubt("move_postcondition_unconfirmed"), k;
      }
      k := 5;
      var named := Write(RenameTo(script.id, script.probe), script, 5);
      if named.WriteRaised? {
        return Excuse(named.raised, "outcome_unknown"), k;
      }
      if !named.status.Success? {
        return Doubt("rename_unconfirmed"), k;
      }
      k := 6;
      seen := Look(script, 6);
      if seen.ReadRaised? {
        return Excuse(seen.raised, "outcome_unknown"), k;
      }
      if seen != Probe(script) {
        return Doubt("rename_postcondition_unconfirmed"), k;
      }
      return Report(Succeeded, "", true, Some(receipts)), k;
    }

    /** The second half: a new transport with the intent reversed. */
    method PutBack(script: Script) returns (report: Report, ghost k: nat)
      requires script.Organize? && Counted() && On(log, script, 7)
      modifies this
      ensures Counted() && if IsSuccess(report) then On(log, script, Length(script)) else 7 <= k < Length(script) && Off(log, script, k)
      ensures !IsSuccess(report) ==> log != [] && report == StrayReport(script, k, log)
      ensures IsSuccess(report) ==> report == Report(Succeeded, "", true, Some(ReceiptsIn(log)))
    {
      hide On, Off, ReceiptsIn, SameAsk, Produced, Answers, ProveReport, RestoreReport;
      var seen := Look(script, 7);
      k := if seen == Probe(script) then 8 else 7;
      if seen.ReadRaised? {
        return Excuse(seen.raised, "cleanup_outcome_unknown"), k;
      }
      var target := LookAt(script.original, script, k);
      k := if k == 8 && target == Saw(None) then 9 else k;
      if target.ReadRaised? {
        return Excuse(target.raised, "cleanup_outcome_unknown"), k;
      }
      if seen != Probe(script) || target.state.Some? {
        return Doubt("cleanup_precondition_changed"), k;
      }
      report, k := FinishPutBack(script);
    }

    method FinishPutBack(script: Script) returns (report: Report, ghost k: nat)
      requires script.Organize? && Counted() && On(log, script, 9)
      modifies this
      ensures Counted() && if IsSuccess(report) then On(log, script, Length(script)) else 9 <= k < Length(script) && Off(log, script, k)
      ensures !IsSuccess(report) ==> log != [] && report == StrayReport(script, k, log)
      ensures IsSuccess(report) ==> report == Report(Succeeded, "", true, Some(ReceiptsIn(log)))
    {
      hide On, Off, ReceiptsIn, SameAsk, Produced, Answers, ProveReport, RestoreReport;
      k := 9;
      var moved := Write(MoveTo(script.id, script.parent), script, 9);
      if moved.WriteRaised? {
        return Excuse(moved.raised, "cleanup_outcome_unknown"), k;
      }
      var named := Receipt(Organization.Uncertain);
      if moved.status.Success? {
        named := Write(RenameTo(script.id, script.original), script, 10);
        k := if named == SENT then 11 else 10;
        if named.WriteRaised? {
          return Excuse(named.raised, "cleanup_outcome_unknown"), k;
        }
      }
      var seen := Look(script, k);
      if seen.ReadRaised? {
        return Excuse(seen.raised, "cleanup_outcome_unknown"), k;
      }
      if !moved.status.Success? || !named.status.Success? || seen != Original(script) {
        return Doubt("cleanup_unconfirmed"), k;
      }
      return Report(Succeeded, "", true, Some(receipts)), k;
    }

    // --------------------------------------------------------- production write probe

    /** The outermost handlers of the write probe: a cancellation is not among them. */
    function Failure(raised: Raised): Report {
      if raised.Cancelled? then Crashed
      else Report(Unsure, if raised.OtherError? then "probe_failed" else "outcome_unknown", true, None)
    }

    method WriteProbe(script: Script, client: Client) returns (report: Report, ghost k: nat)
      requires script.Prove? && log == [] && receipts == 0
      modifies this
      ensures Produced(world, log)
      ensures if IsSuccess(report) then client.Ready? && On(log, script, Length(script))
              else (k < Length(script) && Off(log, script, k)) || (k == 1 && On(log, script, 1) && !client.Ready?)
      ensures client.Ready? && !IsSuccess(report) ==> log != [] && report == StrayReport(script, k, log)
      ensures !client.Ready? && k == 1 ==>
        report == if client.NoCookie? then Report(Blocked, "credential_unavailable", false, None) else Report(Unsure, "probe_failed", true, None)
      ensures IsSuccess(report) ==> report == Report(Succeeded, "", true, Some(ReceiptsIn(log)))
    {
      hide On, Off, ReceiptsIn, SameAsk, Produced, Answers, OrganizeReport, RestoreReport;
      k := 0;
      StartsOn(script);
      var granted := TakeAuthorization(script, 0);
      if !granted {
        return Report(Blocked, "authorization_already_consumed", false, None), k;
      }
      k := 1;
      if client.NoCookie? {
        return Report(Blocked, "credential_unavailable", false, None), k;
      }
      if client.Fails? {
        return Report(Unsure, "probe_failed", true, None), k;
      }
      var seen := Look(script, 1);
      k := if seen == Original(script) then 2 else 1;
      if seen.ReadRaised? {
        return Failure(seen.raised), k;
      }
      var target := LookAt(script.probe, script, k);
      k := if k == 2 && target == Saw(None) then 3 else k;
      if target.ReadRaised? {
        return Failure(target.raised), k;
      }
      if seen != Original(script) || target.state.Some? {
        return Report(Blocked, "precondition_changed", false, None), k;
      }
      report, k := ProveRename(script);
      if IsSuccess(report) {
        report, k := Unprove(script);
      }
    }

    method ProveRename(script: Script) returns (report: Report, ghost k: nat)
      requires script.Prove? && Counted() && On(log, script, 3)
      modifies this
      ensures Counted() && if IsSuccess(report) then On(log, script, 7) else 3 <= k < 7 && Off(log, script, k)
      ensures !IsSuccess(report) ==> log != [] && report == StrayReport(script, k, log)
    {
      hide On, Off, ReceiptsIn, SameAsk, Produced, Answers, OrganizeReport, RestoreReport;
      k := 3;
      var moved := Write(MoveTo(script.id, script.parent), script, 3);
      if moved.WriteRaised? {
        return Failure(moved.raised), k;
      }
      if !moved.status.Success? {
        return Report(Unsure, "move_unconfirmed", true, None), k;
      }
      k := 4;
      var seen := Look(script, 4);
      if seen.ReadRaised? {
        return Failure(seen.raised), k;
      }
      if seen != Original(script) {
        return Report(Unsure, "move_postcondition_unconfirmed", true, None), k;
      }
      k := 5;
      var named := Write(RenameTo(script.id, script.probe), script, 5);
      if named.WriteRaised? {
        return Failure(named.raised), k;
      }
      k := if named == SENT then 6 else 5;
      seen := Look(script, k);
      if seen.ReadRaised? {
        return Failure(seen.raised), k;
      }
      if !named.status.Success? || seen != Probe(script) {
        if seen == Original(script) {
          return Report(NotApplied, "rename_not_applied", true, None), k;
        }
        return Report(Unsure, "rename_postcondition_unconfirmed", true, None), k;
      }
      return Report(Succeeded, "", true, None), k;
    }

    method Unprove(script: Script) returns (report: Report, ghost k: nat)
      requires script.Prove? && Counted() && On(log, script, 7)
      modifies this
      ensures Counted() && if IsSuccess(report) then On(log, script, Length(script)) else 7 <= k < Length(script) && Off(log, script, k)
      ensures !IsSuccess(report) ==> log != [] && report == StrayReport(script, k, log)
      ensures IsSuccess(report) ==> report == Report(Succeeded, "", true, Some(ReceiptsIn(log)))
    {
      hide On, Off, ReceiptsIn, SameAsk, Produced, Answers, OrganizeReport, RestoreReport;
      var seen := Look(script, 7);
      k := if seen == Probe(script) then 8 else 7;
      if seen.ReadRaised? {
        return Failure(seen.raised), k;
      }
      var target := LookAt(script.original, script, k);
      k := if k == 8 && target == Saw(None) then 9 else k;
      if target.ReadRaised? {
        return Failure(target.raised), k;
      }
      if seen != Probe(script) || target.state.Some? {
        return Report(Unsure, "cleanup_precondition_changed", true, None), k;
      }
      var named := Write(RenameTo(script.id, script.original), script, 9);
      if named.WriteRaised? {
        return Failure(named.raised), k;
      }
      k := if named == SENT then 10 else 9;
      seen := Look(script, k);
      if seen.ReadRaised? {
        return Failure(seen.raised), k;
      }
      if !named.status.Success? || seen != Original(script) {
        return Report(Unsure, "cleanup_unconfirmed", true, None), k;
      }
      return Report(Succeeded, "", true, Some(receipts)), k;
    }

    // ---------------------------------------------------------------------- restore

    /** Before its one write, the restore calls an unexpected exception a block. */
    function Stop(raised: Raised): Report {
      if raised.OtherError? then Report(Blocked, "restore_failed", false, None)
      else Report(Unsure, "outcome_unknown", true, None)
    }

    method RestoreProbe(script: Script) returns (report: Report, ghost k: nat)
      requires script.Restore? && log == [] && receipts == 0
      modifies this
      ensures Produced(world, log)
      ensures if IsSuccess(report) then On(log, script, Length(script)) else k < Length(script) && Off(log, script, k)
      ensures !IsSuccess(report) ==> log != [] && report == StrayReport(script, k, log)
      ensures IsSuccess(report) ==> report == Report(Succeeded, "", true, Some(ReceiptsIn(log)))
    {
      hide On, Off, ReceiptsIn, SameAsk, Produced, Answers, OrganizeReport, ProveReport;
      StartsOn(script);
      var seen := Look(script, 0);
      k := if seen == Probe(script) then 1 else 0;
      if seen.ReadRaised? {
        return Stop(seen.raised), k;
      }
      var target := LookAt(script.original, script, k);
      k := if k == 1 && target == Saw(None) then 2 else k;
      if target.ReadRaised? {
        return Stop(target.raised), k;
      }
      if seen != Probe(script) || target.state.Some? {
        return Report(Blocked, "restore_precondition_changed", false, None), k;
      }
      var granted := TakeAuthorization(script, 2);
      if !granted {
        return Report(Blocked, "authorization_already_consumed", false, None), k;
      }
      k := 3;
      var named := Write(RenameTo(script.id, script.original), script, 3);
      if named.WriteRaised? {
        return Report(Unsure, "restore_outcome_unknown", true, None), k;
      }
      if !named.status.Success? {
        return Report(Unsure, "restore_receipt_unconfirmed", true, None), k;
      }
      k := 4;
      seen := Look(script, 4);
      if seen.ReadRaised? || seen != Original(script) {
        return Report(Unsure, "restore_postcondition_unconfirmed", true, None), k;
      }
      return Report(Succeeded, "", true, Some(receipts)), k;
    }
  }

  /** After the gate the cookie is read again and the client is built. */
  datatype Client = Ready | NoCookie | Fails

  lemma StartsOn(script: Script)
    ensures On([], script, 0) && ReceiptsIn([]) == 0
    ensures forall world :: Produced(world, [])
  {
  }

  // ------------------------------------------------------------- what the logs tell

  predicate Sends(log: Log) {
    exists i | 0 <= i < |log| :: log[i].Send?
  }

  /** No report says that no write was started when one was sent, and the restore never ends
      without a report. */
  lemma NothingDenied(log: Log, script: Script, k: nat)
    requires Off(log, script, k) && k < Length(script)
    ensures
      var report := StrayReport(script, k, log);
      && (report.Report? && !report.writeStarted ==> !Sends(log))
      && (script.Restore? ==> report.Report?)
  {
    var report := StrayReport(script, k, log);
    if report.Report? && !report.writeStarted {
      assert k <= (if script.Prove? then 2 else Gate(script));
      forall i | 0 <= i < |log| ensures !log[i].Send? {
        assert i < k ==> log[i] == Step(script, i);
      }
    }
  }

  /** A successful run last saw what it first saw, or what was recorded; all its writes were
      confirmed, and concern its object and its two names only. */
  lemma SuccessIsRestored(log: Log, script: Script)
    requires On(log, script, Length(script))
    ensures log[|log| - 1] == ReadObject(Original(script))
    ensures !script.Restore? ==> ReadObject(Original(script)) in log[..3]
    ensures ReceiptsIn(log) == if script.Organize? then 4 else if script.Prove? then 3 else 1
  {
    ReceiptsOf(log, script, Length(script));
    if script.Organize? {
      assert log[..3][0] == Step(script, 0);
    } else if script.Prove? {
      assert log[..3][1] == Step(script, 1);
    }
  }

  function ReceiptsAt(script: Script, k: nat): nat {
    if script.Organize? then (if k > 3 then 1 else 0) + (if k > 5 then 1 else 0) + (if k > 9 then 1 else 0) + (if k > 10 then 1 else 0)
    else if script.Prove? then (if k > 3 then 1 else 0) + (if k > 5 then 1 else 0) + (if k > 9 then 1 else 0)
    else if k > 3 then 1 else 0
  }

  lemma {:induction false} ReceiptsOf(log: Log, script: Script, k: nat)
    requires On(log, script, k) && k <= Length(script)
    ensures ReceiptsIn(log) == ReceiptsAt(script, k)
  {
    if k > 0 {
      ReceiptsOf(log[..k - 1], script, k - 1);
      assert log[k - 1] == Step(script, k - 1);
    }
  }

  predicate OwnWrite(script: Script, write: Write) {
    match write
    case MoveTo(id, parent) => id == script.id && parent == script.parent
    case RenameTo(id, name) => id == script.id && name in {script.original, script.probe}
  }

  /** Whatever happens, writes come after the authorization was granted, which is asked for at
      most once, and touch only the run's own object and names. */
  lemma WritesAreGated(log: Log, script: Script, k: nat)
    requires (Off(log, script, k) && k < Length(script)) || (On(log, script, k) && k <= Length(script))
    ensures Gated(log)
    ensures forall i | 0 <= i < |log| && log[i].Send? :: OwnWrite(script, log[i].write)
    ensures forall i, j | 0 <= i < j < |log| :: !(log[i].Consume? && log[j].Consume?)
  {
    var gate := Gate(script);
    forall i | 0 <= i < |log| && log[i].Send? ensures i > gate && log[gate] == Consume(true) && OwnWrite(script, log[i].write) {
      assert SameAsk(log[i], Step(script, i));
      assert gate < k;
    }
    forall i, j | 0 <= i < j < |log| ensures !(log[i].Consume? && log[j].Consume?) {
      assert log[i].Consume? ==> SameAsk(log[i], Step(script, i));
      assert log[j].Consume? ==> SameAsk(log[j], Step(script, j));
    }
  }

  ghost predicate Gated(log: Log) {
    forall i | 0 <= i < |log| && log[i].Send? :: exists j | 0 <= j < i :: log[j] == Consume(true)
  }

  // -------------------------------------------------- many runs, one authorization

  /** What all runs did, in the order they did it. */
  datatype Act = Act(run: nat, event: Event)

  function LogOf(history: seq<Act>, run: nat): Log {
    if history == [] then []
    else
      var last := history[|history| - 1];
      LogOf(history[..|history| - 1], run) + if last.run == run then [last.event] else []
  }

  /** The marker is created exclusively: a grant finds no marker and leaves one, and markers are
      not taken away. */
  ghost predicate Exclusive(history: seq<Act>, marker: nat -> bool) {
    && (forall i: nat | i < |history| && marker(i) :: marker(i + 1))
    && (forall i: nat | i < |history| && history[i].event == Consume(true) :: Creates(marker, i))
  }

  ghost predicate Creates(marker: nat -> bool, i: nat) {
    !marker(i) && marker(i + 1)
  }

  lemma {:induction false} MarkerStays(history: seq<Act>, marker: nat -> bool, i: nat, j: nat)
    requires Exclusive(history, marker) && i <= j <= |history| && marker(i)
    ensures marker(j)
    decreases j
  {
    if i < j {
      MarkerStays(history, marker, i, j - 1);
    }
  }

  lemma GrantedOnce(history: seq<Act>, marker: nat -> bool, a: nat, b: nat)
    requires Exclusive(history, marker) && a < |history| && b < |history|
    requires history[a].event == history[b].event == Consume(true)
    ensures a >= b
  {
    assert Creates(marker, a) && Creates(marker, b);
    if a < b {
      MarkerStays(history, marker, a + 1, b);
      assert false;
    }
  }

  lemma {:induction false} GrantIsInHistory(history: seq<Act>, run: nat) returns (i: nat)
    requires Consume(true) in LogOf(history, run)
    ensures i < |history| && history[i] == Act(run, Consume(true))
  {
    var last := history[|history| - 1];
    if last == Act(run, Consume(true)) {
      i := |history| - 1;
    } else {
      i := GrantIsInHistory(history[..|history| - 1], run);
    }
  }

  lemma {:induction false} EventIsInLog(history: seq<Act>, i: nat)
    requires i < |history|
    ensures history[i].event in LogOf(history, history[i].run)
  {
    if i < |history| - 1 {
      EventIsInLog(history[..|history| - 1], i);
    }
  }

  lemma WriterWasGranted(history: seq<Act>, i: nat) returns (j: nat)
    requires i < |history| && history[i].event.Send? && Gated(LogOf(history, history[i].run))
    ensures j < |history| && history[j] == Act(history[i].run, Consume(true))
  {
    EventIsInLog(history, i);
    j := GrantIsInHistory(history, history[i].run);
  }

  /** However runs that share one authorization interleave, only one of them ever writes. */
  lemma OneWriter(history: seq<Act>, marker: nat -> bool, i: nat, j: nat)
    requires Exclusive(history, marker) && forall run: nat :: Gated(LogOf(history, run))
    requires i < |history| && j < |history| && history[i].event.Send? && history[j].event.Send?
    ensures history[i].run == history[j].run
  {
    hide LogOf, Gated;
    var a := WriterWasGranted(history, i);
    var b := WriterWasGranted(history, j);
    GrantedOnce(history, marker, a, b);
    GrantedOnce(history, marker, b, a);
  }

  /** A log as each of the three runs leaves it, wherever it has got to: on its script, or off it
      after an unexpected answer. */
  ghost predicate Scripted(log: Log, script: Script) {
    exists k: nat :: k <= Length(script) && (On(log, script, k) || (Off(log, script, k) && k < Length(script)))
  }

  /** So whatever the remotes answer, of any number of runs that follow their scripts, interleaved
      in any way under one authorization, only one ever writes. */
  lemma ScriptedRunsHaveOneWriter(history: seq<Act>, marker: nat -> bool, scripts: nat -> Script, i: nat, j: nat)
    requires Exclusive(history, marker) && forall run: nat :: Scripted(LogOf(history, run), scripts(run))
    requires i < |history| && j < |history| && history[i].event.Send? && history[j].event.Send?
    ensures history[i].run == history[j].run
  {
    hide LogOf, On, Off, Gated, Exclusive;
    forall run: nat ensures Gated(LogOf(history, run)) {
      assert Scripted(LogOf(history, run), scripts(run));
      var k: nat :| k <= Length(scripts(run))
        && (On(LogOf(history, run), scripts(run), k) || (Off(LogOf(history, run), scripts(run), k) && k < Length(scripts(run))));
      WritesAreGated(LogOf(history, run), scripts(run), k);
    }
    OneWriter(history, marker, i, j);
  }

  // ------------------------------------------------------------------- an honest world

  /** The name the object has after all that was sent. */
  function NameAfter(start: string, log: Log): string {
    if log == [] then start
    else
      var last := log[|log| - 1];
      if last.Send? && last.write.RenameTo? then last.write.name else NameAfter(start, log[..|log| - 1])
  }

  /** Writes are carried out and answered, the object is shown as it is, nothing else stands at
      the names in question, and the authorization is fresh. */
  ghost predicate Honest(world: World, script: Script) {
    var start := if script.Restore? then script.probe else script.original;
    && script.original != script.probe
    && forall log: Log ::
      && world.shows(log) == At(script.id, script.parent, NameAfter(start, log))
      && (forall name | name != NameAfter(start, log) :: world.showsAt(log, name) == Saw(None))
      && (forall write :: world.answers(log, write) == SENT)
      && ((forall i | 0 <= i < |log| :: !log[i].Consume?) ==> world.grants(log))
  }

  lemma HonestWorldExists(script: Script)
    requires script.original != script.probe
    ensures exists world :: Honest(world, script)
  {
    hide NameAfter, At;
    var start := if script.Restore? then script.probe else script.original;
    var world := World(
      log => At(script.id, script.parent, NameAfter(start, log)),
      (log, name) => if name == NameAfter(start, log) then At(script.id, script.parent, name) else Saw(None),
      (log: Log) => forall i | 0 <= i < |log| :: !log[i].Consume?,
      (log, write) => SENT);
    assert Honest(world, script);
  }

  function NameAt(script: Script, k: nat): string {
    if script.Restore? then (if k > 3 then script.original else script.probe)
    else if k > (if script.Organize? then 10 else 9) then script.original
    else if k > 5 then script.probe
    else script.original
  }

  lemma {:induction false} NameFollows(log: Log, script: Script, k: nat)
    requires On(log, script, k) && k <= Length(script)
    ensures NameAfter(if script.Restore? then script.probe else script.original, log) == NameAt(script, k)
  {
    if k > 0 {
      NameFollows(log[..k - 1], script, k - 1);
      assert log[k - 1] == Step(script, k - 1);
    }
  }

  /** In an honest world no run strays from its script: it succeeds, and the name it leaves is
      the original one. */
  lemma HonestRunSucceeds(world: World, script: Script, log: Log, k: nat)
    requires Honest(world, script) && Produced(world, log) && k < Length(script)
    ensures !Off(log, script, k)
    ensures On(log, script, Length(script)) ==> NameAfter(if script.Restore? then script.probe else script.original, log) == script.original
  {
    if On(log, script, Length(script)) {
      NameFollows(log, script, Length(script));
    }
    if Off(log, script, k) {
      var before := log[..k];
      assert On(before, script, k);
      NameFollows(before, script, k);
      assert Answers(world, before, log[k]);
      HonestAnswer(world, script, before, k, log[k]);
    }
  }

  lemma HonestAnswer(world: World, script: Script, before: Log, k: nat, e: Event)
    requires Honest(world, script) && On(before, script, k) && k < Length(script)
    requires NameAfter(if script.Restore? then script.probe else script.original, before) == NameAt(script, k)
    requires Answers(world, before, e) && SameAsk(e, Step(script, k))
    ensures e == Step(script, k)
  {
    hide NameAfter;
    if e.Consume? {
      assert forall i | 0 <= i < k :: before[i] == Step(script, i);
      assert world.grants(before);
    }
  }
}
