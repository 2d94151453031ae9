/**
  The offline organization transport: moves and renames of approved objects between their
  source and their target, and nothing else.  However the calls of a plan are interleaved, the
  objects end where the plan says, and the reversed plan brings them back.
 */
module Organization {
  import opened Wrappers
  import opened Decimals

  datatype Intent = Intent(objectId: string, sourceParent: string, sourceName: string, targetParent: string, targetName: string)

  datatype ObjectState = ObjectState(objectId: string, parent: string, name: string)

  type States = map<string, ObjectState>

  predicate SafeName(s: string) {
    0 < |s| <= 255 && '\0' !in s && '/' !in s && '\\' !in s && s != "." && s != ".."
  }

  predicate ValidIntent(i: Intent) {
    && Stable(i.objectId) && Stable(i.sourceParent) && Stable(i.targetParent)
    && SafeName(i.sourceName) && SafeName(i.targetName)
  }

  datatype Operation = ReadObjectCall | ReadTargetCall | MoveCall | RenameCall

  datatype Status = Success | Failed | Uncertain

  datatype Code = NoCode | RemoteFailed | TimedOut | OutcomeUnknown

  /** An outcome planted for an operation on an object or, for target reads, on a parent. */
  datatype Planted =
    | Seen(state: Option<ObjectState>) | Answered(operation: Operation, status: Status, timeout: bool) | Junk
    | RaisesCancelled | RaisesTimeout | RaisesOther

  datatype Reply =
    | Done(status: Status, code: Code)
    | ScopeUnverified | ObservationUnverified | Unknown | Cancelled | Timeout

  datatype Reading = Read(state: Option<ObjectState>) | Refused(reply: Reply)

  datatype Scope = Scope(
    plan: map<string, Intent>,
    managed: set<string>,
    confirmed: bool,
    planted: map<(Operation, string), Planted>)

  function Target(i: Intent): (string, string) {
    (i.targetParent, i.targetName)
  }

  function Source(i: Intent): (string, string) {
    (i.sourceParent, i.sourceName)
  }

  /** What the constructor accepts: distinct objects with distinct targets, inside the managed
      directories. */
  ghost predicate Valid(sc: Scope) {
    && sc.plan != map[] && sc.managed != {}
    && (forall id | id in sc.plan :: sc.plan[id].objectId == id && ValidIntent(sc.plan[id]))
    && (forall id | id in sc.managed :: Stable(id))
    && (forall id | id in sc.plan :: sc.plan[id].sourceParent in sc.managed && sc.plan[id].targetParent in sc.managed)
    && (forall a, b | a in sc.plan && b in sc.plan && a != b :: Target(sc.plan[a]) != Target(sc.plan[b]))
  }

  predicate ValidStates(states: States) {
    forall id | id in states :: Stable(id) && states[id].objectId == id
  }

  // -------------------------------------------------------------- what a call does

  datatype Call =
    | ReadObject(id: string) | ReadTarget(parent: string, name: string)
    | Move(id: string, target: string) | Rename(id: string, newName: string)

  predicate ValidObservation(sc: Scope, state: ObjectState, i: Intent) {
    && state.objectId == i.objectId && state.parent in {i.sourceParent, i.targetParent}
    && state.parent in sc.managed && state.name in {i.sourceName, i.targetName}
  }

  /** Within the approved plan, and not answered by a planted outcome. */
  predicate Moves(sc: Scope, call: Call, id: string) {
    && call.Move? && call.id == id && sc.confirmed && id in sc.plan
    && call.target == sc.plan[id].targetParent && (MoveCall, id) !in sc.planted
  }

  predicate Renames(sc: Scope, call: Call, id: string) {
    && call.Rename? && call.id == id && sc.confirmed && id in sc.plan
    && call.newName == sc.plan[id].targetName && (RenameCall, id) !in sc.planted
  }

  predicate Found(sc: Scope, states: States, id: string)
    requires id in sc.plan
  {
    id in states && ValidObservation(sc, states[id], sc.plan[id])
  }

  function AfterCall(sc: Scope, states: States, call: Call): States {
    if call.Move? && Moves(sc, call, call.id) && Found(sc, states, call.id) && states[call.id].parent == sc.plan[call.id].sourceParent
    then states[call.id := states[call.id].(parent := sc.plan[call.id].targetParent)]
    else if call.Rename? && Renames(sc, call, call.id) && Found(sc, states, call.id) && states[call.id].parent == sc.plan[call.id].targetParent
    then states[call.id := states[call.id].(name := sc.plan[call.id].targetName)]
    else states
  }

  function After(sc: Scope, states: States, calls: seq<Call>): States {
    if calls == [] then states else AfterCall(sc, After(sc, states, calls[..|calls| - 1]), calls[|calls| - 1])
  }

  // ------------------------------------------------------------ where the objects end

  predicate EverMoved(sc: Scope, calls: seq<Call>, id: string) {
    exists k | 0 <= k < |calls| :: Moves(sc, calls[k], id)
  }

  /** A rename counts once the object is where it belongs. */
  predicate EverRenamed(sc: Scope, calls: seq<Call>, id: string)
    requires id in sc.plan
  {
    exists k | 0 <= k < |calls| ::
      Renames(sc, calls[k], id) && (sc.plan[id].sourceParent == sc.plan[id].targetParent || EverMoved(sc, calls[..k], id))
  }

  predicate AtSource(sc: Scope, states: States) {
    forall id | id in sc.plan :: id in states && states[id] == ObjectState(id, sc.plan[id].sourceParent, sc.plan[id].sourceName)
  }

  predicate AtTarget(sc: Scope, states: States) {
    forall id | id in sc.plan :: id in states && states[id] == ObjectState(id, sc.plan[id].targetParent, sc.plan[id].targetName)
  }

  function EndOf(sc: Scope, calls: seq<Call>, id: string): ObjectState
    requires id in sc.plan
  {
    var i := sc.plan[id];
    ObjectState(id, if EverMoved(sc, calls, id) then i.targetParent else i.sourceParent,
                if EverRenamed(sc, calls, id) then i.targetName else i.sourceName)
  }

  lemma OneMoreCall(sc: Scope, calls: seq<Call>, call: Call, id: string)
    requires id in sc.plan
    ensures EverMoved(sc, calls + [call], id) <==> EverMoved(sc, calls, id) || Moves(sc, call, id)
    ensures EverRenamed(sc, calls + [call], id) <==>
      || EverRenamed(sc, calls, id)
      || (Renames(sc, call, id) && (sc.plan[id].sourceParent == sc.plan[id].targetParent || EverMoved(sc, calls, id)))
  {
    var all := calls + [call];
    assert all[|calls|] == call && all[..|calls|] == calls;
    assert forall k | 0 <= k < |calls| :: all[k] == calls[k] && all[..k] == calls[..k];
  }

  /** In every run of calls, in any order, with any repeats and any refusals between them: an
      object is at its target parent if it was ever moved, and has its target name if it was
      renamed after that; nothing else changes. */
  lemma {:induction false} WhereverTheyEnd(sc: Scope, states: States, calls: seq<Call>)
    requires Valid(sc) && AtSource(sc, states)
    ensures
      var ended := After(sc, states, calls);
      && ended.Keys == states.Keys
      && (forall id | id in states && id !in sc.plan :: ended[id] == states[id])
      && (forall id | id in sc.plan :: ended[id] == EndOf(sc, calls, id))
  {
    if calls != [] {
      var init, last := calls[..|calls| - 1], calls[|calls| - 1];
      assert calls == init + [last];
      WhereverTheyEnd(sc, states, init);
      hide Moves, Renames, EverMoved, EverRenamed, Valid;
      forall id | id in sc.plan ensures After(sc, states, calls)[id] == EndOf(sc, calls, id) {
        OneMoreCall(sc, init, last, id);
        OneCallEnds(sc, After(sc, states, init), init, last, id);
      }
    }
  }

  lemma OneCallEnds(sc: Scope, states: States, calls: seq<Call>, call: Call, id: string)
    requires Valid(sc) && id in sc.plan && id in states && states[id] == EndOf(sc, calls, id)
    ensures id in AfterCall(sc, states, call) && AfterCall(sc, states, call)[id] == EndOf(sc, calls + [call], id)
  {
    hide EverMoved, EverRenamed;
    OneMoreCall(sc, calls, call, id);
  }

  /** Each object's move comes before its rename. */
  predicate Carried(sc: Scope, calls: seq<Call>) {
    forall id | id in sc.plan ::
      exists k, l | 0 <= k < l < |calls| :: Moves(sc, calls[k], id) && Renames(sc, calls[l], id)
  }

  /** Any interleaving of a plan's moves and renames that moves each object before renaming it
      ends in the same state: everything at its own target. */
  lemma AnyOrderArrives(sc: Scope, states: States, calls: seq<Call>)
    requires Valid(sc) && AtSource(sc, states) && Carried(sc, calls)
    ensures AtTarget(sc, After(sc, states, calls))
    ensures After(sc, states, calls).Keys == states.Keys
    ensures forall id | id in states && id !in sc.plan :: After(sc, states, calls)[id] == states[id]
  {
    hide After, Valid, Carried, EverMoved, EverRenamed;
    WhereverTheyEnd(sc, states, calls);
    forall id | id in sc.plan ensures EverMoved(sc, calls, id) && EverRenamed(sc, calls, id) {
      CarriedObject(sc, calls, id);
    }
  }

  lemma CarriedObject(sc: Scope, calls: seq<Call>, id: string)
    requires Carried(sc, calls) && id in sc.plan
    ensures EverMoved(sc, calls, id) && EverRenamed(sc, calls, id)
  {
    var k, l :| 0 <= k < l < |calls| && Moves(sc, calls[k], id) && Renames(sc, calls[l], id);
    assert calls[..l][k] == calls[k];
  }

  // -------------------------------------------------------------------- the way back

  function Reversed(i: Intent): Intent {
    Intent(i.objectId, i.targetParent, i.targetName, i.sourceParent, i.sourceName)
  }

  function Back(sc: Scope): Scope {
    Scope(map id | id in sc.plan :: Reversed(sc.plan[id]), sc.managed, sc.confirmed, map[])
  }

  /** The way back can be approved exactly when no two objects came from one place. */
  lemma BackIsValid(sc: Scope)
    requires Valid(sc)
    ensures Valid(Back(sc)) <==>
      forall a, b | a in sc.plan && b in sc.plan && a != b :: Source(sc.plan[a]) != Source(sc.plan[b])
  {
    var back := Back(sc);
    assert back.plan.Keys == sc.plan.Keys;
    var id :| id in sc.plan;
    assert id in back.plan;
    assert forall a | a in sc.plan :: Target(back.plan[a]) == Source(sc.plan[a]);
    hide SafeName, Stable;
  }

  /** Carried out and carried back, the store is as it was. */
  lemma ThereAndBack(sc: Scope, states: States, calls: seq<Call>, back: seq<Call>)
    requires Valid(sc) && Valid(Back(sc)) && AtSource(sc, states)
    requires Carried(sc, calls) && Carried(Back(sc), back)
    ensures After(Back(sc), After(sc, states, calls), back) == states
  {
    hide Valid, Carried, After;
    AnyOrderArrives(sc, states, calls);
    AnyOrderArrives(Back(sc), After(sc, states, calls), back);
  }

  // ------------------------------------------------------------------- the transport

  class OfflineTransport {
    const scope: Scope
    var states: States
    var calls: seq<Operation>

    constructor (scope: Scope, states: States)
      requires Valid(scope) && ValidStates(states)
      ensures this.scope == scope && this.states == states && calls == []
    {
      this.scope, this.states, calls := scope, states, [];
    }

    predicate Covers(id: string) {
      scope.confirmed && Stable(id) && id in scope.plan
    }

    /** A planted write outcome stands in for the write. */
    function PlantedReply(operation: Operation, planted: Planted): (reply: Reply)
      ensures reply.Done? && reply.status.Success? <==> planted.Answered? && planted.operation == operation && planted.status.Success?
    {
      match planted
      case RaisesCancelled => Cancelled
      case RaisesTimeout => Timeout
      case RaisesOther => Unknown
      case Answered(op, status, timeout) =>
        if op != operation then Done(Uncertain, OutcomeUnknown)
        else if status.Success? then Done(Success, NoCode)
        else if status.Failed? then Done(Failed, RemoteFailed)
        else Done(Uncertain, if timeout then TimedOut else OutcomeUnknown)
      case _ => Done(Uncertain, OutcomeUnknown)
    }

    method Move(id: string, target: string) returns (reply: Reply)
      requires Valid(scope)
      modifies this
      ensures states == AfterCall(scope, old(states), Call.Move(id, target))
      ensures reply.ScopeUnverified? <==> !(Covers(id) && target == scope.plan[id].targetParent)
      ensures calls == if reply.ScopeUnverified? then old(calls) else old(calls) + [MoveCall]
      ensures !reply.ScopeUnverified? && (MoveCall, id) in scope.planted ==>
        states == old(states) && reply == PlantedReply(MoveCall, scope.planted[(MoveCall, id)])
      ensures !reply.ScopeUnverified? && (MoveCall, id) !in scope.planted ==>
        && reply.Done?
        && (reply.status.Success? <==> Found(scope, old(states), id) && old(states)[id].parent == scope.plan[id].sourceParent)
        && (!reply.status.Success? ==> reply == Done(Uncertain, OutcomeUnknown) && states == old(states))
    {
      if !Covers(id) || target != scope.plan[id].targetParent {
        return ScopeUnverified;
      }
      var intent := scope.plan[id];
      calls := calls + [MoveCall];
      if (MoveCall, id) in scope.planted {
        return PlantedReply(MoveCall, scope.planted[(MoveCall, id)]);
      }
      if id !in states || !ValidObservation(scope, states[id], intent) || states[id].parent != intent.sourceParent {
        return Done(Uncertain, OutcomeUnknown);
      }
      states := states[id := ObjectState(id, intent.targetParent, states[id].name)];
      return Done(Success, NoCode);
    }

    method Rename(id: string, newName: string) returns (reply: Reply)
      requires Valid(scope)
      modifies this
      ensures states == AfterCall(scope, old(states), Call.Rename(id, newName))
      ensures reply.ScopeUnverified? <==> !(Covers(id) && newName == scope.plan[id].targetName)
      ensures calls == if reply.ScopeUnverified? then old(calls) else old(calls) + [RenameCall]
      ensures !reply.ScopeUnverified? && (RenameCall, id) in scope.planted ==>
        states == old(states) && reply == PlantedReply(RenameCall, scope.planted[(RenameCall, id)])
      ensures !reply.ScopeUnverified? && (RenameCall, id) !in scope.planted ==>
        && reply.Done?
        && (reply.status.Success? <==> Found(scope, old(states), id) && old(states)[id].parent == scope.plan[id].targetParent)
        && (!reply.status.Success? ==> reply == Done(Uncertain, OutcomeUnknown) && states == old(states))
    {
      if !Covers(id) || newName != scope.plan[id].targetName {
        return ScopeUnverified;
      }
      var intent := scope.plan[id];
      calls := calls + [RenameCall];
      if (RenameCall, id) in scope.planted {
        return PlantedReply(RenameCall, scope.planted[(RenameCall, id)]);
      }
      if id !in states || !ValidObservation(scope, states[id], intent) || states[id].parent != intent.targetParent {
        return Done(Uncertain, OutcomeUnknown);
      }
      states := states[id := ObjectState(id, states[id].parent, intent.targetName)];
      return Done(Success, NoCode);
    }

    /** What a read finds: the planted outcome, or the store. */
    method ReadObject(id: string) returns (reading: Reading)
      modifies `calls
      ensures reading == Refused(ScopeUnverified) <==> !Covers(id)
      ensures calls == if Covers(id) then old(calls) + [ReadObjectCall] else old(calls)
      ensures reading.Read? && reading.state.Some? ==> ValidObservation(scope, reading.state.value, scope.plan[id])
      ensures Covers(id) && (ReadObjectCall, id) !in scope.planted ==>
        reading == if id !in states then Read(None)
                   else if Found(scope, states, id) then Read(Some(states[id])) else Refused(ObservationUnverified)
    {
      if !Covers(id) {
        return Refused(ScopeUnverified);
      }
      calls := calls + [ReadObjectCall];
      var state := if id in states then Some(states[id]) else None;
      if (ReadObjectCall, id) in scope.planted {
        match scope.planted[(ReadObjectCall, id)]
        case RaisesCancelled => return Refused(Cancelled);
        case RaisesTimeout => return Refused(Timeout);
        case RaisesOther => return Refused(Unknown);
        case Seen(s) => state := s;
        case _ => return Refused(ObservationUnverified);
      }
      if state.Some? && !ValidObservation(scope, state.value, scope.plan[id]) {
        return Refused(ObservationUnverified);
      }
      return Read(state);
    }

    /** The objects that stand where something is meant to go. */
    function Standing(parent: string, name: string): set<string>
      reads `states
    {
      set id | id in states && states[id].parent == parent && states[id].name == name
    }

    method ReadTarget(parent: string, name: string) returns (reading: Reading)
      requires Valid(scope)
      modifies `calls
      ensures reading == Refused(ScopeUnverified) <==>
        !(scope.confirmed && exists id | id in scope.plan :: Target(scope.plan[id]) == (parent, name))
      ensures calls == if reading == Refused(ScopeUnverified) then old(calls) else old(calls) + [ReadTargetCall]
      ensures reading.Read? && reading.state.Some? ==>
        reading.state.value.parent == parent && reading.state.value.name == name && parent in scope.managed
      ensures reading != Refused(ScopeUnverified) && (ReadTargetCall, parent) !in scope.planted ==>
        && (reading == Read(None) <==> Standing(parent, name) == {})
        && (reading.Read? && reading.state.Some? ==> exists id :: Standing(parent, name) == {id} && reading.state.value == states[id])
        && (reading.Refused? <==> |Standing(parent, name)| > 1)
    {
      if !(scope.confirmed && exists id | id in scope.plan :: Target(scope.plan[id]) == (parent, name)) {
        return Refused(ScopeUnverified);
      }
      calls := calls + [ReadTargetCall];
      if (ReadTargetCall, parent) in scope.planted {
        match scope.planted[(ReadTargetCall, parent)]
        case RaisesCancelled => return Refused(Cancelled);
        case RaisesTimeout => return Refused(Timeout);
        case RaisesOther => return Refused(Unknown);
        case Seen(state) =>
          return if state.None? || (state.value.parent == parent && state.value.name == name) then Read(state)
                 else Refused(ObservationUnverified);
        case _ => return Refused(ObservationUnverified);
      }
      var standing := Standing(parent, name);
      if standing == {} {
        return Read(None);
      }
      var id :| id in standing;
      assert standing == {id} + (standing - {id});
      if |standing| > 1 {
        return Refused(ObservationUnverified);
      }
      assert standing - {id} == {};
      return Read(Some(states[id]));
    }
  }
}
