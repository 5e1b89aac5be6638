/** Which steps may move an Input or a compaction from one status to another: all other moves never happen. */
module SessionLifecycle {
  import opened Wrappers
  import opened SessionState
  import opened SessionSteps
  import opened SessionQuiet
  import opened SessionTurns
  import opened SessionQueue

  /** The engine itself says that a run has reached a status. */
  predicate Reports(payload: Payload, status: Status) {
    match status
    case Accepted => payload == InputAccepted(EngineEvidence)
    case Started => payload == ExecutionStarted(EngineEvidence)
    case Completed => payload == ExecutionCompleted(EngineEvidence)
    case Failed => payload == ExecutionFailed(EngineEvidence)
    case Stopped => payload == ExecutionStopped(EngineEvidence)
    case _ => false
  }

  /** An event of the run of Input `i`. */
  predicate EventOf(a: Action, i: Id) {
    a.Delivering? && a.id == i
  }

  /** The engine reconciles the Input, or the Execution of the Input, to a status. */
  predicate Reconciles(t: Turns, a: Action, i: Id, status: Status) {
    || (a.ReconcilingInput? && a.id == i && a.status == status && a.evidence.EngineEvidence?)
    || (a.ReconcilingExecution? && a.execution in t.executions && t.executions[a.execution].input == i
        && a.status == status && a.evidence.EngineEvidence?)
  }

  /** Steps in which queued Inputs are rejected. */
  predicate Ejects(a: Action) {
    a.Draining? || a.CallingEngine? || a.FailingDispatch? || a.Delivering? || a.EndingStream? || a.Freezing?
    || (a.Closing? && a.abandoned)
  }

  /** The step may move Input `i` from one status to another one. */
  predicate MayBecome(t: Turns, a: Action, i: Id, before: Status, after: Status) {
    match after
    case Queued => false
    case Received => before.Queued? && a.Draining?
    case Cancelled => before.Queued? && (a.Cancelling? || a.Withdrawing?) && a.id == i
    case Rejected =>
      || (before.Queued? && Ejects(a))
      || (before.Received? && a.CallingEngine? && a.id == i)
      || (before.Received? && a.FailingDispatch? && a.id == i && a.harmless)
    case Unknown =>
      || (Dispatched(before) && (a.Restarting? || EventOf(a, i) || (a.EndingStream? && a.id == i)))
      || (before.Received? && a.FailingDispatch? && a.id == i && !a.harmless)
    case _ =>
      || (Driving(before) && EventOf(a, i) && Reports(a.event.payload, after))
      || (before.Unknown? && Terminal(after) && Reconciles(t, a, i, after))
  }

  ghost predicate Lawful(t: Turns, a: Action, u: Turns) {
    && t.inputs.Keys <= u.inputs.Keys
    && (forall i :: i in t.inputs ==>
          || u.inputs[i].status == t.inputs[i].status
          || MayBecome(t, a, i, t.inputs[i].status, u.inputs[i].status))
    && (forall i :: i in u.inputs && i !in t.inputs ==>
          && a.Submitting? && a.id == i && u.inputs[i].request == a.request
          && (u.inputs[i].status.Queued? || u.inputs[i].status.Received? || u.inputs[i].status.Rejected?))
  }

  /** Executions appear with an acceptance or a reconciliation, and keep their Input and native identity. */
  ghost predicate Lasting(t: Turns, a: Action, u: Turns) {
    && (forall e :: e in t.executions ==>
          && e in u.executions && u.executions[e].input == t.executions[e].input
          && u.executions[e].native == t.executions[e].native)
    && (forall e :: e in u.executions && e !in t.executions ==>
          || (a.Delivering? && a.execution == e && Reports(a.event.payload, Accepted) && u.executions[e].input == a.id)
          || (a.ReconcilingInput? && a.execution == e && u.executions[e].input == a.id
              && u.executions[e].native == a.native))
  }

  lemma SetUnknownLawful(t: Turns, i: Id, native: NativeId, a: Action)
    requires InTurn(t) && i in t.streams && t.streams[i].native == native
    requires EventOf(a, i) || (a.EndingStream? && a.id == i)
    ensures Lawful(t, a, SetUnknown(t, i, native)) && Lasting(t, a, SetUnknown(t, i, native))
  {
    hide InTurn, Lawful, Lasting, SetUnknown;
    var own := SetUnknownCases(t, i, native);
    if own.Some? {
      SetBothLawful(t, i, own.value, Unknown, t.executions[own.value].evidence, a);
    } else if Driving(t.inputs[i].status) {
      LosesInput(t, i, a);
    } else {
      SameLawful(t, a);
    }
  }

  lemma LosesInput(t: Turns, i: Id, a: Action)
    requires i in t.inputs && Driving(t.inputs[i].status) && (EventOf(a, i) || (a.EndingStream? && a.id == i))
    ensures var u := t.(inputs := t.inputs[i := t.inputs[i].(status := Unknown)]); Lawful(t, a, u) && Lasting(t, a, u)
  {
  }

  lemma TurnsAfterLawful(t: Turns, i: Id, native: NativeId, e: Id, a: Action)
    requires InTurn(t) && i in t.inputs && i in t.streams && t.streams[i].native == native && e !in t.executions
    requires EventOf(a, i) && a.execution == e
    ensures var u := TurnsAfter(t, i, native, a.event.payload, e); Lawful(t, a, u) && Lasting(t, a, u)
  {
    hide InTurn, SetUnknown, Lawful, Lasting, Accept;
    SetUnknownLawful(t, i, native, a);
    match FindExecution(t.executions, native) {
      case None =>
        if Reports(a.event.payload, Accepted) { AcceptLawful(t, i, native, e, a); }
      case Some(x) =>
        RunFindsOwn(t, i, x);
        SameLawful(t, a);
        if !Terminal(t.executions[x].status) && StatusPayload(a.event.payload) && Proven(a.event.payload) {
          SetBothLawful(t, i, x, EventStatus(a.event.payload),
            if TerminalPayload(a.event.payload) then Some(a.event.payload.evidence) else t.executions[x].evidence, a);
        }
    }
  }

  lemma SameLawful(t: Turns, a: Action)
    ensures Lawful(t, a, t) && Lasting(t, a, t)
  {
  }

  lemma OnlyRecordsMatter(t: Turns, a: Action, u: Turns, v: Turns)
    requires Lawful(t, a, u) && Lasting(t, a, u) && v.inputs == u.inputs && v.executions == u.executions
    ensures Lawful(t, a, v) && Lasting(t, a, v)
  {
  }

  lemma SetBothLawful(t: Turns, i: Id, e: Id, status: Status, evidence: Option<Evidence>, a: Action)
    requires i in t.inputs && e in t.executions && Driving(t.inputs[i].status)
    requires status == t.inputs[i].status || MayBecome(t, a, i, t.inputs[i].status, status)
    ensures Lawful(t, a, SetBoth(t, i, e, status, evidence)) && Lasting(t, a, SetBoth(t, i, e, status, evidence))
  {
  }

  lemma AcceptLawful(t: Turns, i: Id, native: NativeId, e: Id, a: Action)
    requires InTurn(t) && i in t.inputs && i in t.streams && t.streams[i].native == native && e !in t.executions
    requires EventOf(a, i) && a.execution == e && Reports(a.event.payload, Accepted)
    requires FindExecution(t.executions, native).None?
    ensures Lawful(t, a, Accept(t, i, native, e)) && Lasting(t, a, Accept(t, i, native, e))
  {
    UnsettledDrives(t, i, native);
  }

  // Whole steps

  /** A step that rejects the queue after it changed only Inputs that were not queued. */
  lemma RejectLawful(t: Turns, u: Turns, a: Action)
    requires Lawful(t, a, u) && Ejects(a)
    requires forall i :: QueuedInput(u.inputs, i) ==> i in t.inputs && t.inputs[i].status.Queued?
    ensures Lawful(t, a, u.(inputs := RejectInputs(u.inputs)))
    ensures Lasting(t, a, u) ==> Lasting(t, a, u.(inputs := RejectInputs(u.inputs)))
  {
  }

  lemma FailDispatchLawful(s: State, i: Id, harmless: bool, a: Action)
    requires InTurn(s.turns)
    requires (a.FailingDispatch? && a.id == i && a.harmless == harmless) || (a.CallingEngine? && a.id == i && harmless)
    ensures var u := FailDispatch(s, i, harmless).turns; Lawful(s.turns, a, u) && Lasting(s.turns, a, u)
  {
    hide InTurn, Lawful, Lasting, Undispatched, DropLocators, FailCompactions;
    SameLawful(s.turns, a);
    if i in s.turns.dispatching {
      DispatchedAlone(s.turns, i);
      UndispatchedLawful(s.turns, i, harmless, a);
      RejectLawful(s.turns, Undispatched(s.turns, i, if harmless then Rejected else Unknown), a);
    }
  }

  lemma UndispatchedLawful(t: Turns, i: Id, harmless: bool, a: Action)
    requires i in t.inputs && t.inputs[i].status.Received?
    requires (a.FailingDispatch? && a.id == i && a.harmless == harmless) || (a.CallingEngine? && a.id == i && harmless)
    ensures var u := Undispatched(t, i, if harmless then Rejected else Unknown);
      && Lawful(t, a, u) && Lasting(t, a, u)
      && forall j :: QueuedInput(u.inputs, j) ==> j in t.inputs && t.inputs[j].status.Queued?
  {
  }

  lemma EndStreamLawful(s: State, i: Id, failed: bool, a: Action)
    requires InTurn(s.turns) && (EventOf(a, i) || (a.EndingStream? && a.id == i))
    ensures var u := EndStream(s, i, failed).turns; Lawful(s.turns, a, u) && Lasting(s.turns, a, u)
  {
    hide InTurn, SetUnknown, DropLocators, Lawful, Lasting, RejectInputs, EndsUnknown;
    SameLawful(s.turns, a);
    OnlyRecordsMatter(s.turns, a, s.turns, s.turns.(streams := s.turns.streams - {i}));
    if i in s.turns.streams && i in s.turns.inputs {
      var native := s.turns.streams[i].native;
      SetUnknownLawful(s.turns, i, native, a);
      LoseStream(s.turns, i, native);
      SetUnknownContinues(s.turns, i, native);
      RejectLawful(s.turns, SetUnknown(s.turns, i, native), a);
      var lost := SetUnknown(s.turns, i, native);
      if EndsUnknown(s.turns, i, failed) {
        OnlyRecordsMatter(s.turns, a, lost.(inputs := RejectInputs(lost.inputs)), EndStream(s, i, failed).turns);
      }
    }
  }

  lemma DeliverLawful(s: State, i: Id, event: Event, e: Id, a: Action)
    requires InTurn(s.turns) && a == Delivering(i, event, e)
    ensures var u := Deliver(s, i, event, e).turns; Lawful(s.turns, a, u) && Lasting(s.turns, a, u)
  {
    hide InTurn, Lawful, Lasting, EndStream, TurnsAfter, Settles, LateAnswer, InteractionsAfter, StopsAfter, Ignored;
    EndStreamLawful(s, i, true, a);
    SameLawful(s.turns, a);
    if i in s.turns.streams && i in s.turns.inputs && e !in s.turns.executions {
      TurnsAfterLawful(s.turns, i, s.turns.streams[i].native, e, a);
      TurnsAfterStreams(s.turns, i, s.turns.streams[i].native, event.payload, e);
      var u := TurnsAfter(s.turns, i, s.turns.streams[i].native, event.payload, e);
      OnlyRecordsMatter(s.turns, a, u, MarkTerminal(u, i));
    }
  }

  lemma ReconcileLawful(s: State, a: Action)
    requires InTurn(s.turns) && (a.ReconcilingInput? || a.ReconcilingExecution?)
    ensures Lawful(s.turns, a, Step(s, a).turns) && Lasting(s.turns, a, Step(s, a).turns)
  {
    hide Step, ConfirmStops, LeaveStopsUnconfirmed, InTurn, FindExecution;
    RunSteps(s, a);
  }

  lemma RunActionLawful(s: State, a: Action)
    requires InTurn(s.turns) && RunAction(a)
    ensures Lawful(s.turns, a, Step(s, a).turns) && Lasting(s.turns, a, Step(s, a).turns)
  {
    hide InTurn, Lawful, Lasting, FailDispatch, Deliver, EndStream, AttachmentsHeld;
    SameLawful(s.turns, a);
    match a {
      case CallingEngine(i, ok) => CallLawful(s, i, ok);
      case FailingDispatch(i, harmless) => FailDispatchLawful(s, i, harmless, a);
      case Returning(i, native) => OpenLawful(s.turns, i, native, a);
      case Delivering(i, event, e) => DeliverLawful(s, i, event, e, a);
      case EndingStream(i, failed) => EndStreamLawful(s, i, failed, a);
      case _ => ReconcileLawful(s, a);
    }
  }

  lemma OpenLawful(t: Turns, i: Id, native: NativeId, a: Action)
    ensures Lawful(t, a, OpenStream(t, i, native)) && Lasting(t, a, OpenStream(t, i, native))
  {
  }

  lemma CallLawful(s: State, i: Id, ok: bool)
    requires InTurn(s.turns)
    ensures var u, a := CallEngine(s, i, ok).turns, CallingEngine(i, ok); Lawful(s.turns, a, u) && Lasting(s.turns, a, u)
  {
    hide InTurn, Lawful, Lasting, FailDispatch, AttachmentsHeld;
    FailDispatchLawful(s, i, true, CallingEngine(i, ok));
    SameLawful(s.turns, CallingEngine(i, ok));
    if CallEngine(s, i, ok) != FailDispatch(s, i, true) {
      OnlyRecordsMatter(s.turns, CallingEngine(i, ok), s.turns, CallEngine(s, i, ok).turns);
    }
  }

  lemma SubmitLawful(s: State, id: Id, request: Request, ok: bool, usable: set<Id>)
    ensures var u, a := Submit(s, id, request, ok, usable).turns, Submitting(id, request, ok, usable);
      Lawful(s.turns, a, u) && Lasting(s.turns, a, u)
  {
    hide Decide, AllClaimable, NextPosition, Claim;
  }

  lemma DrainLawful(s: State, ok: bool, usable: set<Id>)
    ensures var u, a := Drain(s, ok, usable).turns, Draining(ok, usable);
      Lawful(s.turns, a, u) && Lasting(s.turns, a, u)
  {
    hide Drain, Take;
    DrainCases(s, ok, usable);
  }

  lemma MoveLawful(s: State, i: Id, before: Option<Id>, ok: bool)
    ensures var u, a := MoveQueued(s, i, before, ok).turns, Moving(i, before, ok);
      Lawful(s.turns, a, u) && Lasting(s.turns, a, u)
  {
    hide InputQueue, InsertBefore, Without, MayMove;
  }

  lemma RestartLawful(s: State)
    ensures Lawful(s.turns, Restarting, Restart(s).turns) && Lasting(s.turns, Restarting, Restart(s).turns)
  {
    hide RecoverUpkeep, Waiting;
  }

  lemma LeavingLawful(s: State, a: Action)
    requires a.Cancelling? || a.Withdrawing? || a.Freezing? || a.Closing?
    ensures Lawful(s.turns, a, Step(s, a).turns) && Lasting(s.turns, a, Step(s, a).turns)
  {
    hide Lawful, Lasting, DropLocators, AllTakeable, Release, RejectInputs, CancelInput;
    SameLawful(s.turns, a);
    if a.Cancelling? || a.Withdrawing? {
      CancelLawful(s.turns, a.id, a);
    } else if a.Freezing? || a.abandoned {
      RejectAllLawful(s.turns, a);
    }
  }

  lemma RejectAllLawful(t: Turns, a: Action)
    requires Ejects(a)
    ensures var u := t.(inputs := RejectInputs(t.inputs)); Lawful(t, a, u) && Lasting(t, a, u)
  {
  }

  lemma CancelLawful(t: Turns, i: Id, a: Action)
    requires (a.Cancelling? || a.Withdrawing?) && a.id == i
    ensures QueuedInput(t.inputs, i) ==> Lawful(t, a, CancelInput(t, i)) && Lasting(t, a, CancelInput(t, i))
  {
  }

  /**
   The life of an Input: it is promoted only by draining, cancelled only on request, rejected only before dispatch, lost
   only by its own run or a crash, and reaches a result only when the engine reports or reconciles exactly that result.
   */
  lemma StepLawful(s: State, a: Action)
    requires InTurn(s.turns)
    ensures Lawful(s.turns, a, Step(s, a).turns) && Lasting(s.turns, a, Step(s, a).turns)
  {
    hide Lawful, Lasting, InTurn, Submit, Drain, MoveQueued, Restart;
    if RunAction(a) {
      RunActionLawful(s, a);
    } else if a.Restarting? {
      RestartLawful(s);
    } else if !QuietAction(a) {
      match a {
        case Submitting(i, request, ok, usable) => SubmitLawful(s, i, request, ok, usable);
        case Draining(ok, usable) => DrainLawful(s, ok, usable);
        case Moving(i, before, ok) => MoveLawful(s, i, before, ok);
      }
    } else if TurnAction(a) {
      LeavingLawful(s, a);
    } else {
      OtherActionTurns(s, a);
      SameLawful(s.turns, a);
    }
  }

  /** An event gives an open run a result exactly when it is no repetition, no conflict, and reports that result. */
  lemma ResultsComeFromReports(s: State, i: Id, event: Event, e: Id, status: Status)
    requires InTurn(s.turns) && i in s.turns.streams && e !in s.turns.executions && Terminal(status)
    requires FindExecution(s.turns.executions, s.turns.streams[i].native).Some?
    requires OpenExecution(s.turns, FindExecution(s.turns.executions, s.turns.streams[i].native).value)
    ensures var t := Deliver(s, i, event, e).turns;
      var x := FindExecution(s.turns.executions, s.turns.streams[i].native).value;
      && i in t.inputs && x in t.executions
      && (t.inputs[i].status == status <==>
            !Ignored(s.journal.events, s.turns.streams[i].native, event) && Reports(event.payload, status))
      && t.executions[x].status == t.inputs[i].status
  {
    hide InTurn, TurnsAfter, Ignored, LateAnswer, InteractionsAfter, StopsAfter;
    var x := FindExecution(s.turns.executions, s.turns.streams[i].native).value;
    RunFindsOwn(s.turns, i, x);
    SameStatus(s.turns, x);
    ReportedResult(s.turns, i, s.turns.streams[i].native, event.payload, e, status);
  }

  lemma ReportedResult(t: Turns, i: Id, native: NativeId, payload: Payload, e: Id, status: Status)
    requires i in t.inputs && FindExecution(t.executions, native).Some? && Terminal(status)
    requires var x := FindExecution(t.executions, native).value;
      OpenExecution(t, x) && t.inputs[i].status == t.executions[x].status && Driving(t.inputs[i].status)
    ensures var u, x := TurnsAfter(t, i, native, payload, e), FindExecution(t.executions, native).value;
      && i in u.inputs && x in u.executions && u.executions[x].status == u.inputs[i].status
      && (u.inputs[i].status == status <==> Reports(payload, status))
  {
  }

  lemma SameStatus(t: Turns, e: Id)
    requires InTurn(t) && e in t.executions
    ensures t.executions[e].input in t.inputs && t.inputs[t.executions[e].input].status == t.executions[e].status
  {
    assert Settled(t.inputs, t.executions[e]);
  }

  // Compactions

  /** The step may move compaction `c` from one status to another one. */
  predicate CompactMayBecome(u: Upkeep, a: Action, c: Id, after: CompactStatus)
    requires c in u.compactions
  {
    var before := u.compactions[c];
    match after
    case CompactQueued => false
    case CompactRequested => before.status.CompactQueued? && a.Draining?
    case CompactAccepted => before.status.CompactRequested? && Called(u, c) && a == AcceptingCompact(c)
    case CompactUnknown => NativeCompact(before) && (a.Restarting? || a == FinishingCompact(c, after))
    case CompactFailed =>
      || (before.status.CompactQueued? && (a.Draining? || (a.FailingDispatch? && !a.harmless)))
      || (NativeCompact(before) && ((a.CallingCompact? && a.id == c) || a == FinishingCompact(c, after)))
    case _ => NativeCompact(before) && Called(u, c) && a == FinishingCompact(c, after)
  }

  /** The engine was called for the compaction and has not answered. */
  predicate Called(u: Upkeep, c: Id) {
    c in u.compacting && u.compacting[c].CompactCalling?
  }

  ghost predicate CompactLawful(u: Upkeep, a: Action, v: Upkeep) {
    && (forall c :: c in u.compactions ==>
          && c in v.compactions
          && (v.compactions[c].status == u.compactions[c].status
              || CompactMayBecome(u, a, c, v.compactions[c].status)))
    && (forall c :: c in v.compactions && c !in u.compactions ==>
          && a.RequestingCompact? && a.id == c
          && (v.compactions[c].status.CompactQueued? || v.compactions[c].status.CompactRequested?))
  }

  lemma FailingLawful(u: Upkeep, a: Action)
    requires a.Draining? || (a.FailingDispatch? && !a.harmless)
    ensures CompactLawful(u, a, FailCompactions(u))
  {
  }

  lemma SameCompacts(u: Upkeep, a: Action)
    ensures CompactLawful(u, a, u)
  {
  }

  lemma DrainCompacts(s: State, ok: bool, usable: set<Id>)
    ensures CompactLawful(s.upkeep, Draining(ok, usable), Drain(s, ok, usable).upkeep)
  {
    hide Progressing, BehindBarrier, AllTakeable, RejectInputs, DropLocators, FailCompactions, Take, QueueOf;
    FailingLawful(s.upkeep, Draining(ok, usable));
  }

  lemma FailDispatchCompacts(s: State, i: Id, harmless: bool)
    ensures CompactLawful(s.upkeep, FailingDispatch(i, harmless), FailDispatch(s, i, harmless).upkeep)
    ensures harmless ==> FailDispatch(s, i, harmless).upkeep == s.upkeep
  {
    hide Undispatched, RejectInputs, DropLocators, FailCompactions, CompactLawful;
    SameCompacts(s.upkeep, FailingDispatch(i, harmless));
    if !harmless { FailingLawful(s.upkeep, FailingDispatch(i, harmless)); }
  }

  lemma UpkeepActionCompacts(s: State, a: Action)
    requires QueueOk(s) && (UpkeepAction(a) || a.RequestingCompact? || a.RequestingRewind?)
    ensures CompactLawful(s.upkeep, a, Step(s, a).upkeep)
  {
    hide QueueOk, CompactLawful, CallCompact, AcceptCompact, FinishCompact, RequestCompact, RequestRewind, FinishRewind;
    CompactingIsNative(s, a.id);
    match a {
      case CallingCompact(c, ok) => CallCompacts(s, c, ok);
      case AcceptingCompact(c) => AcceptCompacts(s, c);
      case FinishingCompact(c, status) => FinishCompacts(s, c, status);
      case RequestingCompact(c, instructions, ok) => RequestCompacts(s, c, instructions, ok);
      case RequestingRewind(r, e, ok) => RewindCompacts(s, a, r, e, ok, RewindApplied);
      case FinishingRewind(r, status) => RewindCompacts(s, a, r, 0, true, status);
    }
  }

  lemma CallCompacts(s: State, c: Id, ok: bool)
    requires c in s.upkeep.compacting ==> c in s.upkeep.compactions && NativeCompact(s.upkeep.compactions[c])
    ensures CompactLawful(s.upkeep, CallingCompact(c, ok), CallCompact(s, c, ok).upkeep)
  {
  }

  lemma AcceptCompacts(s: State, c: Id)
    ensures CompactLawful(s.upkeep, AcceptingCompact(c), AcceptCompact(s, c).upkeep)
  {
  }

  lemma FinishCompacts(s: State, c: Id, status: CompactStatus)
    requires c in s.upkeep.compacting ==> c in s.upkeep.compactions && NativeCompact(s.upkeep.compactions[c])
    ensures CompactLawful(s.upkeep, FinishingCompact(c, status), FinishCompact(s, c, status).upkeep)
  {
  }

  lemma RequestCompacts(s: State, c: Id, instructions: bool, ok: bool)
    ensures CompactLawful(s.upkeep, RequestingCompact(c, instructions, ok), RequestCompact(s, c, instructions, ok).upkeep)
  {
    hide NextPosition, HasActiveCompact, ManyDispatched, HasDispatched;
  }

  lemma RewindCompacts(s: State, a: Action, r: Id, e: Id, ok: bool, status: RewindStatus)
    ensures CompactLawful(s.upkeep, a, RequestRewind(s, r, e, ok).upkeep)
    ensures CompactLawful(s.upkeep, a, FinishRewind(s, r, status).upkeep)
  {
    hide Idle;
  }

  lemma RestartCompacts(s: State)
    ensures CompactLawful(s.upkeep, Restarting, Restart(s).upkeep)
  {
    hide RecoverTurns, Waiting;
  }

  lemma OtherCompacts(s: State, a: Action)
    requires !UpkeepAction(a) && !a.RequestingCompact? && !a.RequestingRewind? && !a.Restarting?
    requires !a.Draining? && !a.FailingDispatch?
    ensures Step(s, a).upkeep == s.upkeep
  {
    hide SetUnknown, RejectInputs, DropLocators, Deliver, FailDispatch, SettledStop, Waiting, AllTakeable, CancelInput,
      Release, ConfirmStops, LeaveStopsUnconfirmed, Decide, AllClaimable, NextPosition, Claim, InputQueue, InsertBefore,
      Without, Renumber, MayMove;
    if a.CallingEngine? {
      FailDispatchCompacts(s, a.id, true);
    } else if a.Delivering? {
      DeliverUpkeep(s, a.id, a.event, a.execution);
    }
  }

  /**
   The life of a compaction: it is requested by draining when it had to wait, it ends only with the answer of the engine
   or before the engine was called, and a crash leaves it unknown for good.
   */
  lemma StepCompacts(s: State, a: Action)
    requires QueueOk(s)
    ensures CompactLawful(s.upkeep, a, Step(s, a).upkeep)
  {
    hide QueueOk, CompactLawful, Drain, FailDispatch, Restart;
    if UpkeepAction(a) || a.RequestingCompact? || a.RequestingRewind? {
      UpkeepActionCompacts(s, a);
    } else if a.Restarting? {
      RestartCompacts(s);
    } else if a.Draining? {
      DrainCompacts(s, a.ok, a.usable);
    } else if a.FailingDispatch? {
      FailDispatchCompacts(s, a.id, a.harmless);
    } else {
      OtherCompacts(s, a);
      SameCompacts(s.upkeep, a);
    }
  }
}
