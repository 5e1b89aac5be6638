/** Results are final: a settled Execution, and an Input that is over, never change again. */
module SessionResults {
  import opened Wrappers
  import opened SessionState
  import opened SessionSteps
  import opened SessionQuiet
  import opened SessionTurns

  // Executions, whatever the engine answers

  /** Native identities have at most one Execution; a settled one has engine evidence. */
  ghost predicate Evidenced(executions: map<Id, Execution>) {
    && (forall e :: e in executions && Terminal(executions[e].status) ==> executions[e].evidence == Some(EngineEvidence))
    && (forall e, f {:trigger executions[e], executions[f]} ::
          e in executions && f in executions && executions[e].native == executions[f].native ==> e == f)
  }

  /** No Execution is forgotten, and a settled one is the same record. */
  ghost predicate Finished(before: map<Id, Execution>, after: map<Id, Execution>) {
    forall e :: e in before ==> e in after && (Terminal(before[e].status) ==> after[e] == before[e])
  }

  ghost predicate MovesOn(before: map<Id, Execution>, after: map<Id, Execution>) {
    Finished(before, after) && (Evidenced(before) ==> Evidenced(after))
  }

  lemma SameMovesOn(executions: map<Id, Execution>)
    ensures MovesOn(executions, executions)
  {
  }

  lemma ChangeMovesOn(executions: map<Id, Execution>, e: Id, status: Status, evidence: Option<Evidence>)
    requires e in executions && !Terminal(executions[e].status)
    requires Terminal(status) ==> evidence == Some(EngineEvidence)
    ensures MovesOn(executions, executions[e := executions[e].(status := status, evidence := evidence)])
  {
  }

  lemma NewMovesOn(executions: map<Id, Execution>, e: Id, x: Execution)
    requires e !in executions && FindExecution(executions, x.native).None?
    requires Terminal(x.status) ==> x.evidence == Some(EngineEvidence)
    ensures MovesOn(executions, executions[e := x])
  {
    forall f | f in executions ensures executions[f].native != x.native {
      assert !ExecutionOf(executions, x.native, f);
    }
  }

  lemma SetUnknownMovesOn(t: Turns, i: Id, native: NativeId)
    ensures MovesOn(t.executions, SetUnknown(t, i, native).executions)
  {
    hide MovesOn;
    SameMovesOn(t.executions);
    var found := FindExecution(t.executions, native);
    if found.Some? && !Terminal(t.executions[found.value].status) {
      var x := t.executions[found.value];
      ChangeMovesOn(t.executions, found.value, Unknown, x.evidence);
    }
  }

  lemma TurnsAfterMovesOn(t: Turns, i: Id, native: NativeId, payload: Payload, e: Id)
    requires i in t.inputs && e !in t.executions
    ensures MovesOn(t.executions, TurnsAfter(t, i, native, payload, e).executions)
  {
    hide MovesOn, SetUnknown;
    SetUnknownMovesOn(t, i, native);
    SameMovesOn(t.executions);
    match FindExecution(t.executions, native) {
      case None => NewMovesOn(t.executions, e, Execution(Accepted, i, native, None));
      case Some(x) =>
        if !Terminal(t.executions[x].status) && StatusPayload(payload) && Proven(payload) {
          ChangeMovesOn(t.executions, x, EventStatus(payload),
            if TerminalPayload(payload) then Some(payload.evidence) else t.executions[x].evidence);
        }
    }
  }

  lemma EndStreamMovesOn(s: State, i: Id, failed: bool)
    ensures MovesOn(s.turns.executions, EndStream(s, i, failed).turns.executions)
  {
    hide MovesOn, SetUnknown, RejectInputs, DropLocators;
    SameMovesOn(s.turns.executions);
    if i in s.turns.streams {
      SetUnknownMovesOn(s.turns.(streams := s.turns.streams - {i}), i, s.turns.streams[i].native);
    }
  }

  lemma DeliverMovesOn(s: State, i: Id, event: Event, e: Id)
    ensures MovesOn(s.turns.executions, Deliver(s, i, event, e).turns.executions)
  {
    hide MovesOn, EndStream, TurnsAfter, Settles, LateAnswer, InteractionsAfter, StopsAfter, Ignored;
    EndStreamMovesOn(s, i, true);
    SameMovesOn(s.turns.executions);
    if i in s.turns.streams && i in s.turns.inputs && e !in s.turns.executions {
      TurnsAfterMovesOn(s.turns, i, s.turns.streams[i].native, event.payload, e);
      TurnsAfterStreams(s.turns, i, s.turns.streams[i].native, event.payload, e);
    }
  }

  lemma ReconcileMovesOn(s: State, a: Action)
    requires a.ReconcilingInput? || a.ReconcilingExecution?
    ensures MovesOn(s.turns.executions, Step(s, a).turns.executions)
  {
    hide Step, MovesOn, ConfirmStops, LeaveStopsUnconfirmed;
    RunSteps(s, a);
    SameMovesOn(s.turns.executions);
    if a.ReconcilingInput? {
      if Step(s, a) != s {
        NewMovesOn(s.turns.executions, a.execution, Execution(a.status, a.id, a.native, Some(a.evidence)));
      }
    } else if Reconcilable(s.turns, a.execution) && a.evidence.EngineEvidence? {
      ChangeMovesOn(s.turns.executions, a.execution, a.status, Some(a.evidence));
    }
  }

  lemma RestartMovesOn(s: State)
    ensures MovesOn(s.turns.executions, Restart(s).turns.executions)
  {
    hide RecoverUpkeep, LoseCalls, Waiting, RecoverInput;
  }

  /** Steps that leave all Executions. */
  lemma OthersStay(s: State, a: Action)
    requires !a.Delivering? && !a.EndingStream? && !a.ReconcilingInput? && !a.ReconcilingExecution? && !a.Restarting?
    ensures Step(s, a).turns.executions == s.turns.executions
  {
    hide Step, Submit, Drain, FailDispatch, CallEngine;
    if !TurnAction(a) {
      OtherActionTurns(s, a);
    } else if a.Draining? {
      QueueSteps(s, a);
      DrainStays(s, a.ok, a.usable);
    } else if a.Submitting? {
      QueueSteps(s, a);
      SubmitStays(s, a.id, a.request, a.ok, a.usable);
    } else if RunAction(a) {
      DispatchSteps(s, a);
      DispatchStays(s, a.id, if a.CallingEngine? then a.ok else false, if a.FailingDispatch? then a.harmless else true);
    } else {
      hide InputQueue, InsertBefore, Without, AllTakeable, Release, DropLocators, RejectInputs, MayMove;
      QueueSteps(s, a);
      LifeSteps(s, a);
    }
  }

  lemma DrainStays(s: State, ok: bool, usable: set<Id>)
    ensures Drain(s, ok, usable).turns.executions == s.turns.executions
  {
    hide Drain, Take, RejectInputs;
    DrainCases(s, ok, usable);
  }

  lemma SubmitStays(s: State, id: Id, request: Request, ok: bool, usable: set<Id>)
    ensures Submit(s, id, request, ok, usable).turns.executions == s.turns.executions
  {
    hide Decide, AllClaimable, NextPosition, Claim;
  }

  lemma DispatchStays(s: State, i: Id, ok: bool, harmless: bool)
    ensures FailDispatch(s, i, harmless).turns.executions == s.turns.executions
    ensures CallEngine(s, i, ok).turns.executions == s.turns.executions
  {
    hide RejectInputs, DropLocators, FailCompactions, AttachmentsHeld;
  }

  /** In any state and whatever the engine answers, no step changes a settled Execution. */
  lemma StepMovesOn(s: State, a: Action)
    ensures MovesOn(s.turns.executions, Step(s, a).turns.executions)
  {
    hide MovesOn, Step, Deliver, EndStream, Restart;
    SameMovesOn(s.turns.executions);
    if a.Delivering? {
      RunSteps(s, a);
      DeliverMovesOn(s, a.id, a.event, a.execution);
    } else if a.EndingStream? {
      RunSteps(s, a);
      EndStreamMovesOn(s, a.id, a.failed);
    } else if a.ReconcilingInput? || a.ReconcilingExecution? {
      ReconcileMovesOn(s, a);
    } else if a.Restarting? {
      LifeSteps(s, a);
      RestartMovesOn(s);
    } else {
      OthersStay(s, a);
    }
  }

  // Inputs, as long as at most one drives

  /** Inputs that are over kept their status. */
  ghost predicate Final(t: Turns, u: Turns) {
    forall i :: i in t.inputs && TerminalInput(t.inputs[i].status) ==>
      i in u.inputs && u.inputs[i].status == t.inputs[i].status
  }

  lemma SetBothFinal(t: Turns, i: Id, e: Id, status: Status, evidence: Option<Evidence>)
    requires InTurn(t) && i in t.inputs && e in t.executions && t.executions[e].input == i
    requires !Terminal(t.executions[e].status)
    ensures Final(t, SetBoth(t, i, e, status, evidence))
  {
    assert Settled(t.inputs, t.executions[e]);
  }

  lemma SetUnknownFinal(t: Turns, i: Id, native: NativeId)
    ensures Final(t, SetUnknown(t, i, native))
  {
  }

  lemma TurnsAfterFinal(t: Turns, i: Id, native: NativeId, payload: Payload, e: Id)
    requires InTurn(t) && i in t.inputs && i in t.streams && t.streams[i].native == native && e !in t.executions
    ensures Final(t, TurnsAfter(t, i, native, payload, e))
  {
    hide InTurn, SetUnknown, SetBoth, Accept;
    SetUnknownFinal(t, i, native);
    match FindExecution(t.executions, native) {
      case None => AcceptFinal(t, i, native, e);
      case Some(x) =>
        RunFindsOwn(t, i, x);
        if !Terminal(t.executions[x].status) && StatusPayload(payload) && Proven(payload) {
          var evidence := if TerminalPayload(payload) then Some(payload.evidence) else t.executions[x].evidence;
          SetBothFinal(t, i, x, EventStatus(payload), evidence);
        }
    }
  }

  lemma AcceptFinal(t: Turns, i: Id, native: NativeId, e: Id)
    requires InTurn(t) && i in t.inputs && i in t.streams && t.streams[i].native == native && e !in t.executions
    requires FindExecution(t.executions, native).None?
    ensures Final(t, Accept(t, i, native, e))
  {
    UnsettledDrives(t, i, native);
  }

  lemma DeliverFinal(s: State, i: Id, event: Event, e: Id)
    requires InTurn(s.turns)
    ensures Final(s.turns, Deliver(s, i, event, e).turns)
  {
    hide InTurn, EndStream, TurnsAfter, Ignored, LateAnswer, InteractionsAfter, StopsAfter;
    EndStreamFinal(s, i, true);
    if i in s.turns.streams && i in s.turns.inputs && e !in s.turns.executions {
      TurnsAfterFinal(s.turns, i, s.turns.streams[i].native, event.payload, e);
      TurnsAfterStreams(s.turns, i, s.turns.streams[i].native, event.payload, e);
    }
  }

  lemma EndStreamFinal(s: State, i: Id, failed: bool)
    ensures Final(s.turns, EndStream(s, i, failed).turns)
  {
    hide DropLocators;
    if i in s.turns.streams {
      SetUnknownFinal(s.turns.(streams := s.turns.streams - {i}), i, s.turns.streams[i].native);
    }
  }

  lemma FailDispatchFinal(s: State, i: Id, harmless: bool)
    requires InTurn(s.turns)
    ensures Final(s.turns, FailDispatch(s, i, harmless).turns)
  {
    hide DropLocators, FailCompactions;
  }

  lemma ReconcileFinal(s: State, e: Id, status: Status, evidence: Evidence, ok: bool)
    requires InTurn(s.turns)
    ensures Final(s.turns, ReconcileExecution(s, e, status, evidence, ok).turns)
  {
    hide InTurn, SetBoth;
    if Reconcilable(s.turns, e) {
      SetBothFinal(s.turns, s.turns.executions[e].input, e, status, Some(evidence));
    }
  }

  lemma ReconcileInputFinal(s: State, i: Id, e: Id, native: NativeId, status: Status, evidence: Evidence, ok: bool)
    ensures Final(s.turns, ReconcileInput(s, i, e, native, status, evidence, ok).turns)
  {
  }

  lemma ReturnFinal(t: Turns, i: Id, native: NativeId)
    ensures Final(t, OpenStream(t, i, native)) && Final(t, t)
  {
  }

  lemma CallEngineFinal(s: State, i: Id, ok: bool)
    requires InTurn(s.turns)
    ensures Final(s.turns, CallEngine(s, i, ok).turns)
  {
    hide InTurn, FailDispatch, AttachmentsHeld;
    FailDispatchFinal(s, i, true);
  }

  lemma RunActionFinal(s: State, a: Action)
    requires InTurn(s.turns) && RunAction(a)
    ensures Final(s.turns, Step(s, a).turns)
  {
    hide InTurn, Final, CallEngine, FailDispatch, Deliver, EndStream, ReconcileInput, ReconcileExecution, OpenStream;
    match a {
      case Returning(i, native) => ReturnFinal(s.turns, i, native);
      case ReconcilingInput(i, e, native, status, evidence, ok) =>
        ReconcileInputFinal(s, i, e, native, status, evidence, ok);
      case CallingEngine(i, ok) => CallEngineFinal(s, i, ok);
      case FailingDispatch(i, harmless) => FailDispatchFinal(s, i, harmless);
      case Delivering(i, event, e) => DeliverFinal(s, i, event, e);
      case EndingStream(i, failed) => EndStreamFinal(s, i, failed);
      case ReconcilingExecution(e, status, evidence, ok) => ReconcileFinal(s, e, status, evidence, ok);
    }
  }

  lemma SubmitFinal(s: State, id: Id, request: Request, ok: bool, usable: set<Id>)
    ensures Final(s.turns, Submit(s, id, request, ok, usable).turns)
  {
    hide Decide, AllClaimable, NextPosition, Claim;
  }

  lemma DrainFinal(s: State, ok: bool, usable: set<Id>)
    ensures Final(s.turns, Drain(s, ok, usable).turns)
  {
    hide Drain, Take;
    DrainCases(s, ok, usable);
  }

  lemma MoveFinal(s: State, i: Id, before: Option<Id>, ok: bool)
    ensures Final(s.turns, MoveQueued(s, i, before, ok).turns)
  {
    hide InputQueue, InsertBefore, Without, MayMove;
  }

  lemma RestartFinal(s: State)
    ensures Final(s.turns, Restart(s).turns)
  {
    hide RecoverUpkeep, Waiting;
  }

  lemma RejectFinal(t: Turns, i: Id)
    ensures Final(t, t.(inputs := RejectInputs(t.inputs))) && Final(t, t)
    ensures QueuedInput(t.inputs, i) ==> Final(t, CancelInput(t, i))
  {
  }

  lemma QueueActionFinal(s: State, a: Action)
    requires !QuietAction(a)
    ensures Final(s.turns, Step(s, a).turns)
  {
    hide Final, Submit, Drain, MoveQueued;
    match a {
      case Submitting(i, request, ok, usable) => SubmitFinal(s, i, request, ok, usable);
      case Draining(ok, usable) => DrainFinal(s, ok, usable);
      case Moving(i, before, ok) => MoveFinal(s, i, before, ok);
    }
  }

  lemma LeavingFinal(s: State, a: Action)
    requires a.Cancelling? || a.Withdrawing? || a.Freezing? || a.Closing?
    ensures Final(s.turns, Step(s, a).turns)
  {
    hide Final, DropLocators, RejectInputs, CancelInput, AllTakeable;
    RejectFinal(s.turns, if a.Cancelling? || a.Withdrawing? then a.id else 0);
  }

  /** No step changes the status of an Input that is over, or a settled Execution. */
  lemma StepFinal(s: State, a: Action)
    requires InTurn(s.turns)
    ensures Final(s.turns, Step(s, a).turns) && Finished(s.turns.executions, Step(s, a).turns.executions)
  {
    StepMovesOn(s, a);
    if RunAction(a) {
      RunActionFinal(s, a);
    } else if !QuietAction(a) {
      QueueActionFinal(s, a);
    } else if a.Restarting? {
      RestartFinal(s);
    } else if TurnAction(a) {
      LeavingFinal(s, a);
    } else {
      OtherActionTurns(s, a);
    }
  }
}
