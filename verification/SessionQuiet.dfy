/**
 Steps that start no turn and queue nothing: what they leave of Inputs and dispatches, in any state and whatever the
 engine answers.
 */
module SessionQuiet {
  import opened Wrappers
  import opened SessionState
  import opened SessionSteps

  /** No Input was added and no request changed; received Inputs were received, queued ones queued at the same place. */
  ghost predicate Quiet(before: map<Id, Input>, after: map<Id, Input>) {
    && after.Keys == before.Keys
    && forall i :: i in before ==>
      && after[i].request == before[i].request
      && (after[i].status.Received? ==> before[i].status.Received?)
      && (after[i].status.Queued? ==> before[i].status.Queued? && after[i].position == before[i].position)
  }

  predicate Probes(t: Turns, i: Id) {
    i in t.dispatching && t.dispatching[i].Probing?
  }

  /** No Input joined the ones that wait or are dispatched, and no dispatch went back to its probe. */
  ghost predicate Continues(t: Turns, u: Turns) {
    && Quiet(t.inputs, u.inputs)
    && u.dispatching.Keys <= t.dispatching.Keys
    && forall i :: Probes(u, i) ==> Probes(t, i)
  }

  /** Steps that start no driver and queue nothing. */
  predicate QuietAction(a: Action) {
    !a.Submitting? && !a.Draining? && !a.Moving?
  }

  predicate RunAction(a: Action) {
    a.CallingEngine? || a.FailingDispatch? || a.Returning? || a.Delivering? || a.EndingStream?
    || a.ReconcilingInput? || a.ReconcilingExecution?
  }

  /** Steps that can change Inputs, Executions, dispatches or streams. */
  predicate TurnAction(a: Action) {
    RunAction(a) || !QuietAction(a) || a.Cancelling? || a.Withdrawing? || a.Freezing? || a.Closing? || a.Restarting?
  }

  lemma OtherActionTurns(s: State, a: Action)
    requires !TurnAction(a)
    ensures Step(s, a).turns == s.turns
  {
    hide NextPosition, Waiting, SettledStop, SettleCompact;
  }

  /** What draining does to the Inputs: nothing, rejecting all queued ones, or promoting one when none drives. */
  lemma DrainCases(s: State, ok: bool, usable: set<Id>)
    ensures var t := Drain(s, ok, usable).turns;
      || t == s.turns || t == s.turns.(inputs := RejectInputs(s.turns.inputs))
      || exists i :: QueuedInput(s.turns.inputs, i) && !HasDriving(s.turns) && t == Promote(s, i).turns
  {
    hide Progressing, QueueOf, BehindBarrier, AllTakeable, RejectInputs, DropLocators, FailCompactions, Take;
  }

  // Inputs and dispatches

  lemma RejectQuiet(inputs: map<Id, Input>)
    ensures Quiet(inputs, RejectInputs(inputs))
  {
  }

  lemma SameContinues(t: Turns)
    ensures Continues(t, t) && Continues(t, t.(inputs := RejectInputs(t.inputs)))
  {
    RejectQuiet(t.inputs);
  }

  lemma ContinuesOn(t: Turns, u: Turns, v: Turns)
    requires Continues(t, u) && Continues(u, v)
    ensures Continues(t, v)
  {
  }

  lemma StreamsContinue(t: Turns, streams: map<Id, Stream>)
    ensures Continues(t, t.(streams := streams))
  {
  }

  lemma SetUnknownContinues(t: Turns, i: Id, native: NativeId)
    ensures Continues(t, SetUnknown(t, i, native))
  {
  }

  lemma UndispatchedContinues(t: Turns, i: Id, status: Status)
    requires i in t.inputs && (status.Rejected? || status.Unknown?)
    ensures Continues(t, Undispatched(t, i, status))
  {
  }

  lemma TurnsAfterContinues(t: Turns, i: Id, native: NativeId, payload: Payload, e: Id)
    requires i in t.inputs
    ensures Continues(t, TurnsAfter(t, i, native, payload, e))
  {
    hide SetUnknown, FindExecution;
    SetUnknownContinues(t, i, native);
  }

  lemma FailDispatchContinues(s: State, i: Id, harmless: bool)
    ensures Continues(s.turns, FailDispatch(s, i, harmless).turns)
  {
    hide Continues, Undispatched, RejectInputs, DropLocators, FailCompactions;
    SameContinues(s.turns);
    if i in s.turns.inputs {
      var t := Undispatched(s.turns, i, if harmless then Rejected else Unknown);
      UndispatchedContinues(s.turns, i, if harmless then Rejected else Unknown);
      SameContinues(t);
      ContinuesOn(s.turns, t, t.(inputs := RejectInputs(t.inputs)));
    }
  }

  lemma CallEngineContinues(s: State, i: Id, ok: bool)
    ensures Continues(s.turns, CallEngine(s, i, ok).turns)
  {
    hide FailDispatch, AttachmentsHeld;
    FailDispatchContinues(s, i, true);
  }

  lemma EndStreamContinues(s: State, i: Id, failed: bool)
    ensures Continues(s.turns, EndStream(s, i, failed).turns)
  {
    hide Continues, SetUnknown, RejectInputs, DropLocators;
    SameContinues(s.turns);
    if i in s.turns.streams && i in s.turns.inputs {
      var closed := s.turns.(streams := s.turns.streams - {i});
      var lost := SetUnknown(closed, i, s.turns.streams[i].native);
      StreamsContinue(s.turns, s.turns.streams - {i});
      SetUnknownContinues(closed, i, s.turns.streams[i].native);
      SameContinues(lost);
      ContinuesOn(s.turns, closed, lost);
      ContinuesOn(s.turns, lost, lost.(inputs := RejectInputs(lost.inputs)));
    }
  }

  lemma DeliverContinues(s: State, i: Id, event: Event, e: Id)
    ensures Continues(s.turns, Deliver(s, i, event, e).turns)
  {
    hide Continues, EndStream, TurnsAfter, Settles, LateAnswer, InteractionsAfter, StopsAfter, Ignored;
    SameContinues(s.turns);
    EndStreamContinues(s, i, true);
    if i in s.turns.streams && i in s.turns.inputs {
      var native := s.turns.streams[i].native;
      var u := TurnsAfter(s.turns, i, native, event.payload, e);
      TurnsAfterContinues(s.turns, i, native, event.payload, e);
      TurnsAfterStreams(s.turns, i, native, event.payload, e);
      StreamsContinue(u, MarkTerminal(u, i).streams);
      ContinuesOn(s.turns, u, MarkTerminal(u, i));
    }
  }

  lemma TurnsAfterStreams(t: Turns, i: Id, native: NativeId, payload: Payload, e: Id)
    requires i in t.inputs
    ensures TurnsAfter(t, i, native, payload, e).streams == t.streams
    ensures TurnsAfter(t, i, native, payload, e).dispatching == t.dispatching
  {
  }

  // Whole steps

  lemma RunActionContinues(s: State, a: Action)
    requires RunAction(a)
    ensures Continues(s.turns, Step(s, a).turns)
  {
    hide Step, CallEngine, FailDispatch, Deliver, EndStream;
    match a {
      case CallingEngine(i, ok) =>
        DispatchSteps(s, a);
        CallEngineContinues(s, i, ok);
      case FailingDispatch(i, harmless) =>
        DispatchSteps(s, a);
        FailDispatchContinues(s, i, harmless);
      case Returning(i, native) => DispatchSteps(s, a);
      case Delivering(i, event, e) =>
        RunSteps(s, a);
        DeliverContinues(s, i, event, e);
      case EndingStream(i, failed) =>
        RunSteps(s, a);
        EndStreamContinues(s, i, failed);
      case _ => ReconcilingContinues(s, a);
    }
  }

  lemma ReconcilingContinues(s: State, a: Action)
    requires a.ReconcilingInput? || a.ReconcilingExecution?
    ensures Continues(s.turns, Step(s, a).turns)
  {
    hide Step, ConfirmStops, LeaveStopsUnconfirmed;
    RunSteps(s, a);
  }

  lemma LifeActionContinues(s: State, a: Action)
    requires a.Freezing? || a.Closing? || a.Restarting?
    ensures Continues(s.turns, Step(s, a).turns)
  {
    hide Step, Restart, Continues, RejectInputs, DropLocators;
    LifeSteps(s, a);
    SameContinues(s.turns);
    RestartContinues(s);
  }

  lemma RestartContinues(s: State)
    ensures Continues(s.turns, Restart(s).turns)
  {
    hide RecoverUpkeep, LoseCalls, Waiting;
  }

  lemma LeavingContinues(s: State, a: Action)
    requires a.Cancelling? || a.Withdrawing?
    ensures Continues(s.turns, Step(s, a).turns)
  {
    hide Step, AllTakeable, DropLocators, Release;
    QueueSteps(s, a);
  }

  lemma QuietStepContinues(s: State, a: Action)
    requires QuietAction(a)
    ensures Continues(s.turns, Step(s, a).turns)
  {
    hide Step, Continues;
    SameContinues(s.turns);
    if !TurnAction(a) {
      OtherActionTurns(s, a);
    } else if RunAction(a) {
      RunActionContinues(s, a);
    } else if a.Cancelling? || a.Withdrawing? {
      LeavingContinues(s, a);
    } else {
      LifeActionContinues(s, a);
    }
  }

  // Every dispatch in flight is of a recorded Input

  ghost predicate Recorded(t: Turns) {
    forall i :: i in t.dispatching ==> i in t.inputs && !t.inputs[i].status.Queued?
  }

  lemma ContinuesRecorded(t: Turns, u: Turns)
    requires Recorded(t) && Continues(t, u)
    ensures Recorded(u)
  {
  }

  lemma SubmitRecorded(s: State, id: Id, request: Request, ok: bool, usable: set<Id>)
    requires Recorded(s.turns)
    ensures Recorded(Submit(s, id, request, ok, usable).turns)
  {
    hide Decide, AllClaimable, NextPosition, Claim;
  }

  lemma DrainRecorded(s: State, ok: bool, usable: set<Id>)
    requires Recorded(s.turns)
    ensures Recorded(Drain(s, ok, usable).turns)
  {
    hide Drain, RejectInputs, Take;
    DrainCases(s, ok, usable);
    RejectQuiet(s.turns.inputs);
  }

  lemma MoveRecorded(s: State, i: Id, before: Option<Id>, ok: bool)
    requires Recorded(s.turns)
    ensures Recorded(MoveQueued(s, i, before, ok).turns)
  {
    hide InputQueue, InsertBefore, Without, MayMove;
  }

  lemma StepRecorded(s: State, a: Action)
    requires Recorded(s.turns)
    ensures Recorded(Step(s, a).turns)
  {
    hide Step, Recorded, Continues, Submit, Drain, MoveQueued;
    QueueSteps(s, a);
    match a {
      case Submitting(i, request, ok, usable) => SubmitRecorded(s, i, request, ok, usable);
      case Draining(ok, usable) => DrainRecorded(s, ok, usable);
      case Moving(i, before, ok) => MoveRecorded(s, i, before, ok);
      case _ =>
        QuietStepContinues(s, a);
        ContinuesRecorded(s.turns, Step(s, a).turns);
    }
  }
}
