/** A file rewind that is requested waits for every turn, as long as at most one Input drives. */
module SessionExclusion {
  import opened SessionState
  import opened SessionSteps
  import opened SessionQuiet
  import opened SessionTurns
  import opened SessionQueue
  import opened SessionFifo
  import opened SessionSafety
  import opened SessionFiles

  /** No Input drives while a file rewind is requested. */
  ghost predicate RewindUndriven(s: State) {
    HasRewind(s.upkeep, RewindRequested) ==> !HasDriving(s.turns)
  }

  /** Only a request adds a requested file rewind. */
  lemma RewindsMoveOn(s: State, a: Action)
    requires !a.RequestingRewind? && HasRewind(Step(s, a).upkeep, RewindRequested)
    ensures HasRewind(s.upkeep, RewindRequested)
  {
    hide Step, Restart, FinishRewind, HasRewind;
    if a.FinishingRewind? {
      UpkeepSteps(s, a);
      FinishingMovesOn(s, a.id, a.rewindStatus);
    } else if a.Restarting? {
      LifeSteps(s, a);
      RestartMovesOn(s);
    } else {
      RewindsStay(s, a);
      SameRewinds(s.upkeep, Step(s, a).upkeep);
    }
  }

  lemma SameRewinds(u: Upkeep, v: Upkeep)
    requires u.rewinds == v.rewinds
    ensures HasRewind(u, RewindRequested) == HasRewind(v, RewindRequested)
  {
  }

  lemma FinishingMovesOn(s: State, r: Id, status: RewindStatus)
    ensures HasRewind(FinishRewind(s, r, status).upkeep, RewindRequested) ==> HasRewind(s.upkeep, RewindRequested)
  {
  }

  lemma RestartMovesOn(s: State)
    ensures HasRewind(Restart(s).upkeep, RewindRequested) ==> HasRewind(s.upkeep, RewindRequested)
  {
    hide RecoverTurns, Waiting;
  }

  lemma RewindsStay(s: State, a: Action)
    requires !a.RequestingRewind? && !a.FinishingRewind? && !a.Restarting?
    ensures Step(s, a).upkeep.rewinds == s.upkeep.rewinds
  {
    hide Step, Submit, Drain;
    if RunAction(a) {
      RunRewinds(s, a);
    } else {
      QueueSteps(s, a);
      UpkeepSteps(s, a);
      StopSteps(s, a);
      LifeSteps(s, a);
      if a.Submitting? {
        SubmitRewinds(s, a.id, a.request, a.ok, a.usable);
      } else if a.Draining? {
        DrainRewinds(s, a.ok, a.usable);
      } else {
        hide SettleCall, RejectInputs, DropLocators, Waiting, NextPosition, InputQueue, InsertBefore, Without, Renumber,
          AllTakeable, Release, CancelInput;
      }
    }
  }

  lemma RunRewinds(s: State, a: Action)
    requires RunAction(a)
    ensures Step(s, a).upkeep.rewinds == s.upkeep.rewinds
  {
    hide Step, RejectInputs, DropLocators, FailCompaction, Undispatched, SetUnknown, AttachmentsHeld, FindExecution,
      Deliver, ConfirmStops, LeaveStopsUnconfirmed, SetBoth;
    DispatchSteps(s, a);
    RunSteps(s, a);
    if a.Delivering? {
      DeliverUpkeep(s, a.id, a.event, a.execution);
    }
  }

  lemma SubmitRewinds(s: State, id: Id, request: Request, ok: bool, usable: set<Id>)
    ensures Submit(s, id, request, ok, usable).upkeep == s.upkeep
  {
    hide Decide, AllClaimable, NextPosition, Claim;
  }

  lemma DrainRewinds(s: State, ok: bool, usable: set<Id>)
    ensures Drain(s, ok, usable).upkeep.rewinds == s.upkeep.rewinds
  {
    hide Progressing, QueueOf, BehindBarrier, AllTakeable, RejectInputs, DropLocators, FailCompaction, Take;
  }

  /** Whoever drives after a step that is not quiet, when nobody drove before, starts a turn. */
  lemma NewDriverStarts(s: State, a: Action) returns (i: Id)
    requires !QuietAction(a) && !HasDriving(s.turns) && HasDriving(Step(s, a).turns)
    ensures StartsTurn(s, Step(s, a), i)
  {
    hide Step, Submit, Drain, MoveQueued;
    QueueSteps(s, a);
    i :| i in Step(s, a).turns.inputs && Driving(Step(s, a).turns.inputs[i].status);
    assert !(i in s.turns.inputs && Driving(s.turns.inputs[i].status));
    if a.Submitting? {
      SubmittedStarts(s, a.id, a.request, a.ok, a.usable, i);
    } else if a.Draining? {
      DrainedStarts(s, a.ok, a.usable, i);
    } else {
      MoveRemembers(s, a.id, a.before, a.ok);
    }
  }

  lemma SubmittedStarts(s: State, id: Id, request: Request, ok: bool, usable: set<Id>, i: Id)
    requires var after := Submit(s, id, request, ok, usable).turns.inputs;
      i in after && Driving(after[i].status) && !(i in s.turns.inputs && Driving(s.turns.inputs[i].status))
    ensures StartsTurn(s, Submit(s, id, request, ok, usable), i)
  {
    hide Submit, AllClaimable, NextPosition, Claim;
    SubmitCases(s, id, request, ok, usable);
  }

  lemma DrainedStarts(s: State, ok: bool, usable: set<Id>, i: Id)
    requires var after := Drain(s, ok, usable).turns.inputs;
      i in after && Driving(after[i].status) && !(i in s.turns.inputs && Driving(s.turns.inputs[i].status))
    ensures StartsTurn(s, Drain(s, ok, usable), i)
  {
    hide Drain, Take, HasDriving;
    DrainCases(s, ok, usable);
  }

  /** Every step keeps requested rewinds undriven, given that the engine reconciles honestly. */
  lemma StepKeepsUndriven(s: State, a: Action)
    requires InTurn(s.turns) && QueueOk(s) && Honest(s, a) && RewindUndriven(s)
    ensures RewindUndriven(Step(s, a))
  {
    hide InTurn, QueueOk, Honest, Step;
    var s' := Step(s, a);
    if a.RequestingRewind? {
      UpkeepSteps(s, a);
    } else if HasRewind(s'.upkeep, RewindRequested) && HasDriving(s'.turns) {
      RewindsMoveOn(s, a);
      if QuietAction(a) {
        QuietStepKeeps(s, a);
      } else {
        var i := NewDriverStarts(s, a);
        TurnsStartUnbarred(s, a, i);
      }
    }
  }
}
