/** The queue never gets stuck behind itself: draining is marked exactly while an Input from the queue is dispatched. */
module SessionPromotions {
  import opened SessionState
  import opened SessionSteps
  import opened SessionQuiet
  import opened SessionFiles

  predicate Promoted(dispatching: map<Id, Dispatch>, i: Id) {
    i in dispatching && dispatching[i].promoted
  }

  /** The mark is set exactly while a dispatch from the queue is in flight, and there is one such dispatch at most. */
  ghost predicate Marked(dispatching: map<Id, Dispatch>, draining: bool) {
    && (draining <==> exists i :: Promoted(dispatching, i))
    && forall i, j :: Promoted(dispatching, i) && Promoted(dispatching, j) ==> i == j
  }

  lemma MarksNew(before: map<Id, Dispatch>, draining: bool, i: Id, promoted: bool)
    requires Marked(before, draining) && !(promoted && draining) && !Promoted(before, i)
    ensures Marked(before[i := Probing(promoted)], draining || promoted)
  {
    var after := before[i := Probing(promoted)];
    assert forall j :: Promoted(after, j) <==> Promoted(before, j) || (j == i && promoted);
  }

  lemma MarksCall(before: map<Id, Dispatch>, draining: bool, i: Id)
    requires Marked(before, draining) && i in before
    ensures Marked(before[i := Calling(before[i].promoted)], draining)
  {
    var after := before[i := Calling(before[i].promoted)];
    assert forall j :: Promoted(after, j) <==> Promoted(before, j);
  }

  lemma MarksOver(before: map<Id, Dispatch>, draining: bool, i: Id)
    requires Marked(before, draining) && i in before
    ensures Marked(before - {i}, draining && !before[i].promoted)
  {
    var after := before - {i};
    assert forall j :: Promoted(after, j) <==> Promoted(before, j) && j != i;
    if before[i].promoted { assert Promoted(before, i); }
  }

  lemma DispatchMarks(s: State, a: Action)
    requires Marked(s.turns.dispatching, s.draining) && (a.CallingEngine? || a.FailingDispatch? || a.Returning?)
    ensures Marked(Step(s, a).turns.dispatching, Step(s, a).draining)
  {
    hide Step, Marked, AttachmentsHeld, RejectInputs, DropLocators, FailCompactions;
    DispatchSteps(s, a);
    if a.id in s.turns.dispatching {
      MarksCall(s.turns.dispatching, s.draining, a.id);
      MarksOver(s.turns.dispatching, s.draining, a.id);
    }
  }

  /** A step that neither starts nor ends a dispatch. */
  predicate Aside(s: State, s': State) {
    s'.turns.dispatching == s.turns.dispatching && s'.draining == s.draining
  }

  lemma RunAside(s: State, a: Action)
    requires a.Delivering? || a.EndingStream? || a.ReconcilingInput? || a.ReconcilingExecution?
    ensures Aside(s, Step(s, a))
  {
    hide Step, DropLocators, RejectInputs, Deliver, ConfirmStops, LeaveStopsUnconfirmed, FindExecution;
    RunSteps(s, a);
    if a.Delivering? { DeliverAside(s, a.id, a.event, a.execution); }
  }

  lemma DeliverAside(s: State, i: Id, event: Event, e: Id)
    ensures Aside(s, Deliver(s, i, event, e))
  {
    hide DropLocators, RejectInputs, Settles, Ignored, LateAnswer, InteractionsAfter, StopsAfter, FindExecution;
    if i in s.turns.streams && i in s.turns.inputs {
      TurnsAfterStreams(s.turns, i, s.turns.streams[i].native, event.payload, e);
      hide TurnsAfter;
    }
  }

  lemma OtherAside(s: State, a: Action)
    requires !RunAction(a) && !a.Submitting? && !a.Draining? && !a.Restarting?
    ensures Aside(s, Step(s, a))
  {
    hide Step, AllTakeable, InputQueue, InsertBefore, Without, Renumber, MayMove, NextPosition, DropLocators, RejectInputs,
      Release, SettledStop, SettleCompact;
    QueueSteps(s, a);
    UpkeepSteps(s, a);
    StopSteps(s, a);
    LifeSteps(s, a);
  }

  lemma SubmitMarks(s: State, id: Id, request: Request, ok: bool, usable: set<Id>)
    requires Marked(s.turns.dispatching, s.draining) && (id in s.turns.dispatching ==> id in s.turns.inputs)
    ensures var s' := Submit(s, id, request, ok, usable); Marked(s'.turns.dispatching, s'.draining)
  {
    hide Submit, Marked, AllClaimable, Claim, NextPosition;
    SubmitCases(s, id, request, ok, usable);
    if id !in s.turns.inputs { MarksNew(s.turns.dispatching, s.draining, id, false); }
  }

  lemma DrainMarks(s: State, ok: bool, usable: set<Id>)
    requires Marked(s.turns.dispatching, s.draining) && Recorded(s.turns)
    ensures var s' := Drain(s, ok, usable); Marked(s'.turns.dispatching, s'.draining)
  {
    hide Marked, QueueOf, BehindBarrier, AllTakeable, RejectInputs, DropLocators, FailCompactions, Take, PromoteCompact,
      HasInput, HasCompact, HasRewind, HasDriving;
    forall i | QueuedInput(s.turns.inputs, i) && !s.draining
      ensures Marked(s.turns.dispatching[i := Probing(true)], true) {
      MarksNew(s.turns.dispatching, s.draining, i, true);
    }
  }

  lemma StepMarks(s: State, a: Action)
    requires Marked(s.turns.dispatching, s.draining) && Recorded(s.turns)
    ensures Marked(Step(s, a).turns.dispatching, Step(s, a).draining)
  {
    hide Step, Marked, Submit, Drain;
    if a.CallingEngine? || a.FailingDispatch? || a.Returning? {
      DispatchMarks(s, a);
    } else if RunAction(a) {
      RunAside(s, a);
    } else if a.Submitting? || a.Draining? {
      QueueSteps(s, a);
      if a.Submitting? {
        SubmitMarks(s, a.id, a.request, a.ok, a.usable);
      } else {
        DrainMarks(s, a.ok, a.usable);
      }
    } else if a.Restarting? {
      RestartMarks(s);
    } else {
      OtherAside(s, a);
    }
  }

  lemma RestartMarks(s: State)
    ensures Marked(Step(s, Restarting).turns.dispatching, Step(s, Restarting).draining)
  {
    hide Step, Waiting, RecoverUpkeep;
    LifeSteps(s, Restarting);
    assert forall i :: !Promoted(Step(s, Restarting).turns.dispatching, i);
  }

  lemma FreshMarked()
    ensures Marked(Fresh.turns.dispatching, Fresh.draining) && Recorded(Fresh.turns)
  {
  }

  lemma {:induction false} RunMarks(actions: seq<Action>)
    ensures var s := Run(Fresh, actions); Marked(s.turns.dispatching, s.draining) && Recorded(s.turns)
    decreases |actions|
  {
    hide Step, Recorded, Marked;
    FreshMarked();
    if actions != [] {
      RunMarks(actions[..|actions| - 1]);
      StepRecorded(Run(Fresh, actions[..|actions| - 1]), actions[|actions| - 1]);
      StepMarks(Run(Fresh, actions[..|actions| - 1]), actions[|actions| - 1]);
    }
  }

  /** In every reachable state the queue is marked as draining exactly while one of its Inputs is being dispatched. */
  lemma {:induction false} DrainingAlways(actions: seq<Action>)
    ensures var s := Run(Fresh, actions);
      s.draining <==> exists i :: i in s.turns.dispatching && s.turns.dispatching[i].promoted
  {
    RunMarks(actions);
    hide Run;
    var dispatching := Run(Fresh, actions).turns.dispatching;
    assert forall i :: Promoted(dispatching, i) <==> i in dispatching && dispatching[i].promoted;
  }
}
