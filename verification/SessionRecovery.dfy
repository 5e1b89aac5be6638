/** What a crash leaves behind, whatever was in flight when the process died. */
module SessionRecovery {
  import opened SessionState
  import opened SessionSteps
  import opened SessionQuiet
  import opened SessionQueue

  /** Nothing runs or is believed to run; what waits is paused. */
  ghost predicate Down(s: State) {
    && TurnsDown(s.turns) && UpkeepDown(s.upkeep)
    && (Waiting(s) != {} ==> s.paused) && !s.attached && !s.draining
  }

  ghost predicate TurnsDown(t: Turns) {
    && (forall i :: i in t.inputs ==> !Dispatched(t.inputs[i].status))
    && (forall e :: e in t.executions ==> Terminal(t.executions[e].status) || t.executions[e].status.Unknown?)
    && t.dispatching == map[] && t.streams == map[]
  }

  ghost predicate UpkeepDown(u: Upkeep) {
    && (forall c :: c in u.compactions ==> !NativeCompact(u.compactions[c]))
    && (forall r :: r in u.rewinds ==> !u.rewinds[r].status.RewindRequested?)
    && u.compacting == map[] && u.rewinding == {}
  }

  ghost predicate DownUntilRestored(s: State) {
    s.session.SessionUnknown? ==> Down(s)
  }

  /** The queue survives a crash, in its order, and is paused; every other unfinished record becomes unknown. */
  lemma CrashKeepsQueue(s: State)
    requires DownUntilRestored(s)
    ensures Down(Restart(s)) && Restart(s).session.SessionUnknown?
    ensures QueueOf(Restart(s)) == QueueOf(s)
    ensures forall i :: i in s.turns.inputs ==>
      && i in Restart(s).turns.inputs
      && Restart(s).turns.inputs[i]
         == if Dispatched(s.turns.inputs[i].status) then s.turns.inputs[i].(status := Unknown) else s.turns.inputs[i]
  {
    assert Places(Restart(s)) == Places(s) by {
      hide RecoverTurns, RecoverUpkeep, Places;
      SamePlaces(s);
    }
  }

  lemma KeepsQueued(s: State)
    ensures var t, u := Restart(s).turns, Restart(s).upkeep;
      && (forall i :: QueuedInput(t.inputs, i) <==> QueuedInput(s.turns.inputs, i))
      && (forall i :: QueuedInput(s.turns.inputs, i) ==> t.inputs[i] == s.turns.inputs[i])
      && (forall c :: QueuedCompaction(u.compactions, c) <==> QueuedCompaction(s.upkeep.compactions, c))
      && (forall c :: QueuedCompaction(s.upkeep.compactions, c) ==> u.compactions[c] == s.upkeep.compactions[c])
  {
    hide RecoverExecution, RecoverRewind, Waiting;
  }

  lemma SameWaiting(s: State)
    ensures Waiting(Restart(s)) == Waiting(s)
    ensures forall w :: Waits(s, w) ==> Waits(Restart(s), w) && Position(Restart(s), w) == Position(s, w)
  {
    hide Restart, Waiting, QueuedInput, QueuedCompaction;
    KeepsQueued(s);
    forall w ensures w in Waiting(Restart(s)) <==> w in Waiting(s) {
      WaitingIff(s, w);
      WaitingIff(Restart(s), w);
    }
  }

  lemma SamePlaces(s: State)
    ensures Places(Restart(s)) == Places(s)
  {
    hide Restart, Waiting, Waits, Position;
    SameWaiting(s);
    forall w ensures w in Waiting(s) <==> Waits(s, w) {
      WaitingIff(s, w);
    }
  }

  // While the Session is not restored, whatever is called

  /** Inputs and compactions only left the queue. */
  lemma LeavingStaysDown(s: State, s': State)
    requires Down(s) && TurnsDown(s'.turns) && UpkeepDown(s'.upkeep)
    requires s'.paused == s.paused && s'.attached == s.attached && s'.draining == s.draining
    requires forall i :: QueuedInput(s'.turns.inputs, i) ==> QueuedInput(s.turns.inputs, i)
    requires forall c :: QueuedCompaction(s'.upkeep.compactions, c) ==> QueuedCompaction(s.upkeep.compactions, c)
    ensures Down(s')
  {
    if w :| w in Waiting(s') {
      WaitingIff(s', w);
      WaitingIff(s, w);
    }
  }

  lemma StopsDown(s: State)
    requires Down(s)
    ensures Down(StopQueue(s)) && Down(RejectQueuedInputs(s)) && Down(s)
  {
    hide Waiting, DropLocators, Down;
    assert TurnsDown(s.turns) && UpkeepDown(s.upkeep) by { DownParts(s); }
    LeavingStaysDown(s, StopQueue(s));
    LeavingStaysDown(s, RejectQueuedInputs(s));
  }

  lemma DownParts(s: State)
    requires Down(s)
    ensures TurnsDown(s.turns) && UpkeepDown(s.upkeep)
  {
  }

  lemma LifecycleStaysDown(s: State, a: Action)
    requires Down(s) && s.session.SessionUnknown? && (a.Draining? || a.Freezing? || a.Closing? || a.Cancelling?)
    ensures Down(Step(s, a))
  {
    StopsDown(s);
    if a.Cancelling? {
      hide Waiting, DropLocators;
      LeavingStaysDown(s, CancelQueued(s, a.id, a.ok));
    } else {
      hide Down, QueueOf, RejectInputs, DropLocators, FailCompactions;
      OtherFields(s, RejectQueuedInputs(s), TaskFrozen);
      OtherFields(s, RejectQueuedInputs(s), TaskClosed);
      OtherFields(s, s, TaskClosed);
    }
  }

  lemma OtherFields(s: State, s': State, task: TaskStatus)
    requires Down(s')
    ensures Down(s'.(task := task))
  {
    assert Waiting(s'.(task := task)) == Waiting(s');
  }

  lemma ReconcilingStaysDown(s: State, a: Action)
    requires Down(s) && (a.ReconcilingInput? || a.ReconcilingExecution?)
    ensures Down(Step(s, a))
  {
    hide Waiting, ConfirmStops, LeaveStopsUnconfirmed, FindExecution;
    LeavingStaysDown(s, Step(s, a));
  }

  /** The steps that need an active Session, a dispatch, a run or a call in flight do nothing. */
  lemma IdleStaysDown(s: State, a: Action)
    requires Down(s) && s.session.SessionUnknown? && !a.Restarting? && !a.Restoring?
    requires !a.Draining? && !a.Freezing? && !a.Closing? && !a.Cancelling?
    requires !a.ReconcilingInput? && !a.ReconcilingExecution?
    ensures Step(s, a) == s.(stops := Step(s, a).stops)
  {
    hide Waiting, TurnsAfter, Settles, RejectInputs, DropLocators, FailCompactions, SettledStop, Effect;
  }

  lemma StepStaysDown(s: State, a: Action)
    requires DownUntilRestored(s)
    ensures DownUntilRestored(Step(s, a))
  {
    hide Down, Step;
    if a.Restarting? {
      CrashIsDown(s);
    } else if s.session.SessionUnknown? && !a.Restoring? {
      if a.Draining? || a.Freezing? || a.Closing? || a.Cancelling? {
        LifecycleStaysDown(s, a);
      } else if a.ReconcilingInput? || a.ReconcilingExecution? {
        ReconcilingStaysDown(s, a);
      } else {
        IdleStaysDown(s, a);
        StopsIrrelevant(s, Step(s, a).stops);
      }
    } else {
      SessionStays(s, a);
    }
  }

  lemma CrashIsDown(s: State)
    requires DownUntilRestored(s)
    ensures DownUntilRestored(Step(s, Restarting))
  {
    hide Down, Restart, QueueOf, Step;
    CrashKeepsQueue(s);
    RestartIsStep(s);
  }

  lemma RestartIsStep(s: State)
    ensures Step(s, Restarting) == Restart(s)
  {
    hide Restart;
  }

  lemma StopsIrrelevant(s: State, stops: Stops)
    requires Down(s)
    ensures Down(s.(stops := stops))
  {
    assert Waiting(s.(stops := stops)) == Waiting(s);
  }

  lemma SessionStays(s: State, a: Action)
    requires !a.Restarting? && (a.Restoring? || s.session.SessionActive?)
    ensures Step(s, a).session.SessionActive? || Step(s, a) == s
  {
    if RunAction(a) {
      RunStays(s, a);
    } else {
      OtherStays(s, a);
    }
  }

  lemma RunStays(s: State, a: Action)
    requires RunAction(a)
    ensures Step(s, a).session == s.session
  {
    hide DropLocators, RejectInputs, FailCompactions, TurnsAfter, Settles, Ignored, LateAnswer, InteractionsAfter,
      StopsAfter, ConfirmStops, LeaveStopsUnconfirmed, Undispatched, SetUnknown;
  }

  lemma OtherStays(s: State, a: Action)
    requires !RunAction(a) && !a.Restarting?
    ensures Step(s, a).session == s.session || Step(s, a).session.SessionActive? || Step(s, a) == s
  {
    hide Decide, Progressing, PromoteCompact, AllTakeable, Claim, NextPosition, InputQueue, InsertBefore, Without,
      Renumber, MayMove, DropLocators, RejectInputs, FailCompactions, Waiting, SettledStop, SettleCompact, Take, Release;
  }

  lemma {:induction false} RunStaysDown(actions: seq<Action>)
    ensures DownUntilRestored(Run(Fresh, actions))
    decreases |actions|
  {
    if actions != [] {
      hide DownUntilRestored, Step;
      RunStaysDown(actions[..|actions| - 1]);
      StepStaysDown(Run(Fresh, actions[..|actions| - 1]), actions[|actions| - 1]);
    }
  }

  /**
   In every run, crashes at any point included: a crash leaves the queue as it was, and until the Session is restored
   nothing runs, nothing is requested, and what waits stays paused.
   */
  lemma {:induction false} CrashesAreSafe(actions: seq<Action>)
    ensures var s := Run(Fresh, actions);
      && (s.session.SessionUnknown? ==> Down(s))
      && Down(Step(s, Restarting)) && QueueOf(Step(s, Restarting)) == QueueOf(s)
  {
    RunStaysDown(actions);
    hide Down, Restart, QueueOf, Run, Step;
    CrashKeepsQueue(Run(Fresh, actions));
    RestartIsStep(Run(Fresh, actions));
  }
}
