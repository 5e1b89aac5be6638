/** Why a Task, its Session, its upkeep and its files change: the exact causes of each change. */
module SessionCauses {
  import opened Wrappers
  import opened SessionState
  import opened SessionSteps
  import opened SessionQuiet
  import opened SessionQueue
  import opened SessionDraining
  import opened SessionTracking

  // Task and Session

  /** Every Input and Execution is settled, and no compaction is active. */
  ghost predicate AllSettled(s: State) {
    && (forall i :: i in s.turns.inputs ==> Over(s.turns.inputs[i].status))
    && (forall e :: e in s.turns.executions ==> s.turns.executions[e].status in {Completed, Failed, Stopped})
    && (forall c :: c in s.upkeep.compactions ==>
          s.upkeep.compactions[c].status in {CompactCompleted, CompactSkipped, CompactFailed, CompactCancelled})
  }

  predicate Freezes(s: State, a: Action) {
    a.Freezing? && a.ok && s.task == TaskActive
  }

  ghost predicate Closes(s: State, a: Action) {
    a.Closing? && a.ok && s.task != TaskClosed && (a.abandoned || AllSettled(s))
  }

  /** Nothing that the last process left behind is unresolved; queued Inputs and compactions do not count. */
  ghost predicate Restores(s: State, a: Action) {
    && a.Restoring? && a.ok && s.task == TaskActive
    && (forall i :: i in s.turns.inputs ==> Over(s.turns.inputs[i].status) || s.turns.inputs[i].status == Queued)
    && (forall e :: e in s.turns.executions ==> s.turns.executions[e].status in {Completed, Failed, Stopped})
    && (forall c :: c in s.upkeep.compactions ==>
          s.upkeep.compactions[c].status in {CompactQueued, CompactCompleted, CompactSkipped, CompactFailed, CompactCancelled})
    && (forall r :: r in s.upkeep.rewinds ==> s.upkeep.rewinds[r].status in {RewindApplied, RewindRejected})
  }

  ghost predicate Resumes(s: State, a: Action) {
    && a.Resuming? && a.ok && s.task == TaskActive && s.session == SessionActive && s.paused && s.attached
    && (exists w :: Waits(s, w))
    && (forall i :: i in s.turns.inputs ==> Over(s.turns.inputs[i].status) || s.turns.inputs[i].status == Queued)
    && (forall e :: e in s.turns.executions ==> s.turns.executions[e].status in {Completed, Failed, Stopped})
    && (forall c :: c in s.upkeep.compactions ==>
          s.upkeep.compactions[c].status in {CompactQueued, CompactCompleted, CompactSkipped, CompactFailed, CompactCancelled})
    && (forall r :: r in s.upkeep.rewinds ==> s.upkeep.rewinds[r].status != RewindRequested)
  }

  /** Nobody drives: every Input is settled or waits. */
  lemma NobodyDrives(t: Turns)
    ensures HasDriving(t) <==> !forall i :: i in t.inputs ==> Over(t.inputs[i].status) || t.inputs[i].status == Queued
    ensures HasInput(t, Queued) || HasDriving(t) <==> !forall i :: i in t.inputs ==> Over(t.inputs[i].status)
    ensures HasOpenExecution(t) <==>
      !forall e :: e in t.executions ==> t.executions[e].status in {Completed, Failed, Stopped}
  {
  }

  lemma NothingPending(u: Upkeep)
    ensures HasNativeCompact(u) <==> !forall c :: c in u.compactions ==>
      u.compactions[c].status in {CompactQueued, CompactCompleted, CompactSkipped, CompactFailed, CompactCancelled}
    ensures HasActiveCompact(u) <==> !forall c :: c in u.compactions ==>
      u.compactions[c].status in {CompactCompleted, CompactSkipped, CompactFailed, CompactCancelled}
    ensures HasRewind(u, RewindRequested) || HasRewind(u, RewindUnknown) <==>
      !forall r :: r in u.rewinds ==> u.rewinds[r].status in {RewindApplied, RewindRejected}
    ensures HasRewind(u, RewindRequested) <==> !forall r :: r in u.rewinds ==> u.rewinds[r].status != RewindRequested
  {
  }

  lemma SomethingWaits(s: State)
    ensures Waiting(s) != {} <==> exists w :: Waits(s, w)
  {
    if w :| w in Waiting(s) { WaitingIff(s, w); }
    if w :| Waits(s, w) {
      WaitingIff(s, w);
      assert w in Waiting(s);
    }
  }

  ghost predicate LifeChanges(s: State, a: Action, s': State) {
    && s'.task == (if Freezes(s, a) then TaskFrozen else if Closes(s, a) then TaskClosed else s.task)
    && s'.session == (if a.Restarting? then SessionUnknown else if Restores(s, a) then SessionActive else s.session)
    && s'.attached == (if a.Restarting? then false else if Restores(s, a) then true else s.attached)
    && s'.paused == (if a.Restarting? && s.session == SessionActive && exists w :: Waits(s, w) then true
                     else if Resumes(s, a) then false else s.paused)
  }

  lemma EndingChanges(s: State, a: Action)
    requires a.Freezing? || a.Closing?
    ensures LifeChanges(s, a, Step(s, a))
  {
    hide Step, HasDriving, HasInput, HasOpenExecution, HasActiveCompact, RejectInputs, DropLocators, Over;
    NobodyDrives(s.turns);
    NothingPending(s.upkeep);
    LifeSteps(s, a);
  }

  lemma RestartChanges(s: State, a: Action)
    requires a.Restarting?
    ensures LifeChanges(s, a, Step(s, a))
  {
    hide Step, Waiting, Waits, RecoverTurns, RecoverUpkeep;
    SomethingWaits(s);
    LifeSteps(s, a);
  }

  lemma RestoreChanges(s: State, a: Action)
    requires a.Restoring?
    ensures LifeChanges(s, a, Step(s, a))
  {
    hide Step, HasDriving, HasOpenExecution, HasNativeCompact, HasRewind, Over;
    NobodyDrives(s.turns);
    NothingPending(s.upkeep);
    LifeSteps(s, a);
  }

  lemma ResumeChanges(s: State, a: Action)
    requires a.Resuming?
    ensures LifeChanges(s, a, Step(s, a))
  {
    hide Step, HasDriving, HasOpenExecution, HasNativeCompact, HasRewind, Waiting, Waits, Over;
    NobodyDrives(s.turns);
    NothingPending(s.upkeep);
    SomethingWaits(s);
    QueueSteps(s, a);
  }

  /** Task, Session, the pause of the queue and the attachment of the Engine change exactly for these causes. */
  lemma LifeChangesExactlyWhen(s: State, a: Action)
    ensures LifeChanges(s, a, Step(s, a))
  {
    hide Step, LifeChanges;
    if a.Freezing? || a.Closing? {
      EndingChanges(s, a);
    } else if a.Restarting? {
      RestartChanges(s, a);
    } else if a.Restoring? {
      RestoreChanges(s, a);
    } else if a.Resuming? {
      ResumeChanges(s, a);
    } else {
      LifeStays(s, a);
      Unchanged(s, a, Step(s, a));
    }
  }

  lemma Unchanged(s: State, a: Action, s': State)
    requires !a.Freezing? && !a.Closing? && !a.Restarting? && !a.Restoring? && !a.Resuming? && SameLife(s, s')
    ensures LifeChanges(s, a, s')
  {
  }

  predicate SameLife(s: State, s': State) {
    s'.task == s.task && s'.session == s.session && s'.attached == s.attached && s'.paused == s.paused
  }

  lemma LifeStays(s: State, a: Action)
    requires !a.Freezing? && !a.Closing? && !a.Restarting? && !a.Restoring? && !a.Resuming?
    ensures SameLife(s, Step(s, a))
  {
    hide Step, Submit, Drain;
    if RunAction(a) {
      RunLife(s, a);
    } else if a.Submitting? || a.Draining? || a.Moving? || a.Cancelling? || a.Withdrawing? {
      QueueLife(s, a);
    } else {
      UpkeepLife(s, a);
    }
  }

  lemma RunLife(s: State, a: Action)
    requires RunAction(a)
    ensures SameLife(s, Step(s, a))
  {
    hide Step, DropLocators, RejectInputs, FailCompactions, Deliver, ConfirmStops, LeaveStopsUnconfirmed, Undispatched,
      SetUnknown, AttachmentsHeld;
    DispatchSteps(s, a);
    RunSteps(s, a);
    if a.Delivering? {
      DeliverLife(s, a.id, a.event, a.execution);
    }
  }

  lemma DeliverLife(s: State, i: Id, event: Event, e: Id)
    ensures SameLife(s, Deliver(s, i, event, e))
  {
    hide DropLocators, RejectInputs, TurnsAfter, Settles, Ignored, LateAnswer, InteractionsAfter, StopsAfter, SetUnknown;
  }

  lemma QueueLife(s: State, a: Action)
    requires a.Submitting? || a.Draining? || a.Moving? || a.Cancelling? || a.Withdrawing?
    ensures SameLife(s, Step(s, a))
  {
    hide Step, Decide, Progressing, PromoteCompact, AllTakeable, Claim, NextPosition, InputQueue, InsertBefore, Without,
      Renumber, MayMove, DropLocators, RejectInputs, FailCompactions, Take, Release;
    QueueSteps(s, a);
  }

  lemma UpkeepLife(s: State, a: Action)
    requires !RunAction(a) && !a.Submitting? && !a.Draining? && !a.Moving? && !a.Cancelling? && !a.Withdrawing?
    requires !a.Freezing? && !a.Closing? && !a.Restarting? && !a.Restoring? && !a.Resuming?
    ensures SameLife(s, Step(s, a))
  {
    hide Step, NextPosition, SettledStop, SettleCompact;
    UpkeepSteps(s, a);
    StopSteps(s, a);
    LifeSteps(s, a);
  }

  /** Freezing and abandoning reject what waits; closing otherwise changes no Input. */
  lemma EndingRejects(s: State, a: Action)
    requires a.Freezing? || a.Closing?
    ensures var s' := Step(s, a);
      && s'.upkeep == s.upkeep
      && if Freezes(s, a) || (Closes(s, a) && a.abandoned) then InputsRejected(s, s') else s'.turns == s.turns
  {
    hide Step, InputsRejected, RejectQueuedInputs, HasDriving, HasInput, HasOpenExecution, HasActiveCompact;
    GivenUp(s);
    LifeSteps(s, a);
    RejectsOnly(s);
  }

  lemma RejectsOnly(s: State)
    ensures InputsRejected(s, RejectQueuedInputs(s).(task := TaskFrozen))
    ensures InputsRejected(s, RejectQueuedInputs(s).(task := TaskClosed))
    ensures RejectQueuedInputs(s).task == s.task
  {
    hide DropLocators, LocatorsDropped;
    DropsLocators(s, RejectQueuedInputs(s).(task := TaskFrozen));
    DropsLocators(s, RejectQueuedInputs(s).(task := TaskClosed));
  }

  // A crash

  /** What was dispatched or open is unknown afterwards; everything else is as it was stored. */
  ghost predicate MarkedLost(s: State, s': State) {
    && s'.turns.inputs.Keys == s.turns.inputs.Keys && s'.turns.executions.Keys == s.turns.executions.Keys
    && s'.upkeep.compactions.Keys == s.upkeep.compactions.Keys && s'.upkeep.rewinds.Keys == s.upkeep.rewinds.Keys
    && (forall i :: i in s.turns.inputs ==>
          s'.turns.inputs[i] == if s.turns.inputs[i].status in {Received, Accepted, Started}
                                then s.turns.inputs[i].(status := Unknown) else s.turns.inputs[i])
    && (forall e :: e in s.turns.executions ==>
          s'.turns.executions[e] == if s.turns.executions[e].status in {Completed, Failed, Stopped}
                                    then s.turns.executions[e] else s.turns.executions[e].(status := Unknown))
    && (forall c :: c in s.upkeep.compactions ==>
          s'.upkeep.compactions[c] == if s.upkeep.compactions[c].status in {CompactRequested, CompactAccepted, CompactUnknown}
                                      then Compaction(CompactUnknown, None) else s.upkeep.compactions[c])
    && (forall r :: r in s.upkeep.rewinds ==>
          s'.upkeep.rewinds[r] == if s.upkeep.rewinds[r].status == RewindRequested
                                  then s.upkeep.rewinds[r].(status := RewindUnknown) else s.upkeep.rewinds[r])
  }

  /** Records that are still marked from an earlier crash are not marked again. */
  ghost predicate RecordsStay(s: State, s': State) {
    && s'.turns.inputs == s.turns.inputs && s'.turns.executions == s.turns.executions
    && s'.upkeep.compactions == s.upkeep.compactions && s'.upkeep.rewinds == s.upkeep.rewinds
  }

  /** A crash loses everything in flight and marks the stored records of an active Session, once. */
  lemma CrashesExactly(s: State)
    ensures var s' := Step(s, Restarting);
      && s'.turns.dispatching == map[] && s'.turns.streams == map[] && s'.upkeep.compacting == map[]
      && s'.upkeep.rewinding == {} && s'.files == s.files.(locators := {}) && s'.stops == s.stops.(calls := map[])
      && s'.journal == s.journal && !s'.draining
      && if s.session == SessionActive then MarkedLost(s, s') else RecordsStay(s, s')
  {
    hide Step, Waiting, RecoverTurns, RecoverUpkeep, MarkedLost;
    LifeSteps(s, Restarting);
    MarksTurns(s.turns);
    MarksUpkeep(s.upkeep);
    if s.session == SessionActive { Marks(s, Step(s, Restarting)); }
  }

  lemma MarksTurns(t: Turns)
    ensures RecoverTurns(t).inputs == InputsRecovered(t.inputs)
    ensures RecoverTurns(t).executions == ExecutionsRecovered(t.executions)
    ensures RecoverTurns(t).dispatching == map[] && RecoverTurns(t).streams == map[]
  {
  }

  lemma MarksUpkeep(u: Upkeep)
    ensures RecoverUpkeep(u).compactions == CompactionsRecovered(u.compactions)
    ensures RecoverUpkeep(u).rewinds == RewindsRecovered(u.rewinds)
    ensures RecoverUpkeep(u).compacting == map[] && RecoverUpkeep(u).rewinding == {}
  {
  }

  lemma Marks(s: State, s': State)
    requires s'.turns.inputs == InputsRecovered(s.turns.inputs)
    requires s'.turns.executions == ExecutionsRecovered(s.turns.executions)
    requires s'.upkeep.compactions == CompactionsRecovered(s.upkeep.compactions)
    requires s'.upkeep.rewinds == RewindsRecovered(s.upkeep.rewinds)
    ensures MarkedLost(s, s')
  {
  }
}
