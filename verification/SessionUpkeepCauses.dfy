/** Why compactions, file rewinds, attachments and queued Inputs change: the exact causes, and what is left alone. */
module SessionUpkeepCauses {
  import opened Wrappers
  import opened SessionState
  import opened SessionSteps
  import opened SessionQueue
  import opened SessionFifo
  import opened SessionAdmission
  import opened SessionDraining
  import opened SessionTracking
  import opened SessionCauses

  predicate OnlyUpkeep(s: State, s': State) {
    s' == s.(upkeep := s'.upkeep)
  }

  // Compactions

  ghost predicate HasToWait(s: State) {
    SomeInput(s, Queued) || SomeInput(s, Received)
  }

  ghost predicate MayCompact(s: State, c: Id, instructions: bool, ok: bool) {
    && ok && s.task == TaskActive && s.session == SessionActive && s.attached && c !in s.upkeep.compactions
    && !SomeInput(s, Unknown) && !RewindPending(s) && !Compacting(s) && AtMostOneRuns(s)
    && (HasToWait(s) ==> !instructions)
  }

  /** It comes after everything that waits. */
  ghost predicate Behind(s: State, position: Option<nat>) {
    position.Some? && forall w :: Waits(s, w) ==> Position(s, w) < position.value
  }

  ghost predicate CompactRecorded(s: State, s': State, c: Id) {
    && OnlyUpkeep(s, s') && c in s'.upkeep.compactions
    && var record := s'.upkeep.compactions[c];
       && s'.upkeep == s.upkeep.(
            compactions := s.upkeep.compactions[c := record],
            compacting := if HasToWait(s) then s.upkeep.compacting
                          else s.upkeep.compacting[c := CompactProbing(Running(s))])
       && record.status == (if HasToWait(s) then CompactQueued else CompactRequested)
       && if HasToWait(s) || Running(s) then Behind(s, record.position) else record.position == None
  }

  /** A compaction is recorded exactly under these conditions; it waits for Inputs that wait or are received. */
  lemma CompactsExactlyWhen(s: State, c: Id, instructions: bool, ok: bool)
    ensures var s' := Step(s, RequestingCompact(c, instructions, ok));
      if MayCompact(s, c, instructions, ok) then CompactRecorded(s, s', c) else s' == s
  {
    hide Step, NextPosition, HasInput, HasRewind, HasActiveCompact, ManyDispatched, HasDispatched, SomeInput, RewindPending,
      Compacting, AtMostOneRuns, Running, Behind, HasToWait;
    UpkeepSteps(s, RequestingCompact(c, instructions, ok));
    Questions(s);
    assert HasToWait(s) == (HasInput(s.turns, Queued) || HasInput(s.turns, Received)) by { WaitingInputs(s); }
    NextBehind(s);
  }

  lemma WaitingInputs(s: State)
    ensures HasToWait(s) == (HasInput(s.turns, Queued) || HasInput(s.turns, Received))
  {
  }

  lemma NextBehind(s: State)
    ensures Behind(s, Some(NextPosition(s)))
  {
    NextIsBehind(s);
  }

  /** Nothing stands between a requested compaction and the call of the engine. */
  ghost predicate MayCall(s: State, c: Id, ok: bool)
    requires c in s.upkeep.compacting && c in s.upkeep.compactions && s.upkeep.compacting[c].CompactProbing?
  {
    var record := s.upkeep.compactions[c];
    && ok && s.task == TaskActive && s.session == SessionActive && s.attached
    && !SomeInput(s, Unknown) && !RewindPending(s) && record.status == CompactRequested
    && (forall d :: d in s.upkeep.compactions && d != c ==>
          s.upkeep.compactions[d].status in {CompactCompleted, CompactSkipped, CompactFailed, CompactCancelled})
    && (forall i :: i in s.turns.inputs && s.turns.inputs[i].status == Queued ==>
          record.position.Some? && record.position.value <= s.turns.inputs[i].position.GetOr(0))
    && (s.upkeep.compacting[c].behindInput || !Running(s))
  }

  /** The engine is called for a compaction exactly then; otherwise the compaction fails before the call. */
  lemma CallsCompactExactlyWhen(s: State, c: Id, ok: bool)
    requires c in s.upkeep.compacting && c in s.upkeep.compactions && s.upkeep.compacting[c].CompactProbing?
    ensures var s', u := Step(s, CallingCompact(c, ok)), s.upkeep;
      s' == s.(upkeep := if MayCall(s, c, ok)
                         then u.(compacting := u.compacting[c := CompactCalling])
                         else u.(compactions := u.compactions[c := Compaction(CompactFailed, None)],
                                 compacting := u.compacting - {c}))
  {
    hide Step, HasInput, HasRewind, HasDriving, SomeInput, RewindPending, Running;
    UpkeepSteps(s, CallingCompact(c, ok));
    Questions(s);
    Others(s.upkeep, c);
    Earlier(s.turns, s.upkeep.compactions[c].position);
    hide OtherActiveCompact, EarlierQueuedInput;
  }

  lemma Others(u: Upkeep, c: Id)
    ensures !OtherActiveCompact(u, c) <==> forall d :: d in u.compactions && d != c ==>
      u.compactions[d].status in {CompactCompleted, CompactSkipped, CompactFailed, CompactCancelled}
  {
  }

  lemma Earlier(t: Turns, position: Option<nat>)
    ensures !EarlierQueuedInput(t, position) <==> forall i :: i in t.inputs && t.inputs[i].status == Queued ==>
      position.Some? && position.value <= t.inputs[i].position.GetOr(0)
  {
  }

  predicate Ended(status: CompactStatus) {
    status in {CompactUnknown, CompactCompleted, CompactSkipped, CompactFailed, CompactCancelled}
  }

  /** What the engine answers is recorded; before its call a compaction only fails or becomes unknown. */
  lemma CompactAnswers(s: State, c: Id, status: CompactStatus)
    requires c in s.upkeep.compactions
    ensures var u := s.upkeep;
      && Step(s, FinishingCompact(c, status))
         == (if c in u.compacting && Ended(status) && (u.compacting[c].CompactCalling? || status in {CompactFailed, CompactUnknown})
             then s.(upkeep := u.(compactions := u.compactions[c := Compaction(status, None)], compacting := u.compacting - {c}))
             else s)
      && Step(s, AcceptingCompact(c))
         == if c in u.compacting && u.compacting[c].CompactCalling? && u.compactions[c].status == CompactRequested
            then s.(upkeep := u.(compactions := u.compactions[c := u.compactions[c].(status := CompactAccepted)]))
            else s
  {
    hide Step;
    UpkeepSteps(s, FinishingCompact(c, status));
    UpkeepSteps(s, AcceptingCompact(c));
  }

  // File rewinds

  /** A settled Execution, an idle Session, and no rewind of that Execution with an unknown outcome. */
  ghost predicate MayRewind(s: State, r: Id, e: Id, ok: bool) {
    && ok && s.task == TaskActive && s.session == SessionActive && s.attached && r !in s.upkeep.rewinds
    && e in s.turns.executions && s.turns.executions[e].status in {Completed, Failed, Stopped}
    && (forall i :: i in s.turns.inputs ==> Over(s.turns.inputs[i].status))
    && (forall c :: c in s.upkeep.compactions ==>
          s.upkeep.compactions[c].status in {CompactCompleted, CompactSkipped, CompactFailed, CompactCancelled})
    && (forall x :: x in s.upkeep.rewinds ==>
          s.upkeep.rewinds[x].status != RewindRequested
          && !(s.upkeep.rewinds[x].status == RewindUnknown && s.upkeep.rewinds[x].execution == e))
  }

  /** A file rewind is requested exactly then, and its outcome is recorded once. */
  lemma RewindsExactlyWhen(s: State, r: Id, e: Id, ok: bool, status: RewindStatus)
    ensures var u := s.upkeep;
      && Step(s, RequestingRewind(r, e, ok))
         == (if MayRewind(s, r, e, ok)
             then s.(upkeep := u.(rewinds := u.rewinds[r := Rewind(RewindRequested, e)], rewinding := u.rewinding + {r}))
             else s)
      && Step(s, FinishingRewind(r, status))
         == if r in u.rewinding && r in u.rewinds && status in {RewindApplied, RewindRejected, RewindUnknown}
            then s.(upkeep := u.(rewinds := u.rewinds[r := Rewind(status, u.rewinds[r].execution)],
                                 rewinding := u.rewinding - {r}))
            else s
  {
    hide Step, HasInput, HasDriving, HasActiveCompact, HasRewind, Over;
    UpkeepSteps(s, RequestingRewind(r, e, ok));
    UpkeepSteps(s, FinishingRewind(r, status));
    NobodyDrives(s.turns);
    NothingPending(s.upkeep);
  }

  // Attachments and queued Inputs

  /** A new attachment is free and has its locator in memory. */
  lemma StagesExactlyWhen(s: State, a: Id, ok: bool)
    ensures var f := s.files;
      Step(s, Staging(a, ok))
      == if ok && s.task == TaskActive && s.session == SessionActive && a !in f.attachments
         then s.(files := Files(f.attachments[a := Attachment(None, false, None)], f.locators + {a}))
         else s
  {
    hide Step;
    LifeSteps(s, Staging(a, ok));
  }

  predicate IsQueued(s: State, i: Id) {
    i in s.turns.inputs && s.turns.inputs[i].status == Queued
  }

  /** Cancelling takes one Input out of the queue; its attachments stay with it and lose their locators. */
  lemma CancelsExactlyWhen(s: State, i: Id, ok: bool)
    ensures var s', f := Step(s, Cancelling(i, ok)), s.files;
      if ok && IsQueued(s, i)
      then && s' == s.(turns := s.turns.(inputs := s.turns.inputs[i := s.turns.inputs[i].(status := Cancelled)]), files := s'.files)
           && s'.files.locators == f.locators && s'.files.attachments.Keys == f.attachments.Keys
           && forall a :: a in f.attachments ==>
                s'.files.attachments[a]
                == if a in s.turns.inputs[i].request.attachments && f.attachments[a].holder == Some(i)
                   then f.attachments[a].(locator := false) else f.attachments[a]
      else s' == s
  {
    hide Step;
    QueueSteps(s, Cancelling(i, ok));
  }

  /** Withdrawing gives all attachments of a queued Input back to be edited, or nothing happens. */
  lemma WithdrawsExactlyWhen(s: State, i: Id, ok: bool, usable: set<Id>)
    ensures var s', f := Step(s, Withdrawing(i, ok, usable)), s.files;
      if ok && s.task == TaskActive && s.session == SessionActive && IsQueued(s, i) && AtHand(s, i, usable)
      then && s' == s.(turns := s.turns.(inputs := s.turns.inputs[i := s.turns.inputs[i].(status := Cancelled)]), files := s'.files)
           && s'.files.locators == f.locators && s'.files.attachments.Keys == f.attachments.Keys
           && forall a :: a in f.attachments ==>
                s'.files.attachments[a]
                == if a in s.turns.inputs[i].request.attachments then Attachment(None, true, Some(i)) else f.attachments[a]
      else s' == s
  {
    hide Step, AtHand, AllTakeable;
    QueueSteps(s, Withdrawing(i, ok, usable));
    if i in s.turns.inputs { AtHandIff(s, i, usable); }
  }

  /** No compaction that may still run has a place in the queue, and the Input and its anchor wait. */
  ghost predicate Movable(s: State, i: Id, before: Option<Id>, ok: bool) {
    && ok && s.task == TaskActive && s.session == SessionActive && !s.draining
    && (forall c :: c in s.upkeep.compactions
          && s.upkeep.compactions[c].status in {CompactQueued, CompactRequested, CompactAccepted, CompactUnknown}
          ==> s.upkeep.compactions[c].position == None)
    && IsQueued(s, i) && (before.Some? ==> IsQueued(s, before.value))
  }

  /** Moving changes the places of queued Inputs, and nothing else; an Input that is its own anchor stays. */
  lemma MovesExactlyWhen(s: State, i: Id, before: Option<Id>, ok: bool)
    requires QueueOk(s)
    ensures var s' := Step(s, Moving(i, before, ok));
      if Movable(s, i, before, ok) && before != Some(i)
      then && s' == s.(turns := s.turns.(inputs := s'.turns.inputs)) && s'.turns.inputs.Keys == s.turns.inputs.Keys
           && (forall j :: j in s.turns.inputs ==>
                 s'.turns.inputs[j] == if IsQueued(s, j) then s.turns.inputs[j].(position := s'.turns.inputs[j].position)
                                       else s.turns.inputs[j])
           && (forall j :: j in InputQueue(s'.turns.inputs) <==> j in InputQueue(s.turns.inputs))
           && Placed(InputQueue(s'.turns.inputs), i, before)
           && Without(InputQueue(s'.turns.inputs), i) == Without(InputQueue(s.turns.inputs), i)
      else s' == s
  {
    hide Step, QueueOk, InputQueue, InsertBefore, Without, Placed;
    QueueSteps(s, Moving(i, before, ok));
    if MayMove(s, i, before, ok) && before != Some(i) {
      MovePermutes(s, i, before, ok);
    }
  }
}
