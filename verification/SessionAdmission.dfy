/** When work is let in: the exact conditions under which a submission waits, starts or is rejected. */
module SessionAdmission {
  import opened Wrappers
  import opened SessionState
  import opened SessionSteps
  import opened SessionQueue
  import opened SessionFifo

  /** Neither the identity nor the idempotency key was used before. */
  ghost predicate Unused(s: State, id: Id, request: Request) {
    && id !in s.turns.inputs
    && (request.key.Some? ==> forall i :: i in s.turns.inputs ==> s.turns.inputs[i].request.key != request.key)
  }

  /** Staged and unexpired, held by nobody, with a locator at hand; taken back for an edit only from a cancelled Input. */
  predicate Free(s: State, a: Id, usable: set<Id>) {
    && a in usable && a in s.files.attachments
    && var file := s.files.attachments[a];
       && file.holder.None? && (file.locator || a in s.files.locators)
       && match file.editSource
          case None => true
          case Some(i) =>
            i in s.turns.inputs && s.turns.inputs[i].status.Cancelled? && a in s.turns.inputs[i].request.attachments
  }

  ghost predicate AllFree(s: State, request: Request, usable: set<Id>) {
    forall k :: 0 <= k < |request.attachments| ==> Free(s, request.attachments[k], usable)
  }

  ghost predicate SomeInput(s: State, status: Status) {
    exists i :: i in s.turns.inputs && s.turns.inputs[i].status == status
  }

  ghost predicate SomeCompaction(s: State, status: CompactStatus) {
    exists c :: c in s.upkeep.compactions && s.upkeep.compactions[c].status == status
  }

  ghost predicate RewindPending(s: State) {
    exists r :: r in s.upkeep.rewinds && s.upkeep.rewinds[r].status == RewindRequested
  }

  ghost predicate Compacting(s: State) {
    || SomeCompaction(s, CompactQueued) || SomeCompaction(s, CompactRequested) || SomeCompaction(s, CompactAccepted)
    || SomeCompaction(s, CompactUnknown)
  }

  ghost predicate Running(s: State) {
    SomeInput(s, Received) || SomeInput(s, Accepted) || SomeInput(s, Started)
  }

  ghost predicate AtMostOneRuns(s: State) {
    forall i, j {:trigger s.turns.inputs[i], s.turns.inputs[j]} ::
      && i in s.turns.inputs && s.turns.inputs[i].status in {Received, Accepted, Started}
      && j in s.turns.inputs && s.turns.inputs[j].status in {Received, Accepted, Started}
      ==> i == j
  }

  ghost predicate Qualified(s: State, id: Id, request: Request, ok: bool) {
    ok && s.task == TaskActive && s.session == SessionActive && Unused(s, id, request)
  }

  /** The submission asks to wait, there is something to wait for, and nothing is lost. */
  ghost predicate MayWait(s: State, id: Id, request: Request, ok: bool, usable: set<Id>) {
    && Qualified(s, id, request, ok) && !RewindPending(s) && request.delivery == Queue
    && (SomeInput(s, Queued) || Running(s) || Compacting(s))
    && !SomeInput(s, Unknown) && !SomeCompaction(s, CompactUnknown) && AtMostOneRuns(s)
    && AllFree(s, request, usable)
  }

  /** The Session is idle. */
  ghost predicate MayStart(s: State, id: Id, request: Request, ok: bool) {
    && Qualified(s, id, request, ok) && !RewindPending(s) && !Compacting(s)
    && !SomeInput(s, Queued) && !Running(s) && !SomeInput(s, Unknown)
  }

  lemma FreeIsClaimable(s: State, request: Request, usable: set<Id>)
    ensures AllFree(s, request, usable) <==> AllClaimable(s, request, usable)
  {
    forall a | a in request.attachments ensures Free(s, a, usable) <==> Claimable(s, a, usable) {
    }
    if AllFree(s, request, usable) {
      forall a | a in request.attachments ensures Claimable(s, a, usable) {
        var k :| 0 <= k < |request.attachments| && request.attachments[k] == a;
      }
    } else {
      var k :| 0 <= k < |request.attachments| && !Free(s, request.attachments[k], usable);
      assert !Claimable(s, request.attachments[k], usable);
    }
  }

  lemma Questions(s: State)
    ensures HasInput(s.turns, Queued) == SomeInput(s, Queued) && HasInput(s.turns, Unknown) == SomeInput(s, Unknown)
    ensures HasDispatched(s.turns) == Running(s)
    ensures HasDriving(s.turns) == (Running(s) || SomeInput(s, Unknown))
    ensures HasActiveCompact(s.upkeep) == Compacting(s)
    ensures HasCompact(s.upkeep, CompactUnknown) == SomeCompaction(s, CompactUnknown)
    ensures HasRewind(s.upkeep, RewindRequested) == RewindPending(s)
    ensures ManyDispatched(s.turns) == !AtMostOneRuns(s)
  {
    assert forall c :: c in s.upkeep.compactions && ActiveCompact(s.upkeep.compactions[c].status) ==>
      var status := s.upkeep.compactions[c].status;
      status == CompactQueued || status == CompactRequested || status == CompactAccepted || status == CompactUnknown;
    assert forall i :: i in s.turns.inputs && Driving(s.turns.inputs[i].status) ==>
      var status := s.turns.inputs[i].status;
      status == Received || status == Accepted || status == Started || status == Unknown;
  }

  lemma DecidesAs(s: State, id: Id, request: Request, ok: bool, usable: set<Id>)
    ensures Decide(s, id, request, ok, usable).Enqueue? <==> MayWait(s, id, request, ok, usable)
    ensures Decide(s, id, request, ok, usable).Start? <==> MayStart(s, id, request, ok)
  {
    Questions(s);
    FreeIsClaimable(s, request, usable);
    UnusedIff(s, id, request);
    hide HasInput, HasDispatched, HasDriving, HasActiveCompact, HasCompact, HasRewind, ManyDispatched, SomeInput,
      SomeCompaction, Running, Compacting, RewindPending, AtMostOneRuns, AllFree, AllClaimable, Unused;
  }

  lemma UnusedIff(s: State, id: Id, request: Request)
    ensures Unused(s, id, request)
        <==> id !in s.turns.inputs && forall i :: !OwnsKey(s.turns.inputs, request.key, i)
  {
    if id !in s.turns.inputs && forall i :: !OwnsKey(s.turns.inputs, request.key, i) {
      forall i | i in s.turns.inputs && request.key.Some? ensures s.turns.inputs[i].request.key != request.key {
        assert !OwnsKey(s.turns.inputs, request.key, i);
      }
    }
  }

  lemma SubmittedAs(s: State, id: Id, request: Request, ok: bool, usable: set<Id>)
    ensures var d, s' := Decide(s, id, request, ok, usable), Submit(s, id, request, ok, usable);
      && (d.Enqueue? ==> s' == EnqueueInput(s, id, request))
      && (d.Start? && AllClaimable(s, request, usable) ==> s' == StartInput(s, id, request))
      && (d.Start? && !AllClaimable(s, request, usable) ==> s' == RefuseInput(s, id, request))
      && (!d.Enqueue? && !d.Start? ==> s' == s)
      && (d.Enqueue? || d.Start? ==> id !in s.turns.inputs)
  {
    hide Decide, AllClaimable, EnqueueInput, StartInput, RefuseInput;
  }

  lemma RecordedInputs(s: State, id: Id, request: Request)
    ensures var before := s.turns.inputs;
      && EnqueueInput(s, id, request).turns.inputs == before[id := Input(Queued, request, Some(NextPosition(s)), None)]
      && StartInput(s, id, request).turns.inputs == before[id := Input(Received, request, None, None)]
      && RefuseInput(s, id, request).turns.inputs == before[id := Input(Rejected, request, None, None)]
  {
    hide NextPosition, Claim;
  }

  /** A submission waits, starts or is rejected exactly under these conditions, and otherwise changes nothing. */
  lemma SubmitsExactlyWhen(s: State, id: Id, request: Request, ok: bool, usable: set<Id>)
    ensures var before, s' := s.turns.inputs, Step(s, Submitting(id, request, ok, usable));
      var after := s'.turns.inputs;
      && (id !in before && id in after && after[id].status == Queued <==> MayWait(s, id, request, ok, usable))
      && (id !in before && id in after && after[id].status == Received
          <==> MayStart(s, id, request, ok) && AllFree(s, request, usable))
      && (id !in before && id in after && after[id].status == Rejected
          <==> MayStart(s, id, request, ok) && !AllFree(s, request, usable))
      && (MayWait(s, id, request, ok, usable) || MayStart(s, id, request, ok) ==>
            after == before[id := after[id]] && after[id].request == request)
      && (!MayWait(s, id, request, ok, usable) && !MayStart(s, id, request, ok) ==> s' == s)
  {
    hide Step, Submit, Decide, AllClaimable, AllFree, MayWait, MayStart, NextPosition, EnqueueInput, StartInput,
      RefuseInput;
    DecidesAs(s, id, request, ok, usable);
    FreeIsClaimable(s, request, usable);
    SubmittedAs(s, id, request, ok, usable);
    RecordedInputs(s, id, request);
    QueueSteps(s, Submitting(id, request, ok, usable));
  }

  /** A submission that waits goes to the end of the queue. */
  lemma WaitsLast(s: State, id: Id, request: Request, ok: bool, usable: set<Id>)
    requires QueueOk(s) && MayWait(s, id, request, ok, usable)
    ensures QueueOf(Step(s, Submitting(id, request, ok, usable))) == QueueOf(s) + [InputWork(id)]
  {
    hide Step, Decide, AllClaimable, QueueOk, QueueOf, EnqueueInput, StartInput, RefuseInput, MayWait;
    DecidesAs(s, id, request, ok, usable);
    EnqueueAppends(s, id, request);
    QueueSteps(s, Submitting(id, request, ok, usable));
  }

  /** An accepted submission holds its attachments; only one that waits keeps their locators with it. */
  ghost predicate Claimed(s: State, s': State, id: Id, request: Request, waits: bool) {
    && s'.files.attachments.Keys == s.files.attachments.Keys
    && (forall a :: a in s.files.attachments ==>
          s'.files.attachments[a] == if a in request.attachments then Attachment(Some(id), waits, None)
                                     else s.files.attachments[a])
    && forall a :: a in s'.files.locators <==> a in s.files.locators && a !in request.attachments
  }

  /** Attachments are claimed all together, exactly by a submission that waits or starts. */
  lemma ClaimsExactlyWhen(s: State, id: Id, request: Request, ok: bool, usable: set<Id>)
    ensures var s' := Step(s, Submitting(id, request, ok, usable));
      if MayWait(s, id, request, ok, usable) then Claimed(s, s', id, request, true)
      else if MayStart(s, id, request, ok) && AllFree(s, request, usable) then Claimed(s, s', id, request, false)
      else s'.files == s.files
  {
    hide Step, Decide, AllClaimable, AllFree, MayWait, MayStart, NextPosition;
    DecidesAs(s, id, request, ok, usable);
    FreeIsClaimable(s, request, usable);
    QueueSteps(s, Submitting(id, request, ok, usable));
  }

  /** The reason is true of the state. */
  ghost predicate Because(s: State, id: Id, request: Request, ok: bool, usable: set<Id>, reason: Refusal) {
    match reason
    case NotQualified => !ok || s.task != TaskActive || s.session != SessionActive
    case KeyReused => request.key.Some? && exists i ::
      i in s.turns.inputs && s.turns.inputs[i].request.key == request.key && s.turns.inputs[i].request != request
    case IdTaken => id in s.turns.inputs
    case RewindActive => RewindPending(s)
    case BehindUnknown => request.delivery == Queue && (SomeInput(s, Unknown) || SomeCompaction(s, CompactUnknown))
    case TooManyDispatched => request.delivery == Queue && !AtMostOneRuns(s)
    case AttachmentUnavailable => request.delivery == Queue && !AllFree(s, request, usable)
    case QueueNotEmpty => request.delivery == StartNow && SomeInput(s, Queued)
    case SessionBusy => Running(s) || SomeInput(s, Unknown) || Compacting(s)
  }

  /** A refusal is given for a true reason, and a duplicate is the Input with the same key and the same request. */
  lemma RefusesTruly(s: State, id: Id, request: Request, ok: bool, usable: set<Id>)
    ensures var d := Decide(s, id, request, ok, usable);
      && (d.Refuse? ==> Because(s, id, request, ok, usable, d.reason))
      && (d.Duplicate? ==> request.key.Some? && d.id in s.turns.inputs && s.turns.inputs[d.id].request == request)
  {
    Questions(s);
    FreeIsClaimable(s, request, usable);
    hide HasInput, HasDispatched, HasDriving, HasActiveCompact, HasCompact, HasRewind, ManyDispatched, SomeInput,
      SomeCompaction, Running, Compacting, RewindPending, AtMostOneRuns, AllFree, AllClaimable;
  }
}
