/**
 `TaskRuntime` as an object: the stored records, what is in flight in this process, and one method per piece of code
 between two awaits. Every method takes the step of SessionSteps that it is named after, and keeps `Valid`.
 */
module TaskRuntime {
  import opened Wrappers
  import opened PositionOrder
  import opened SessionState
  import opened SessionSteps
  import opened SessionQuiet
  import opened SessionQueue
  import opened SessionFifo
  import opened SessionSafety
  import opened SessionFiles
  import opened SessionResults
  import opened SessionRuns
  import opened SessionLoops

  class TaskRuntime {
    var task: TaskStatus
    var session: SessionStatus
    var paused: bool
    var attached: bool
    var draining: bool
    var inputs: map<Id, Input>
    var executions: map<Id, Execution>
    var dispatching: map<Id, Dispatch>
    var streams: map<Id, Stream>
    var compactions: map<Id, Compaction>
    var rewinds: map<Id, Rewind>
    var compacting: map<Id, CompactCall>
    var rewinding: set<Id>
    var attachments: map<Id, Attachment>
    var locators: set<Id>
    var stopRequests: seq<Stop>
    var stopCalls: map<Id, StopCall>
    var events: seq<EventRow>
    var interactions: seq<Interaction>
    ghost var history: History

    constructor ()
      ensures View() == Fresh && Valid()
    {
      task, session, paused, attached, draining := TaskActive, SessionActive, false, true, false;
      inputs, executions, dispatching, streams := map[], map[], map[], map[];
      compactions, rewinds, compacting, rewinding := map[], map[], map[], {};
      attachments, locators, stopRequests, stopCalls := map[], {}, [], map[];
      events, interactions, history := [], [], History([], [], []);
      new;
      FreshSound();
    }

    function TurnsNow(): Turns
      reads this
    {
      Turns(inputs, executions, dispatching, streams)
    }

    function UpkeepNow(): Upkeep
      reads this
    {
      Upkeep(compactions, rewinds, compacting, rewinding)
    }

    function FilesNow(): Files
      reads this
    {
      Files(attachments, locators)
    }

    ghost function View(): State
      reads this
    {
      State(task, session, paused, attached, draining, TurnsNow(), UpkeepNow(), FilesNow(),
            Stops(stopRequests, stopCalls), Journal(events, interactions), history)
    }

    ghost predicate Valid()
      reads this
    {
      Sound(View())
    }

    predicate IsActive()
      reads this
    {
      task.TaskActive? && session.SessionActive?
    }

    // Queueing

    method NextQueuePosition() returns (n: nat)
      ensures n == NextPosition(View())
    {
      var queued := set i | i in inputs && inputs[i].status.Queued? :: inputs[i].position.GetOr(0);
      var active := set c | c in compactions && ActiveCompact(compactions[c].status) :: compactions[c].position.GetOr(0);
      TakenAre(View(), queued + active);
      n := AbovePositions(queued + active);
    }

    method CanClaim(request: Request, usable: set<Id>) returns (all: bool)
      ensures all == AllClaimable(View(), request, usable)
      ensures all ==> forall k :: 0 <= k < |request.attachments| ==> request.attachments[k] in attachments
    {
      var k := 0;
      while k < |request.attachments|
        invariant k <= |request.attachments|
        invariant forall j :: 0 <= j < k ==> Claimable(View(), request.attachments[j], usable)
      {
        var a := request.attachments[k];
        var claimable := a in attachments && a in usable && attachments[a].holder.None?
          && (a in locators || attachments[a].locator)
          && (attachments[a].editSource.Some? ==>
                var source := attachments[a].editSource.value;
                source in inputs && inputs[source].status.Cancelled? && a in inputs[source].request.attachments);
        if !claimable {
          NotAllClaimable(View(), request, usable, k);
          return false;
        }
        k := k + 1;
      }
      AllAreClaimable(View(), request, usable);
      return true;
    }

    // Leaving the queue

    method RejectQueued()
      modifies `inputs, `attachments
      ensures View() == RejectQueuedInputs(old(View()))
    {
      var was := inputs;
      inputs := UpdateAll(inputs, (_, input) => RejectInput(input));
      attachments := UpdateAll(attachments, (a, attachment) => DropLocator(a, attachment, was));
      assert inputs == RejectInputs(was);
      assert attachments == DropLocators(old(FilesNow()), was).attachments;
    }

    method StopWholeQueue()
      modifies `inputs, `attachments, `compactions
      ensures View() == StopQueue(old(View()))
    {
      RejectQueued();
      compactions := UpdateAll(compactions, (_, compaction) => FailCompaction(compaction));
      assert compactions == FailCompactions(old(UpkeepNow())).compactions;
    }

    method DropLocatorsOf(i: Id)
      requires i in inputs
      modifies `attachments
      ensures FilesNow() == DropLocators(old(FilesNow()), map[i := inputs[i]])
    {
      var only := map[i := inputs[i]];
      attachments := UpdateAll(attachments, (a, attachment) => DropLocator(a, attachment, only));
      assert attachments == DropLocators(old(FilesNow()), only).attachments;
    }

    // Submission

    /** The checks of a submission, in the order of the source. */
    method DecideSubmission(id: Id, request: Request, ok: bool, usable: set<Id>) returns (d: Decision)
      requires Valid()
      ensures d == Decide(View(), id, request, ok, usable)
    {
      hide InQueue, Recorded, Evidenced, RunOnce, Conserved, AllClaimable;
      if !ok || !IsActive() {
        return Refuse(NotQualified);
      }
      var owner := FindKeyOwner(inputs, request.key);
      if owner.Some? {
        OwnerIsOne(inputs, request.key, owner.value);
        return if inputs[owner.value].request == request then Duplicate(owner.value) else Refuse(KeyReused);
      }
      if id in inputs {
        return Refuse(IdTaken);
      }
      if HasRewind(UpkeepNow(), RewindRequested) {
        return Refuse(RewindActive);
      }
      var busy := HasInput(TurnsNow(), Queued) || HasDispatched(TurnsNow()) || HasActiveCompact(UpkeepNow());
      if busy && request.delivery.Queue? {
        if HasInput(TurnsNow(), Unknown) || HasCompact(UpkeepNow(), CompactUnknown) {
          return Refuse(BehindUnknown);
        }
        if ManyDispatched(TurnsNow()) {
          return Refuse(TooManyDispatched);
        }
        var claimable := CanClaim(request, usable);
        return if claimable then Enqueue else Refuse(AttachmentUnavailable);
      }
      if HasInput(TurnsNow(), Queued) {
        return Refuse(QueueNotEmpty);
      }
      if HasDriving(TurnsNow()) || HasActiveCompact(UpkeepNow()) {
        return Refuse(SessionBusy);
      }
      return Start;
    }

    /** `recorded`: the Input that now stands for the request, the earlier one for a repetition. */
    method Submit(id: Id, request: Request, ok: bool, usable: set<Id>) returns (recorded: Option<Id>)
      requires Valid()
      modifies this
      ensures View() == Step(old(View()), Submitting(id, request, ok, usable)) && Valid()
      ensures recorded.Some? ==> recorded.value in inputs && inputs[recorded.value].request == request
    {
      hide Sound, Step, Decide, AllClaimable, EnqueueInput, StartInput;
      StepSound(View(), Submitting(id, request, ok, usable));
      QueueSteps(View(), Submitting(id, request, ok, usable));
      var decision := DecideSubmission(id, request, ok, usable);
      match decision {
        case Refuse(_) => return None;
        case Duplicate(i) => return Some(i);
        case Enqueue =>
          EnqueueNow(id, request, usable);
        case Start =>
          var claimable := CanClaim(request, usable);
          if claimable {
            StartNow(id, request);
          } else {
            inputs := inputs[id := Input(Rejected, request, None, None)];
          }
      }
      return Some(id);
    }

    method EnqueueNow(id: Id, request: Request, ghost usable: set<Id>)
      requires AllClaimable(View(), request, usable)
      modifies this
      ensures View() == EnqueueInput(old(View()), id, request)
      ensures id in inputs && inputs[id].request == request
    {
      hide NextPosition, AllClaimable, Claim;
      ClaimableExist(View(), request, usable);
      var position := NextQueuePosition();
      ClaimAttachments(request, id, true);
      inputs := inputs[id := Input(Queued, request, Some(position), None)];
      history := history.(enqueued := history.enqueued + [id]);
    }

    method StartNow(id: Id, request: Request)
      requires forall k :: 0 <= k < |request.attachments| ==> request.attachments[k] in attachments
      modifies this
      ensures View() == StartInput(old(View()), id, request)
      ensures id in inputs && inputs[id].request == request
    {
      hide Claim;
      ClaimAttachments(request, id, false);
      inputs := inputs[id := Input(Received, request, None, None)];
      dispatching := dispatching[id := Probing(false)];
    }

    method ClaimAttachments(request: Request, holder: Id, queued: bool)
      requires forall k :: 0 <= k < |request.attachments| ==> request.attachments[k] in attachments
      modifies `attachments, `locators
      ensures FilesNow() == Claim(old(FilesNow()), request, holder, queued)
    {
      attachments := ChangeListed(attachments, request.attachments, _ => Attachment(Some(holder), queued, None));
      locators := locators - set a | a in request.attachments;
      assert attachments == Claim(old(FilesNow()), request, holder, queued).attachments;
    }

    // Draining the queue

    function WaitingWork(): set<Work>
      reads this
    {
      (set i | i in inputs && QueuedInput(inputs, i) :: InputWork(i)) +
      (set c | c in compactions && QueuedCompaction(compactions, c) :: CompactWork(c))
    }

    function PositionOf(w: Work): nat
      reads this
    {
      match w
      case InputWork(i) => if i in inputs then inputs[i].position.GetOr(0) else 0
      case CompactWork(c) => if c in compactions then compactions[c].position.GetOr(0) else 0
    }

    method QueuedSessionWork() returns (q: seq<Work>)
      requires Valid()
      ensures q == QueueOf(View())
    {
      hide Sound, Places;
      SafePlaces(View());
      var places := map w | w in WaitingWork() :: PositionOf(w);
      PlacesAre(View(), places);
      q := SortByPosition(places);
    }

    /** Whether the head of the queue may go ahead. */
    method FindProgress() returns (p: Progress)
      requires Valid()
      ensures p == Progressing(View())
    {
      hide Sound, QueueOf;
      if draining {
        return Hold;
      }
      var queue := QueuedSessionWork();
      if queue == [] {
        return Hold;
      }
      if !IsActive() {
        return GiveUp;
      }
      if paused {
        return Hold;
      }
      if HasInput(TurnsNow(), Unknown) || HasCompact(UpkeepNow(), CompactUnknown) {
        return GiveUp;
      }
      if HasDriving(TurnsNow()) {
        return Hold;
      }
      HeadWaits(View());
      var next := queue[0];
      var position := match next
        case InputWork(i) => inputs[i].position.GetOr(0)
        case CompactWork(c) => compactions[c].position.GetOr(0);
      return if BehindBarrier(UpkeepNow(), position) then Hold else Advance(next);
    }

    method CanTake(i: Id, usable: set<Id>) returns (all: bool)
      requires i in inputs
      ensures all == AllTakeable(View(), i, usable)
      ensures all ==> forall k :: 0 <= k < |inputs[i].request.attachments| ==> inputs[i].request.attachments[k] in attachments
    {
      var ids := inputs[i].request.attachments;
      var k := 0;
      while k < |ids|
        invariant k <= |ids| && forall j :: 0 <= j < k ==> Takeable(FilesNow(), ids[j], i, usable)
      {
        if !Takeable(FilesNow(), ids[k], i, usable) {
          assert ids[k] in ids;
          return false;
        }
        k := k + 1;
      }
      return true;
    }

    method Drain(ok: bool, usable: set<Id>)
      requires Valid()
      modifies this
      ensures View() == Step(old(View()), Draining(ok, usable)) && Valid()
    {
      hide Sound, Step, Progressing, DrainNext, StopQueue;
      StepSound(View(), Draining(ok, usable));
      QueueSteps(View(), Draining(ok, usable));
      var progress := FindProgress();
      match progress {
        case Hold =>
        case GiveUp => StopWholeQueue();
        case Advance(next) => AdvanceTo(next, ok, usable);
      }
    }

    method AdvanceTo(next: Work, ok: bool, usable: set<Id>)
      requires Waits(View(), next)
      modifies this
      ensures View() == DrainNext(old(View()), next, ok, usable)
    {
      hide StopQueue, RejectQueuedInputs, AllTakeable, Promote;
      match next {
        case CompactWork(c) =>
          if ok {
            compactions := compactions[c := compactions[c].(status := CompactRequested)];
            compacting := compacting[c := CompactProbing(false)];
          } else {
            StopWholeQueue();
          }
        case InputWork(i) =>
          var takeable := CanTake(i, usable);
          if ok && takeable && !HasRewind(UpkeepNow(), RewindRequested) {
            PromoteInput(i);
          } else {
            RejectQueued();
          }
      }
    }

    method PromoteInput(i: Id)
      requires i in inputs
      requires forall k :: 0 <= k < |inputs[i].request.attachments| ==> inputs[i].request.attachments[k] in attachments
      modifies this
      ensures View() == Promote(old(View()), i)
    {
      var request := inputs[i].request;
      attachments := ChangeListed(attachments, request.attachments, (attachment: Attachment) => attachment.(locator := false));
      assert attachments == Take(old(FilesNow()), request).attachments;
      inputs := inputs[i := inputs[i].(status := Received, position := None)];
      dispatching := dispatching[i := Probing(true)];
      draining := true;
      history := history.(promoted := history.promoted + [i]);
    }

    // Editing the queue

    method MoveQueuedInput(i: Id, before: Option<Id>, ok: bool)
      requires Valid()
      modifies this
      ensures View() == Step(old(View()), Moving(i, before, ok)) && Valid()
    {
      hide Sound, Step, InputQueue, InsertBefore, Without, Renumber;
      StepSound(View(), Moving(i, before, ok));
      QueueSteps(View(), Moving(i, before, ok));
      if !MayMoveNow(i, before, ok) || before == Some(i) {
        return;
      }
      var queue := QueuedInputs();
      var rest := TakeOut(queue, i);
      var order := PutBefore(rest, i, before);
      MovedOrder(View(), i, before);
      inputs := RenumberInputs(inputs, order);
    }

    predicate MayMoveNow(i: Id, before: Option<Id>, ok: bool)
      reads this
    {
      && ok && IsActive() && !draining
      && (forall c :: c in compactions && ActiveCompact(compactions[c].status) ==> compactions[c].position.None?)
      && QueuedInput(inputs, i) && (before.Some? ==> QueuedInput(inputs, before.value))
    }

    method QueuedInputs() returns (q: seq<Id>)
      requires Valid()
      ensures q == InputQueue(inputs)
    {
      hide InQueue, Recorded, Evidenced, RunOnce, Conserved, OneKeyOwner;
      InputQueueLists(inputs, UpkeepNow());
      var positions := map i | i in inputs && inputs[i].status.Queued? :: inputs[i].position.GetOr(0);
      assert positions == InputPositions(inputs);
      q := SortByPosition(positions);
    }

    method CancelQueuedInput(i: Id, ok: bool)
      requires Valid()
      modifies this
      ensures View() == Step(old(View()), Cancelling(i, ok)) && Valid()
    {
      hide Sound, Step, DropLocators;
      StepSound(View(), Cancelling(i, ok));
      QueueSteps(View(), Cancelling(i, ok));
      if !ok || !QueuedInput(inputs, i) {
        return;
      }
      DropLocatorsOf(i);
      inputs := inputs[i := inputs[i].(status := Cancelled)];
    }

    method WithdrawForEdit(i: Id, ok: bool, usable: set<Id>)
      requires Valid()
      modifies this
      ensures View() == Step(old(View()), Withdrawing(i, ok, usable)) && Valid()
    {
      hide Sound, Step, AllTakeable;
      StepSound(View(), Withdrawing(i, ok, usable));
      QueueSteps(View(), Withdrawing(i, ok, usable));
      if !ok || !IsActive() || !QueuedInput(inputs, i) {
        return;
      }
      var takeable := CanTake(i, usable);
      if !takeable {
        return;
      }
      var request := inputs[i].request;
      attachments := ChangeListed(attachments, request.attachments, _ => Attachment(None, true, Some(i)));
      assert attachments == Release(old(FilesNow()), request, i).attachments;
      inputs := inputs[i := inputs[i].(status := Cancelled)];
    }

    method SomethingWaits() returns (waits: bool)
      ensures waits == (Waiting(View()) != {})
    {
      NothingWaits(View());
      waits := (exists i :: i in inputs && QueuedInput(inputs, i))
               || (exists c :: c in compactions && QueuedCompaction(compactions, c));
    }

    method ResumeSessionQueue(ok: bool)
      requires Valid()
      modifies this
      ensures View() == Step(old(View()), Resuming(ok)) && Valid()
    {
      hide Sound, Step, Waiting;
      StepSound(View(), Resuming(ok));
      QueueSteps(View(), Resuming(ok));
      var waits := SomethingWaits();
      if ok && IsActive() && paused && attached && waits && !HasNativeCompact(UpkeepNow())
         && !HasRewind(UpkeepNow(), RewindRequested) && !HasDriving(TurnsNow()) && !HasOpenExecution(TurnsNow()) {
        paused := false;
      }
    }

    // Dispatch

    method CallEngineNow(i: Id, ok: bool)
      requires Valid()
      modifies this
      ensures View() == Step(old(View()), CallingEngine(i, ok)) && Valid()
    {
      hide Sound, Step, FailDispatch;
      StepSound(View(), CallingEngine(i, ok));
      DispatchSteps(View(), CallingEngine(i, ok));
      if i !in dispatching || !dispatching[i].Probing? || i !in inputs {
        return;
      }
      if ok && IsActive() && attached && AttachmentsHeld(FilesNow(), inputs[i].request, i) {
        dispatching := dispatching[i := Calling(dispatching[i].promoted)];
        history := history.(runs := history.runs + [RunCall(i, inputs[i].request.attachments)]);
      } else {
        LeaveDispatch(i, true);
      }
    }

    method FailDispatchNow(i: Id, harmless: bool)
      requires Valid()
      modifies this
      ensures View() == Step(old(View()), FailingDispatch(i, harmless)) && Valid()
    {
      hide Sound, Step, FailDispatch;
      StepSound(View(), FailingDispatch(i, harmless));
      DispatchSteps(View(), FailingDispatch(i, harmless));
      LeaveDispatch(i, harmless);
    }

    method EndDispatch(i: Id, status: Status)
      requires i in inputs && i in dispatching
      modifies `inputs, `dispatching, `draining
      ensures View() == old(View()).(turns := Undispatched(old(TurnsNow()), i, status),
                                     draining := old(draining) && !old(dispatching)[i].promoted)
    {
      draining := draining && !dispatching[i].promoted;
      inputs := inputs[i := inputs[i].(status := status)];
      dispatching := dispatching - {i};
    }

    /** The error path of a dispatch. */
    method LeaveDispatch(i: Id, harmless: bool)
      modifies this
      ensures View() == FailDispatch(old(View()), i, harmless)
    {
      hide RejectQueuedInputs, StopQueue, Undispatched;
      if i !in dispatching || i !in inputs {
        return;
      }
      var promoted := dispatching[i].promoted;
      EndDispatch(i, if harmless then Rejected else Unknown);
      if harmless && !promoted {
        return;
      }
      if !harmless && promoted {
        StopWholeQueue();
      } else {
        RejectQueued();
      }
    }

    method RunReturns(i: Id, native: NativeId)
      requires Valid()
      modifies this
      ensures View() == Step(old(View()), Returning(i, native)) && Valid()
    {
      hide Sound, Step;
      StepSound(View(), Returning(i, native));
      DispatchSteps(View(), Returning(i, native));
      if i !in dispatching || !dispatching[i].Calling? {
        return;
      }
      draining := draining && !dispatching[i].promoted;
      dispatching := dispatching - {i};
      streams := streams[i := Stream(native, false)];
    }

    // Events

    method FindRun(native: NativeId) returns (found: Option<Id>)
      requires Valid()
      ensures found == FindExecution(executions, native)
    {
      hide InQueue, Recorded, Evidenced, RunOnce, Conserved, OneKeyOwner;
      OneExecutionPerNative(View());
      found := FindByNativeKey(executions, native);
    }

    method MarkUnknown(i: Id, native: NativeId, found: Option<Id>)
      requires found == FindExecution(executions, native)
      modifies `inputs, `executions
      ensures TurnsNow() == SetUnknown(old(TurnsNow()), i, native)
    {
      if i in inputs && !TerminalInput(inputs[i].status) {
        inputs := inputs[i := inputs[i].(status := Unknown)];
      }
      if found.Some? && !Terminal(executions[found.value].status) {
        executions := executions[found.value := executions[found.value].(status := Unknown)];
      }
    }

    /** What an event does to the Input and the Execution of its run. */
    method MoveTurns(i: Id, native: NativeId, found: Option<Id>, payload: Payload, e: Id)
      requires i in inputs && found == FindExecution(executions, native)
      modifies `inputs, `executions
      ensures TurnsNow() == TurnsAfter(old(TurnsNow()), i, native, payload, e)
    {
      hide SetUnknown, FindExecution;
      match found {
        case None =>
          if payload.InputAccepted? && Proven(payload) {
            executions := executions[e := Execution(Accepted, i, native, None)];
            inputs := inputs[i := inputs[i].(status := Accepted, native := Some(native))];
          } else {
            MarkUnknown(i, native, found);
          }
        case Some(x) =>
          if Terminal(executions[x].status) || !StatusPayload(payload) {
            return;
          }
          if !Proven(payload) {
            MarkUnknown(i, native, found);
            return;
          }
          var evidence := if TerminalPayload(payload) then Some(payload.evidence) else executions[x].evidence;
          inputs := inputs[i := inputs[i].(status := EventStatus(payload))];
          executions := executions[x := executions[x].(status := EventStatus(payload), evidence := evidence)];
      }
    }

    /** What an event does to the approvals and user-input requests of an open Execution. */
    method MoveInteractions(e: Id, payload: Payload)
      modifies `interactions
      ensures interactions == InteractionsAfter(old(interactions), e, payload)
    {
      if TerminalPayload(payload) && Proven(payload) {
        interactions := RejectPendingInteractions(interactions, e);
        return;
      }
      if payload.InteractionRequested? {
        interactions := interactions + [Interaction(payload.kind, e, payload.control, ReplyPending, None)];
      } else if payload.InteractionResponse? {
        var k := FindAnswered(interactions, payload.kind, e, payload.control);
        if k < |interactions| {
          interactions := interactions[k := Answer(interactions[k], payload.reply, payload.answer)];
        }
      }
    }

    /** What a late event does to the user-input requests of a settled Execution. */
    method MoveLateAnswer(e: Id, event: Event)
      modifies `interactions
      ensures interactions == LateAnswer(old(interactions), e, event)
    {
      match event.payload {
        case InteractionResponse(UserInput, control, Forwarded, Some(answer), Some(EngineEvidence)) =>
          var k := FindAnswered(interactions, UserInput, e, control);
          if event.source.AdapterEvidence? && k < |interactions| && interactions[k].reply.None? {
            interactions := interactions[k := Answer(interactions[k], Forwarded, Some(answer))];
          }
        case _ =>
      }
    }

    /** What an event does to the stop requests of an open Execution. */
    method MoveStops(e: Id, payload: Payload)
      modifies `stopRequests
      ensures stopRequests == StopsAfter(old(stopRequests), e, payload)
    {
      hide Acknowledge, MergeDelivery;
      match payload {
        case InterruptionRequested(ack, evidence) =>
          var k := FindLatestStop(stopRequests, e);
          if k >= 0 {
            stopRequests := stopRequests[k := Acknowledge(stopRequests[k], ack, evidence)];
          }
        case ExecutionCompleted(evidence) => if evidence.EngineEvidence? { LeaveUnconfirmedStops(e); }
        case ExecutionFailed(evidence) => if evidence.EngineEvidence? { LeaveUnconfirmedStops(e); }
        case ExecutionUnknown => LeaveUnconfirmedStops(e);
        case ExecutionStopped(evidence) => if evidence.EngineEvidence? { ConfirmAllStops(e, evidence); }
        case _ =>
      }
    }

    method LeaveUnconfirmedStops(e: Id)
      modifies `stopRequests
      ensures stopRequests == LeaveStopsUnconfirmed(old(stopRequests), e)
    {
      stopRequests := ChangeStops(stopRequests, stop => LeaveUnconfirmed(stop, e));
    }

    method ConfirmAllStops(e: Id, evidence: Evidence)
      modifies `stopRequests
      ensures stopRequests == ConfirmStops(old(stopRequests), e, evidence)
    {
      if AwaitsConfirmation(stopRequests, e) {
        stopRequests := ChangeStops(stopRequests, stop => ConfirmStop(stop, e, evidence));
      } else {
        stopRequests := stopRequests + [Stop(e, StopConfirmed, NotRequested, None, Some(evidence))];
      }
    }

    method IsIgnored(native: NativeId, event: Event) returns (ignored: bool)
      ensures ignored == Ignored(events, native, event)
    {
      if AlreadyDelivered(events, native, event) || !event.matches {
        return true;
      }
      var k := FindBySequence(events, event);
      return k < |events| && events[k].id != event.id;
    }

    /** What an event does to the records that belong to an Execution. */
    method MoveRequests(e: Id, event: Event)
      requires e in executions
      modifies `interactions, `stopRequests
      ensures var settled := Terminal(executions[e].status);
        && interactions == (if settled then LateAnswer(old(interactions), e, event)
                            else InteractionsAfter(old(interactions), e, event.payload))
        && stopRequests == if settled then old(stopRequests) else StopsAfter(old(stopRequests), e, event.payload)
    {
      hide LateAnswer, InteractionsAfter, StopsAfter;
      if Terminal(executions[e].status) {
        MoveLateAnswer(e, event);
      } else {
        MoveInteractions(e, event.payload);
        MoveStops(e, event.payload);
      }
    }

    /** Moves the turns, and notes in the run that its terminal event was seen. */
    method MoveRun(i: Id, native: NativeId, found: Option<Id>, payload: Payload, e: Id)
      requires i in inputs && i in streams && streams[i].native == native && found == FindExecution(executions, native)
      modifies `inputs, `executions, `streams
      ensures var after := TurnsAfter(old(TurnsNow()), i, native, payload, e);
        && i in after.streams
        && TurnsNow() == if Settles(old(TurnsNow()), native, payload) then MarkTerminal(after, i) else after
    {
      hide FindExecution, ExecutionOf, TurnsAfter, TerminalPayload, Proven;
      FoundExists(executions, native);
      var settles := found.Some? && OpenExecution(TurnsNow(), found.value) && TerminalPayload(payload) && Proven(payload);
      MoveTurns(i, native, found, payload, e);
      TurnsAfterStreams(old(TurnsNow()), i, native, payload, e);
      if settles {
        streams := streams[i := Stream(native, true)];
      }
    }

    /** An event that is not ignored. */
    method ApplyEvent(i: Id, event: Event, e: Id)
      requires Valid() && i in streams && i in inputs
      modifies `inputs, `executions, `streams, `interactions, `stopRequests
      ensures View() == Effect(old(View()), i, event, e)
    {
      hide Sound, FindExecution, ExecutionOf, Terminal, Settles, MarkTerminal, TurnsAfter, LateAnswer, InteractionsAfter,
        StopsAfter;
      var native := streams[i].native;
      var found := FindRun(native);
      FoundExists(executions, native);
      if found.Some? {
        MoveRequests(found.value, event);
      }
      MoveRun(i, native, found, event.payload, e);
    }

    method ProcessEvent(i: Id, event: Event, e: Id)
      requires Valid()
      modifies this
      ensures View() == Step(old(View()), Delivering(i, event, e)) && Valid()
    {
      hide Sound, Step, EndStream, Effect, Ignored;
      StepSound(View(), Delivering(i, event, e));
      RunSteps(View(), Delivering(i, event, e));
      if i !in streams || i !in inputs {
        return;
      }
      if e in executions {
        LoseRun(i, true);
        return;
      }
      var native := streams[i].native;
      var ignored := IsIgnored(native, event);
      var row := RowOf(native, event);
      if !ignored {
        ApplyEvent(i, event, e);
      }
      events := events + [row];
    }

    method StreamEnds(i: Id, failed: bool)
      requires Valid()
      modifies this
      ensures View() == Step(old(View()), EndingStream(i, failed)) && Valid()
    {
      hide Sound, Step, EndStream;
      StepSound(View(), EndingStream(i, failed));
      RunSteps(View(), EndingStream(i, failed));
      LoseRun(i, failed);
    }

    method LoseRun(i: Id, failed: bool)
      requires Valid()
      modifies this
      ensures View() == EndStream(old(View()), i, failed)
    {
      hide Sound, FindExecution, SetUnknown, RejectQueuedInputs;
      if i !in streams || i !in inputs {
        return;
      }
      var native := streams[i].native;
      var unknown := EndsUnknown(TurnsNow(), i, failed);
      var found := FindRun(native);
      streams := streams - {i};
      if unknown {
        MarkUnknown(i, native, found);
        RejectQueued();
      }
    }

    // Reconciliation

    /** SessionLimits.ResultStaysExactlyWhen says what becomes of the result when the engine names a foreign Execution. */
    method ReconcileLostInput(i: Id, e: Id, native: NativeId, status: Status, evidence: Evidence, ok: bool)
      requires Valid()
      modifies this
      ensures View() == Step(old(View()), ReconcilingInput(i, e, native, status, evidence, ok)) && Valid()
    {
      hide Sound, Step, FindExecution;
      StepSound(View(), ReconcilingInput(i, e, native, status, evidence, ok));
      RunSteps(View(), ReconcilingInput(i, e, native, status, evidence, ok));
      if !ok || i !in inputs || !inputs[i].status.Unknown? || e in executions || !Terminal(status)
         || !evidence.EngineEvidence? {
        return;
      }
      var found := FindRun(native);
      if found.Some? || HasExecutionNow(i) {
        return;
      }
      executions := executions[e := Execution(status, i, native, Some(evidence))];
      inputs := inputs[i := inputs[i].(status := status, native := Some(native))];
    }

    predicate HasExecutionNow(i: Id)
      reads this
    {
      exists e :: e in executions && executions[e].input == i
    }

    method ReconcileLostExecution(e: Id, status: Status, evidence: Evidence, ok: bool)
      requires Valid()
      modifies this
      ensures View() == Step(old(View()), ReconcilingExecution(e, status, evidence, ok)) && Valid()
    {
      hide Sound, Step, ConfirmStops, LeaveStopsUnconfirmed;
      StepSound(View(), ReconcilingExecution(e, status, evidence, ok));
      RunSteps(View(), ReconcilingExecution(e, status, evidence, ok));
      if !ok || !Reconcilable(TurnsNow(), e) || !Terminal(status) || !evidence.EngineEvidence? {
        return;
      }
      var i := executions[e].input;
      inputs := inputs[i := inputs[i].(status := status)];
      executions := executions[e := executions[e].(status := status, evidence := Some(evidence))];
      if status.Stopped? {
        ConfirmAllStops(e, evidence);
      } else {
        LeaveUnconfirmedStops(e);
      }
    }

    // Compaction

    method CompactSession(c: Id, instructions: bool, ok: bool)
      requires Valid()
      modifies this
      ensures View() == Step(old(View()), RequestingCompact(c, instructions, ok)) && Valid()
    {
      hide Sound, Step, NextPosition;
      StepSound(View(), RequestingCompact(c, instructions, ok));
      UpkeepSteps(View(), RequestingCompact(c, instructions, ok));
      if !ok || !IsActive() || !attached || c in compactions || HasInput(TurnsNow(), Unknown)
         || HasRewind(UpkeepNow(), RewindRequested) || HasActiveCompact(UpkeepNow()) || ManyDispatched(TurnsNow()) {
        return;
      }
      var wait := HasInput(TurnsNow(), Queued) || HasInput(TurnsNow(), Received);
      if wait && instructions {
        return;
      }
      var busy := HasDispatched(TurnsNow());
      var next := NextQueuePosition();
      var position := if wait || busy then Some(next) else None;
      compactions := compactions[c := Compaction(if wait then CompactQueued else CompactRequested, position)];
      if !wait {
        compacting := compacting[c := CompactProbing(busy)];
      }
    }

    method ExecuteCompact(c: Id, ok: bool)
      requires Valid()
      modifies this
      ensures View() == Step(old(View()), CallingCompact(c, ok)) && Valid()
    {
      hide Sound, Step;
      StepSound(View(), CallingCompact(c, ok));
      UpkeepSteps(View(), CallingCompact(c, ok));
      if c !in compacting || !compacting[c].CompactProbing? || c !in compactions {
        return;
      }
      if ok && IsActive() && attached && !HasInput(TurnsNow(), Unknown) && !HasRewind(UpkeepNow(), RewindRequested)
         && !OtherActiveCompact(UpkeepNow(), c) && compactions[c].status.CompactRequested?
         && !EarlierQueuedInput(TurnsNow(), compactions[c].position)
         && (compacting[c].behindInput || !HasDriving(TurnsNow())) {
        compacting := compacting[c := CompactCalling];
      } else {
        SettleCompaction(c, CompactFailed);
      }
    }

    method SettleCompaction(c: Id, status: CompactStatus)
      modifies `compactions, `compacting
      ensures UpkeepNow() == SettleCompact(old(UpkeepNow()), c, status)
    {
      compactions := compactions[c := Compaction(status, None)];
      compacting := compacting - {c};
    }

    method CompactAccepts(c: Id)
      requires Valid()
      modifies this
      ensures View() == Step(old(View()), AcceptingCompact(c)) && Valid()
    {
      hide Sound, Step;
      StepSound(View(), AcceptingCompact(c));
      UpkeepSteps(View(), AcceptingCompact(c));
      if c in compacting && compacting[c].CompactCalling? && c in compactions && compactions[c].status.CompactRequested? {
        compactions := compactions[c := compactions[c].(status := CompactAccepted)];
      }
    }

    method CompactFinishes(c: Id, status: CompactStatus)
      requires Valid()
      modifies this
      ensures View() == Step(old(View()), FinishingCompact(c, status)) && Valid()
    {
      hide Sound, Step;
      StepSound(View(), FinishingCompact(c, status));
      UpkeepSteps(View(), FinishingCompact(c, status));
      if c in compacting && c in compactions && CompactResult(status)
         && (compacting[c].CompactCalling? || status.CompactFailed? || status.CompactUnknown?) {
        SettleCompaction(c, status);
      }
    }

    // File rewind

    method ApplyFileRewind(r: Id, e: Id, ok: bool)
      requires Valid()
      modifies this
      ensures View() == Step(old(View()), RequestingRewind(r, e, ok)) && Valid()
    {
      hide Sound, Step;
      StepSound(View(), RequestingRewind(r, e, ok));
      UpkeepSteps(View(), RequestingRewind(r, e, ok));
      var idle := !HasInput(TurnsNow(), Queued) && !HasDriving(TurnsNow()) && !HasActiveCompact(UpkeepNow())
                  && !HasRewind(UpkeepNow(), RewindRequested);
      if !ok || !IsActive() || !attached || r in rewinds || e !in executions || OpenExecution(TurnsNow(), e) || !idle
         || exists x :: x in rewinds && rewinds[x] == Rewind(RewindUnknown, e) {
        return;
      }
      rewinds := rewinds[r := Rewind(RewindRequested, e)];
      rewinding := rewinding + {r};
    }

    method RewindFinishes(r: Id, status: RewindStatus)
      requires Valid()
      modifies this
      ensures View() == Step(old(View()), FinishingRewind(r, status)) && Valid()
    {
      hide Sound, Step;
      StepSound(View(), FinishingRewind(r, status));
      UpkeepSteps(View(), FinishingRewind(r, status));
      if r in rewinding && r in rewinds && !status.RewindRequested? {
        rewinds := rewinds[r := rewinds[r].(status := status)];
        rewinding := rewinding - {r};
      }
    }

    // Stop requests

    method BeginStopRequest(e: Id, ok: bool)
      requires Valid()
      modifies this
      ensures View() == Step(old(View()), BeginningStop(e, ok)) && Valid()
    {
      hide Sound, Step;
      StepSound(View(), BeginningStop(e, ok));
      StopSteps(View(), BeginningStop(e, ok));
      if !ok || e in stopCalls || !OpenExecution(TurnsNow(), e) || HasUnresolvedStop(stopRequests, e) {
        return;
      }
      if attached {
        stopCalls := stopCalls[e := StopProbing];
      } else {
        stopRequests := stopRequests + [Stop(e, StopUnknown, NotDelivered, None, None)];
      }
    }

    method SendStopRequest(e: Id, ok: bool)
      requires Valid()
      modifies this
      ensures View() == Step(old(View()), RecordingStop(e, ok)) && Valid()
    {
      hide Sound, Step;
      StepSound(View(), RecordingStop(e, ok));
      StopSteps(View(), RecordingStop(e, ok));
      if e !in stopCalls || !stopCalls[e].StopProbing? {
        return;
      }
      if !ok || !OpenExecution(TurnsNow(), e) {
        stopCalls := stopCalls - {e};
        return;
      }
      stopCalls := stopCalls[e := StopCalling(|stopRequests|)];
      stopRequests := stopRequests + [Stop(e, StopRequested, Pending, None, None)];
    }

    method SettleStopRequest(e: Id, status: StopStatus, delivery: StopDelivery, evidence: Option<Evidence>)
      modifies `stopRequests, `stopCalls
      ensures View() == SettleStop(old(View()), e, status, delivery, evidence)
    {
      var open := OpenExecution(TurnsNow(), e);
      SettleOpenCall(open, e, status, delivery, evidence);
    }

    method SettleOpenCall(
        open: bool, e: Id, status: StopStatus, delivery: StopDelivery, evidence: Option<Evidence>)
      modifies `stopRequests, `stopCalls
      ensures Stops(stopRequests, stopCalls)
           == SettleCall(old(Stops(stopRequests, stopCalls)), open, e, status, delivery, evidence)
    {
      hide SettledStop;
      if e !in stopCalls || !stopCalls[e].StopCalling? || stopCalls[e].index >= |stopRequests| {
        return;
      }
      var k := stopCalls[e].index;
      var stop := SettledStop(stopRequests[k], open, status, delivery, evidence);
      stopRequests, stopCalls := stopRequests[k := stop], stopCalls - {e};
    }

    method StopReceipt(e: Id, receipt: Receipt, evidence: Option<Evidence>)
      requires Valid()
      modifies this
      ensures View() == Step(old(View()), ReceivingStop(e, receipt, evidence)) && Valid()
    {
      hide Sound, Step, SettleStop;
      StepSound(View(), ReceivingStop(e, receipt, evidence));
      StopSteps(View(), ReceivingStop(e, receipt, evidence));
      SettleStopRequest(e, ReceiptStatus(receipt), ReceiptDelivery(receipt, evidence), evidence);
    }

    method StopThrows(e: Id, receipt: Receipt, sent: bool)
      requires Valid()
      modifies this
      ensures View() == Step(old(View()), FailingStop(e, receipt, sent)) && Valid()
    {
      hide Sound, Step, SettleStop;
      StepSound(View(), FailingStop(e, receipt, sent));
      StopSteps(View(), FailingStop(e, receipt, sent));
      SettleStopRequest(e, ReceiptStatus(receipt), if sent then DeliveryUnknown else NotDelivered, None);
    }

    // Lifecycle

    method StageAttachment(a: Id, ok: bool)
      requires Valid()
      modifies this
      ensures View() == Step(old(View()), Staging(a, ok)) && Valid()
    {
      hide Sound, Step;
      StepSound(View(), Staging(a, ok));
      LifeSteps(View(), Staging(a, ok));
      if !ok || !IsActive() || a in attachments {
        return;
      }
      attachments := attachments[a := Attachment(None, false, None)];
      locators := locators + {a};
    }

    method FreezeTask(ok: bool)
      requires Valid()
      modifies this
      ensures View() == Step(old(View()), Freezing(ok)) && Valid()
    {
      hide Sound, Step, RejectInputs, DropLocators;
      StepSound(View(), Freezing(ok));
      LifeSteps(View(), Freezing(ok));
      if !ok || !task.TaskActive? {
        return;
      }
      RejectQueued();
      task := TaskFrozen;
    }

    method CloseTask(abandoned: bool, ok: bool)
      requires Valid()
      modifies this
      ensures View() == Step(old(View()), Closing(abandoned, ok)) && Valid()
    {
      hide Sound, Step, RejectInputs, DropLocators;
      StepSound(View(), Closing(abandoned, ok));
      LifeSteps(View(), Closing(abandoned, ok));
      if !ok || task.TaskClosed? {
        return;
      }
      if abandoned {
        RejectQueued();
        task := TaskClosed;
        return;
      }
      if HasInput(TurnsNow(), Queued) || HasDriving(TurnsNow()) || HasOpenExecution(TurnsNow())
         || HasActiveCompact(UpkeepNow()) {
        return;
      }
      task := TaskClosed;
    }

    /** What is volatile is lost; the records that were in flight are marked one by one. */
    method MarkRecoveredStateUnknown()
      requires Valid()
      modifies this
      ensures View() == Step(old(View()), Restarting) && Valid()
    {
      hide Sound, Step, RecoverTurns, RecoverUpkeep, Waiting;
      StepSound(View(), Restarting);
      LifeSteps(View(), Restarting);
      RecoverRecords();
    }

    method RecoverRecords()
      modifies this
      ensures View() == Restart(old(View()))
    {
      hide RecoverTurns, RecoverUpkeep, Waiting, LoseRuns, LoseCalls, LoseProcess;
      if session.SessionActive? {
        RecoverActiveRecords();
      } else {
        ForgetRunsAndCalls();
      }
      ForgetProcess();
    }

    method ForgetRunsAndCalls()
      modifies `dispatching, `streams, `compacting, `rewinding
      ensures View() == old(View()).(turns := LoseRuns(old(TurnsNow())), upkeep := LoseCalls(old(UpkeepNow())))
    {
      hide LoseRuns, LoseCalls;
      ForgetRuns();
      ForgetCalls();
    }

    method RecoverActiveRecords()
      modifies this
      ensures View() == old(View()).(paused := old(paused) || Waiting(old(View())) != {},
                                     turns := RecoverTurns(old(TurnsNow())), upkeep := RecoverUpkeep(old(UpkeepNow())))
    {
      hide RecoverTurns, RecoverUpkeep, Waiting;
      var waits := SomethingWaits();
      paused := paused || waits;
      RecoverTurnRecords();
      RecoverUpkeepRecords();
    }

    method RecoverTurnRecords()
      modifies `inputs, `executions, `dispatching, `streams
      ensures View() == old(View()).(turns := RecoverTurns(old(TurnsNow())))
    {
      hide LoseRuns, InputsRecovered, ExecutionsRecovered;
      RecoverInputs();
      RecoverExecutions();
      ForgetRuns();
    }

    method RecoverInputs()
      modifies `inputs
      ensures inputs == InputsRecovered(old(inputs))
    {
      hide RecoverInput;
      inputs := UpdateAll(inputs, (_, input) => RecoverInput(input));
    }

    method RecoverExecutions()
      modifies `executions
      ensures executions == ExecutionsRecovered(old(executions))
    {
      hide RecoverExecution;
      executions := UpdateAll(executions, (_, execution) => RecoverExecution(execution));
    }

    method RecoverUpkeepRecords()
      modifies `compactions, `rewinds, `compacting, `rewinding
      ensures View() == old(View()).(upkeep := RecoverUpkeep(old(UpkeepNow())))
    {
      hide LoseCalls, CompactionsRecovered, RewindsRecovered;
      RecoverCompactions();
      RecoverRewinds();
      ForgetCalls();
    }

    method RecoverCompactions()
      modifies `compactions
      ensures compactions == CompactionsRecovered(old(compactions))
    {
      hide RecoverCompaction;
      compactions := UpdateAll(compactions, (_, compaction) => RecoverCompaction(compaction));
    }

    method RecoverRewinds()
      modifies `rewinds
      ensures rewinds == RewindsRecovered(old(rewinds))
    {
      hide RecoverRewind;
      rewinds := UpdateAll(rewinds, (_, rewind) => RecoverRewind(rewind));
    }

    method ForgetRuns()
      modifies `dispatching, `streams
      ensures TurnsNow() == LoseRuns(old(TurnsNow()))
    {
      dispatching, streams := map[], map[];
    }

    method ForgetCalls()
      modifies `compacting, `rewinding
      ensures UpkeepNow() == LoseCalls(old(UpkeepNow()))
    {
      compacting, rewinding := map[], {};
    }

    method ForgetProcess()
      modifies `locators, `stopCalls, `session, `attached, `draining
      ensures View() == LoseProcess(old(View()))
    {
      ForgetLocators();
      session, attached, draining := SessionUnknown, false, false;
    }

    method ForgetLocators()
      modifies `locators, `stopCalls
      ensures View() == old(View()).(files := old(FilesNow()).(locators := {}), stops := Stops(stopRequests, map[]))
    {
      locators, stopCalls := {}, map[];
    }

    method RestoreSession(ok: bool)
      requires Valid()
      modifies this
      ensures View() == Step(old(View()), Restoring(ok)) && Valid()
    {
      hide Sound, Step;
      StepSound(View(), Restoring(ok));
      LifeSteps(View(), Restoring(ok));
      if !ok || !task.TaskActive? || HasDriving(TurnsNow()) || HasOpenExecution(TurnsNow())
         || HasNativeCompact(UpkeepNow()) || HasRewind(UpkeepNow(), RewindRequested)
         || HasRewind(UpkeepNow(), RewindUnknown) {
        return;
      }
      session, attached := SessionActive, true;
    }
  }

  lemma TakenAre(s: State, taken: set<nat>)
    requires taken == (set i | i in s.turns.inputs && s.turns.inputs[i].status.Queued? :: s.turns.inputs[i].position.GetOr(0))
      + (set c | c in s.upkeep.compactions && ActiveCompact(s.upkeep.compactions[c].status)
           :: s.upkeep.compactions[c].position.GetOr(0))
    ensures taken == TakenPositions(s)
  {
    forall p ensures p in taken <==> p in TakenPositions(s) {
      if p in TakenPositions(s) && p !in (set w | w in Waiting(s) :: Position(s, w)) {
        assert p in taken;
      }
      if p in (set w | w in Waiting(s) :: Position(s, w)) {
        var w :| w in Waiting(s) && Position(s, w) == p;
        assert w.InputWork? ==> p in taken;
        assert w.CompactWork? ==> ActiveCompact(s.upkeep.compactions[w.id].status);
      }
      if i :| i in s.turns.inputs && s.turns.inputs[i].status.Queued? && s.turns.inputs[i].position.GetOr(0) == p {
        assert InputWork(i) in Waiting(s) && Position(s, InputWork(i)) == p;
      }
    }
  }

  lemma SafePlaces(s: State)
    requires Sound(s)
    ensures DistinctPositions(Places(s))
  {
    hide InQueue, Recorded, Evidenced, RunOnce, Conserved, OneKeyOwner;
    PlacesDistinct(s);
  }

  lemma PlacesAre(s: State, places: map<Work, nat>)
    requires places.Keys == Waiting(s)
    requires forall w :: w in places && Waits(s, w) ==> places[w] == Position(s, w)
    ensures places == Places(s)
  {
    forall w ensures w in places <==> w in Places(s) {
      WaitingIff(s, w);
    }
    forall w | w in places ensures places[w] == Places(s)[w] {
      WaitingIff(s, w);
    }
  }

  lemma HeadWaits(s: State)
    requires Sound(s)
    ensures QueueOf(s) != [] ==> Waits(s, QueueOf(s)[0])
  {
    hide InQueue, Recorded, Evidenced, RunOnce, Conserved, OneKeyOwner;
    QueueLists(s);
  }

  lemma MovedOrder(s: State, i: Id, before: Option<Id>)
    requires Sound(s) && QueuedInput(s.turns.inputs, i)
    ensures var order := InsertBefore(Without(InputQueue(s.turns.inputs), i), i, before);
      && (forall k :: 0 <= k < |order| ==> QueuedInput(s.turns.inputs, order[k]))
      && (forall j, k :: 0 <= j < k < |order| ==> order[j] != order[k])
  {
    hide InQueue, Recorded, Evidenced, RunOnce, Conserved, OneKeyOwner;
    var q := InputQueue(s.turns.inputs);
    var rest := Without(q, i);
    InputQueueLists(s.turns.inputs, s.upkeep);
    ListsDistinct(q, InputPositions(s.turns.inputs));
    WithoutMembers(q, i);
    WithoutDistinct(q, i);
    InsertMembers(rest, i, before);
    InsertDistinct(rest, i, before);
    var order := InsertBefore(rest, i, before);
    forall k | 0 <= k < |order| ensures QueuedInput(s.turns.inputs, order[k]) {
      assert order[k] in order;
    }
  }

  lemma NothingWaits(s: State)
    ensures Waiting(s) != {} <==>
      || (exists i :: i in s.turns.inputs && QueuedInput(s.turns.inputs, i))
      || (exists c :: c in s.upkeep.compactions && QueuedCompaction(s.upkeep.compactions, c))
  {
    if i :| i in s.turns.inputs && QueuedInput(s.turns.inputs, i) { assert InputWork(i) in Waiting(s); }
    if c :| c in s.upkeep.compactions && QueuedCompaction(s.upkeep.compactions, c) { assert CompactWork(c) in Waiting(s); }
    assert Waiting(s) == {} || exists w :: w in Waiting(s);
  }

  lemma OneExecutionPerNative(s: State)
    requires Sound(s)
    ensures forall native, e, f ::
      ExecutionOf(s.turns.executions, native, e) && ExecutionOf(s.turns.executions, native, f) ==> e == f
  {
    hide InQueue, RunOnce, Conserved, OneKeyOwner;
  }

  lemma FoundExists(executions: map<Id, Execution>, native: NativeId)
    ensures var found := FindExecution(executions, native); found.Some? ==> found.value in executions
  {
  }

  lemma OwnerIsOne(inputs: map<Id, Input>, key: Option<string>, i: Id)
    requires OneKeyOwner(inputs) && OwnsKey(inputs, key, i)
    ensures forall j :: OwnsKey(inputs, key, j) ==> j == i
  {
  }

  lemma ClaimableExist(s: State, request: Request, usable: set<Id>)
    requires AllClaimable(s, request, usable)
    ensures forall k :: 0 <= k < |request.attachments| ==> request.attachments[k] in s.files.attachments
  {
    forall k | 0 <= k < |request.attachments| ensures request.attachments[k] in s.files.attachments {
      assert Claimable(s, request.attachments[k], usable);
    }
  }

  lemma NotAllClaimable(s: State, request: Request, usable: set<Id>, k: nat)
    requires k < |request.attachments| && !Claimable(s, request.attachments[k], usable)
    ensures !AllClaimable(s, request, usable)
  {
    assert request.attachments[k] in request.attachments;
  }

  lemma AllAreClaimable(s: State, request: Request, usable: set<Id>)
    requires forall k :: 0 <= k < |request.attachments| ==> Claimable(s, request.attachments[k], usable)
    ensures AllClaimable(s, request, usable)
  {
  }
}
