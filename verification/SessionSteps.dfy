/**
 The atomic steps of `TaskRuntime` on the records of one Session: every asynchronous operation is cut at its
 awaits. `ok` stands for the ownership, authorization and capability checks that depend on the environment, and
 `usable` for the attachments that have not expired. A refused step leaves the state as it is.
 */
module SessionSteps {
  import opened Wrappers
  import opened PositionOrder
  import opened SessionState

  predicate Active(s: State) {
    s.task.TaskActive? && s.session.SessionActive?
  }

  // Queue

  ghost function Places(s: State): map<Work, nat> {
    map w | w in Waiting(s) :: Position(s, w)
  }

  /** The waiting Inputs and compactions, next one first. */
  ghost function QueueOf(s: State): seq<Work> {
    Order(Places(s))
  }

  ghost function InputPositions(inputs: map<Id, Input>): map<Id, nat> {
    map i | i in inputs && inputs[i].status.Queued? :: inputs[i].position.GetOr(0)
  }

  /** The queued Inputs alone, next one first. */
  ghost function InputQueue(inputs: map<Id, Input>): seq<Id> {
    Order(InputPositions(inputs))
  }

  /** The least number above all of `taken`. */
  ghost function Above(taken: set<nat>): (n: nat)
    ensures forall p :: p in taken ==> p < n
    ensures n == 0 || n - 1 in taken
    decreases taken
  {
    if taken == {} then 0
    else
      var p :| p in taken;
      assert taken == taken - {p} + {p};
      var n := Above(taken - {p});
      if p < n then n else p + 1
  }

  ghost function NextPosition(s: State): nat {
    Above(TakenPositions(s))
  }

  function RejectInput(input: Input): Input {
    if input.status.Queued? then input.(status := Rejected) else input
  }

  function RejectInputs(inputs: map<Id, Input>): map<Id, Input> {
    map i | i in inputs :: RejectInput(inputs[i])
  }

  /** The locator of a queued Input's attachment is dropped when that Input leaves the queue undispatched. */
  function DropLocator(a: Id, attachment: Attachment, inputs: map<Id, Input>): Attachment {
    if attachment.holder.Some? && QueuedInput(inputs, attachment.holder.value)
       && a in inputs[attachment.holder.value].request.attachments
    then attachment.(locator := false) else attachment
  }

  function DropLocators(files: Files, inputs: map<Id, Input>): Files {
    files.(attachments := map a | a in files.attachments :: DropLocator(a, files.attachments[a], inputs))
  }

  function RejectQueuedInputs(s: State): State {
    s.(turns := s.turns.(inputs := RejectInputs(s.turns.inputs)), files := DropLocators(s.files, s.turns.inputs))
  }

  function FailCompaction(c: Compaction): Compaction {
    if c.status.CompactQueued? then Compaction(CompactFailed, None) else c
  }

  function FailCompactions(u: Upkeep): Upkeep {
    u.(compactions := map c | c in u.compactions :: FailCompaction(u.compactions[c]))
  }

  function StopQueue(s: State): State {
    RejectQueuedInputs(s).(upkeep := FailCompactions(s.upkeep))
  }

  // Submission

  datatype Refusal = NotQualified | KeyReused | IdTaken | RewindActive | BehindUnknown | TooManyDispatched
                   | QueueNotEmpty | SessionBusy | AttachmentUnavailable

  datatype Decision = Duplicate(id: Id) | Refuse(reason: Refusal) | Enqueue | Start

  predicate OwnsKey(inputs: map<Id, Input>, key: Option<string>, i: Id) {
    key.Some? && i in inputs && inputs[i].request.key == key
  }

  predicate Claimable(s: State, a: Id, usable: set<Id>) {
    && a in s.files.attachments && a in usable
    && s.files.attachments[a].holder.None?
    && (a in s.files.locators || s.files.attachments[a].locator)
    && (s.files.attachments[a].editSource.Some? ==>
          var source := s.files.attachments[a].editSource.value;
          && source in s.turns.inputs && s.turns.inputs[source].status.Cancelled?
          && a in s.turns.inputs[source].request.attachments)
  }

  predicate AllClaimable(s: State, request: Request, usable: set<Id>) {
    forall a :: a in request.attachments ==> Claimable(s, a, usable)
  }

  ghost function Decide(s: State, id: Id, request: Request, ok: bool, usable: set<Id>): (d: Decision)
    ensures d.Duplicate? ==> OwnsKey(s.turns.inputs, request.key, d.id) && s.turns.inputs[d.id].request == request
    ensures d.Enqueue? || d.Start? ==>
      id !in s.turns.inputs && Active(s) && forall i :: !OwnsKey(s.turns.inputs, request.key, i)
    ensures d.Enqueue? ==> !HasRewind(s.upkeep, RewindRequested) && AllClaimable(s, request, usable)
    ensures d.Start? ==> Idle(s)
  {
    if !ok || !Active(s) then Refuse(NotQualified)
    else if exists i :: OwnsKey(s.turns.inputs, request.key, i) then
      var i :| OwnsKey(s.turns.inputs, request.key, i);
      if s.turns.inputs[i].request == request then Duplicate(i) else Refuse(KeyReused)
    else if id in s.turns.inputs then Refuse(IdTaken)
    else if HasRewind(s.upkeep, RewindRequested) then Refuse(RewindActive)
    else if (HasInput(s.turns, Queued) || HasDispatched(s.turns) || HasActiveCompact(s.upkeep))
            && request.delivery.Queue? then
      if HasInput(s.turns, Unknown) || HasCompact(s.upkeep, CompactUnknown) then Refuse(BehindUnknown)
      else if ManyDispatched(s.turns) then Refuse(TooManyDispatched)
      else if !AllClaimable(s, request, usable) then Refuse(AttachmentUnavailable)
      else Enqueue
    else if HasInput(s.turns, Queued) then Refuse(QueueNotEmpty)
    else if !Idle(s) then Refuse(SessionBusy)
    else Start
  }

  function Claim(files: Files, request: Request, holder: Id, queued: bool): Files {
    Files(map a | a in files.attachments ::
            if a in request.attachments then Attachment(Some(holder), queued, None) else files.attachments[a],
          files.locators - set a | a in request.attachments)
  }

  ghost function EnqueueInput(s: State, id: Id, request: Request): State {
    s.(turns := s.turns.(inputs := s.turns.inputs[id := Input(Queued, request, Some(NextPosition(s)), None)]),
       files := Claim(s.files, request, id, true),
       history := s.history.(enqueued := s.history.enqueued + [id]))
  }

  function StartInput(s: State, id: Id, request: Request): State {
    s.(turns := s.turns.(inputs := s.turns.inputs[id := Input(Received, request, None, None)],
                         dispatching := s.turns.dispatching[id := Probing(false)]),
       files := Claim(s.files, request, id, false))
  }

  /** An Input whose attachments cannot be claimed is recorded and rejected before dispatch. */
  function RefuseInput(s: State, id: Id, request: Request): State {
    s.(turns := s.turns.(inputs := s.turns.inputs[id := Input(Rejected, request, None, None)]))
  }

  ghost function Submit(s: State, id: Id, request: Request, ok: bool, usable: set<Id>): State {
    match Decide(s, id, request, ok, usable)
    case Duplicate(_) => s
    case Refuse(_) => s
    case Enqueue => EnqueueInput(s, id, request)
    case Start => if AllClaimable(s, request, usable) then StartInput(s, id, request) else RefuseInput(s, id, request)
  }

  // Draining the queue

  /** A compaction that the engine may be executing, and that work at `position` has to wait for. */
  predicate CompactBarrier(c: Compaction, position: nat) {
    (c.status.CompactRequested? || c.status.CompactAccepted?) && (c.position.None? || c.position.value <= position)
  }

  predicate BehindBarrier(u: Upkeep, position: nat) {
    exists c :: c in u.compactions && CompactBarrier(u.compactions[c], position)
  }

  predicate Takeable(files: Files, a: Id, i: Id, usable: set<Id>) {
    && a in files.attachments && a in usable
    && files.attachments[a].holder == Some(i) && files.attachments[a].locator
  }

  predicate AllTakeable(s: State, i: Id, usable: set<Id>)
    requires i in s.turns.inputs
  {
    forall a :: a in s.turns.inputs[i].request.attachments ==> Takeable(s.files, a, i, usable)
  }

  function Take(files: Files, request: Request): Files {
    files.(attachments := map a | a in files.attachments ::
      if a in request.attachments then files.attachments[a].(locator := false) else files.attachments[a])
  }

  function Promote(s: State, i: Id): State
    requires i in s.turns.inputs
  {
    s.(turns := s.turns.(inputs := s.turns.inputs[i := s.turns.inputs[i].(status := Received, position := None)],
                         dispatching := s.turns.dispatching[i := Probing(true)]),
       files := Take(s.files, s.turns.inputs[i].request),
       draining := true,
       history := s.history.(promoted := s.history.promoted + [i]))
  }

  function PromoteCompact(u: Upkeep, c: Id): Upkeep
    requires c in u.compactions
  {
    u.(compactions := u.compactions[c := u.compactions[c].(status := CompactRequested)],
       compacting := u.compacting[c := CompactProbing(false)])
  }

  ghost function DrainNext(s: State, next: Work, ok: bool, usable: set<Id>): State
    requires Waits(s, next)
  {
    match next
    case CompactWork(c) => if ok then s.(upkeep := PromoteCompact(s.upkeep, c)) else StopQueue(s)
    case InputWork(i) =>
      if ok && AllTakeable(s, i, usable) && !HasRewind(s.upkeep, RewindRequested) then Promote(s, i)
      else RejectQueuedInputs(s)
  }

  datatype Progress = Hold | GiveUp | Advance(next: Work)

  /** Whether the head of the queue may go ahead. */
  ghost function Progressing(s: State): (p: Progress)
    ensures p.Advance? ==>
      && QueueOf(s) != [] && QueueOf(s)[0] == p.next && Waits(s, p.next)
      && Active(s) && !s.paused && !s.draining && !HasDriving(s.turns)
      && !HasCompact(s.upkeep, CompactUnknown) && !BehindBarrier(s.upkeep, Position(s, p.next))
  {
    if s.draining || QueueOf(s) == [] then Hold
    else if !Active(s) then GiveUp
    else if s.paused then Hold
    else if HasInput(s.turns, Unknown) || HasCompact(s.upkeep, CompactUnknown) then GiveUp
    else if HasDriving(s.turns) then Hold
    else
      var next := QueueOf(s)[0];
      if !Waits(s, next) || BehindBarrier(s.upkeep, Position(s, next)) then Hold else Advance(next)
  }

  ghost function Drain(s: State, ok: bool, usable: set<Id>): State {
    match Progressing(s)
    case Hold => s
    case GiveUp => StopQueue(s)
    case Advance(next) => DrainNext(s, next, ok, usable)
  }

  // Editing the queue

  ghost function InsertBefore(q: seq<Id>, i: Id, before: Option<Id>): seq<Id> {
    if q == [] then [i]
    else if before == Some(q[0]) then [i] + q
    else [q[0]] + InsertBefore(q[1..], i, before)
  }

  ghost function Without(q: seq<Id>, x: Id): seq<Id> {
    if q == [] then [] else (if q[0] == x then [] else [q[0]]) + Without(q[1..], x)
  }

  ghost function IndexOf(q: seq<Id>, x: Id): (k: nat)
    requires x in q
    ensures k < |q| && q[k] == x
  {
    if q[0] == x then 0 else 1 + IndexOf(q[1..], x)
  }

  predicate MayMove(s: State, i: Id, before: Option<Id>, ok: bool) {
    && ok && Active(s) && !s.draining
    && (forall c :: c in s.upkeep.compactions && ActiveCompact(s.upkeep.compactions[c].status) ==>
          s.upkeep.compactions[c].position.None?)
    && QueuedInput(s.turns.inputs, i)
    && (before.Some? ==> QueuedInput(s.turns.inputs, before.value))
  }

  /** Gives the listed queued Inputs their index as position. */
  ghost function Renumber(inputs: map<Id, Input>, order: seq<Id>): map<Id, Input> {
    map j | j in inputs ::
      if inputs[j].status.Queued? && j in order then inputs[j].(position := Some(IndexOf(order, j))) else inputs[j]
  }

  ghost function MoveQueued(s: State, i: Id, before: Option<Id>, ok: bool): State {
    if !MayMove(s, i, before, ok) || before == Some(i) then s
    else
      var order := InsertBefore(Without(InputQueue(s.turns.inputs), i), i, before);
      s.(turns := s.turns.(inputs := Renumber(s.turns.inputs, order)))
  }

  function CancelInput(t: Turns, i: Id): Turns
    requires i in t.inputs
  {
    t.(inputs := t.inputs[i := t.inputs[i].(status := Cancelled)])
  }

  function CancelQueued(s: State, i: Id, ok: bool): State {
    if !ok || !QueuedInput(s.turns.inputs, i) then s
    else s.(turns := CancelInput(s.turns, i), files := DropLocators(s.files, map[i := s.turns.inputs[i]]))
  }

  function Release(files: Files, request: Request, i: Id): Files {
    files.(attachments := map a | a in files.attachments ::
      if a in request.attachments then Attachment(None, true, Some(i)) else files.attachments[a])
  }

  /** Withdrawing for an edit gives every attachment of the Input back, or changes nothing. */
  function Withdraw(s: State, i: Id, ok: bool, usable: set<Id>): State {
    if !ok || !Active(s) || !QueuedInput(s.turns.inputs, i) || !AllTakeable(s, i, usable) then s
    else s.(turns := CancelInput(s.turns, i), files := Release(s.files, s.turns.inputs[i].request, i))
  }

  function ResumeQueue(s: State, ok: bool): State {
    if ok && Active(s) && s.paused && s.attached && Waiting(s) != {} && !HasNativeCompact(s.upkeep)
       && !HasRewind(s.upkeep, RewindRequested) && !HasDriving(s.turns) && !HasOpenExecution(s.turns)
    then s.(paused := false) else s
  }

  // Dispatch

  predicate AttachmentsHeld(files: Files, request: Request, i: Id) {
    forall a :: a in request.attachments ==> a in files.attachments && files.attachments[a].holder == Some(i)
  }

  /** The dispatch of `i` is over without a run. */
  function Undispatched(t: Turns, i: Id, status: Status): Turns
    requires i in t.inputs
  {
    t.(inputs := t.inputs[i := t.inputs[i].(status := status)], dispatching := t.dispatching - {i})
  }

  /** `engine.run` threw, or the dispatch was refused; `harmless` when it is known to have had no side effect. */
  function FailDispatch(s: State, i: Id, harmless: bool): State {
    if i !in s.turns.dispatching || i !in s.turns.inputs then s
    else
      var promoted := s.turns.dispatching[i].promoted;
      var after := s.(turns := Undispatched(s.turns, i, if harmless then Rejected else Unknown),
                      draining := s.draining && !promoted);
      if harmless && !promoted then after
      else if !harmless && promoted then StopQueue(after)
      else RejectQueuedInputs(after)
  }

  /** The capability probe came back: either `engine.run` is called now, or the Input is rejected. */
  function CallEngine(s: State, i: Id, ok: bool): State {
    if i !in s.turns.dispatching || !s.turns.dispatching[i].Probing? || i !in s.turns.inputs then s
    else if ok && Active(s) && s.attached && AttachmentsHeld(s.files, s.turns.inputs[i].request, i) then
      s.(turns := s.turns.(dispatching := s.turns.dispatching[i := Calling(s.turns.dispatching[i].promoted)]),
         history := s.history.(runs := s.history.runs + [RunCall(i, s.turns.inputs[i].request.attachments)]))
    else FailDispatch(s, i, true)
  }

  function OpenStream(t: Turns, i: Id, native: NativeId): Turns {
    t.(dispatching := t.dispatching - {i}, streams := t.streams[i := Stream(native, false)])
  }

  function RunReturned(s: State, i: Id, native: NativeId): State {
    if i !in s.turns.dispatching || !s.turns.dispatching[i].Calling? then s
    else s.(turns := OpenStream(s.turns, i, native), draining := s.draining && !s.turns.dispatching[i].promoted)
  }

  // What an event does to Inputs and Executions

  /** Marks the Input and the Execution of a run as unknown unless they are settled. */
  ghost function SetUnknown(t: Turns, i: Id, native: NativeId): Turns {
    var u := if i in t.inputs && !TerminalInput(t.inputs[i].status)
             then t.(inputs := t.inputs[i := t.inputs[i].(status := Unknown)]) else t;
    match FindExecution(t.executions, native)
    case Some(e) =>
      if Terminal(t.executions[e].status) then u
      else u.(executions := t.executions[e := t.executions[e].(status := Unknown)])
    case None => u
  }

  /** Gives the Input and its Execution the same status. */
  function SetBoth(t: Turns, i: Id, e: Id, status: Status, evidence: Option<Evidence>): Turns
    requires i in t.inputs && e in t.executions
  {
    t.(inputs := t.inputs[i := t.inputs[i].(status := status)],
       executions := t.executions[e := t.executions[e].(status := status, evidence := evidence)])
  }

  function Accept(t: Turns, i: Id, native: NativeId, e: Id): Turns
    requires i in t.inputs
  {
    t.(executions := t.executions[e := Execution(Accepted, i, native, None)],
       inputs := t.inputs[i := t.inputs[i].(status := Accepted, native := Some(native))])
  }

  predicate TerminalPayload(payload: Payload) {
    payload.ExecutionCompleted? || payload.ExecutionFailed? || payload.ExecutionStopped?
  }

  predicate StatusPayload(payload: Payload) {
    payload.ExecutionStarted? || payload.ExecutionUnknown? || TerminalPayload(payload)
  }

  /** The status that an event gives to an open Execution when it comes with engine evidence. */
  function EventStatus(payload: Payload): Status
    requires StatusPayload(payload)
  {
    match payload
    case ExecutionStarted(_) => Started
    case ExecutionCompleted(_) => Completed
    case ExecutionFailed(_) => Failed
    case ExecutionStopped(_) => Stopped
    case ExecutionUnknown => Unknown
  }

  predicate Proven(payload: Payload) {
    match payload
    case InputAccepted(evidence) => evidence.EngineEvidence?
    case ExecutionStarted(evidence) => evidence.EngineEvidence?
    case ExecutionCompleted(evidence) => evidence.EngineEvidence?
    case ExecutionFailed(evidence) => evidence.EngineEvidence?
    case ExecutionStopped(evidence) => evidence.EngineEvidence?
    case _ => true
  }

  /** `e` is the identity for a new Execution. */
  ghost function TurnsAfter(t: Turns, i: Id, native: NativeId, payload: Payload, e: Id): Turns
    requires i in t.inputs
  {
    match FindExecution(t.executions, native)
    case None => if payload.InputAccepted? && Proven(payload) then Accept(t, i, native, e) else SetUnknown(t, i, native)
    case Some(x) =>
      if Terminal(t.executions[x].status) || !StatusPayload(payload) then t
      else if !Proven(payload) then SetUnknown(t, i, native)
      else SetBoth(t, i, x, EventStatus(payload),
                   if TerminalPayload(payload) then Some(payload.evidence) else t.executions[x].evidence)
  }

  // What an event does to approvals, user-input requests and stop requests of an Execution

  predicate Answers(x: Interaction, kind: InteractionKind, e: Id, control: NativeId) {
    x.kind == kind && x.execution == e && x.control == control
  }

  /** The first matching interaction, or the length when there is none. */
  function FindInteraction(xs: seq<Interaction>, kind: InteractionKind, e: Id, control: NativeId): (k: nat)
    ensures k <= |xs|
    ensures k < |xs| ==> Answers(xs[k], kind, e, control)
  {
    if xs == [] || Answers(xs[0], kind, e, control) then 0
    else 1 + FindInteraction(xs[1..], kind, e, control)
  }

  function Answer(x: Interaction, reply: ReplyStatus, answer: Option<string>): Interaction {
    x.(status := reply, reply := if answer.Some? then answer else x.reply)
  }

  function RejectPending(x: Interaction, e: Id): Interaction {
    if x.execution == e && x.status.ReplyPending? then x.(status := ReplyRejected) else x
  }

  function RejectAllPending(xs: seq<Interaction>, e: Id): seq<Interaction> {
    seq(|xs|, k requires 0 <= k < |xs| => RejectPending(xs[k], e))
  }

  /** An event on an open Execution. */
  function InteractionsAfter(xs: seq<Interaction>, e: Id, payload: Payload): seq<Interaction> {
    if TerminalPayload(payload) && Proven(payload) then RejectAllPending(xs, e)
    else match payload
    case InteractionRequested(kind, control) => xs + [Interaction(kind, e, control, ReplyPending, None)]
    case InteractionResponse(kind, control, reply, answer, _) =>
      var k := FindInteraction(xs, kind, e, control);
      if k == |xs| then xs else xs[k := Answer(xs[k], reply, answer)]
    case _ => xs
  }

  /** A confirmed answer to a user-input request may still arrive after the Execution ended. */
  function LateAnswer(xs: seq<Interaction>, e: Id, event: Event): seq<Interaction> {
    match event.payload
    case InteractionResponse(UserInput, control, Forwarded, Some(answer), Some(EngineEvidence)) =>
      var k := FindInteraction(xs, UserInput, e, control);
      if !event.source.AdapterEvidence? || k == |xs| || xs[k].reply.Some? then xs
      else xs[k := Answer(xs[k], Forwarded, Some(answer))]
    case _ => xs
  }

  predicate UnresolvedOf(stop: Stop, e: Id) {
    stop.execution == e && Unresolved(stop)
  }

  /** The index of the latest stop request of an Execution, or -1. */
  function LatestStop(stops: seq<Stop>, e: Id): (k: int)
    ensures -1 <= k < |stops|
    ensures k >= 0 ==> stops[k].execution == e
    ensures forall j :: k < j < |stops| ==> stops[j].execution != e
  {
    if stops == [] then -1
    else if stops[|stops| - 1].execution == e then |stops| - 1
    else LatestStop(stops[..|stops| - 1], e)
  }

  function ConfirmStop(stop: Stop, e: Id, evidence: Evidence): Stop {
    if UnresolvedOf(stop, e) then stop.(status := StopConfirmed, stopEvidence := Some(evidence)) else stop
  }

  predicate AwaitsConfirmation(stops: seq<Stop>, e: Id) {
    exists k :: 0 <= k < |stops| && stops[k].execution == e && (Unresolved(stops[k]) || stops[k].status.StopConfirmed?)
  }

  function ConfirmStops(stops: seq<Stop>, e: Id, evidence: Evidence): seq<Stop> {
    if AwaitsConfirmation(stops, e)
    then seq(|stops|, k requires 0 <= k < |stops| => ConfirmStop(stops[k], e, evidence))
    else stops + [Stop(e, StopConfirmed, NotRequested, None, Some(evidence))]
  }

  function LeaveUnconfirmed(stop: Stop, e: Id): Stop {
    if UnresolvedOf(stop, e) then
      stop.(status := StopUnknown, delivery := if stop.delivery.Pending? then DeliveryUnknown else stop.delivery)
    else stop
  }

  function LeaveStopsUnconfirmed(stops: seq<Stop>, e: Id): seq<Stop> {
    seq(|stops|, k requires 0 <= k < |stops| => LeaveUnconfirmed(stops[k], e))
  }

  function MergeDelivery(current: StopDelivery, incoming: StopDelivery): StopDelivery {
    if current.NotRequested? then current
    else if incoming.Delivered? || current.Delivered? then Delivered
    else if incoming.NotDelivered? then NotDelivered
    else if !incoming.Pending? then incoming
    else current
  }

  function AckStatus(ack: Acknowledgement): StopStatus {
    match ack
    case AckRequested => StopRequested
    case AckUnsupported => StopUnsupported
    case AckUnavailable => StopUnavailable
    case AckUnknown => StopUnknown
  }

  function AckDelivery(ack: Acknowledgement, evidence: Option<Evidence>): StopDelivery {
    match ack
    case AckRequested => if evidence == Some(EngineEvidence) then Delivered else DeliveryUnknown
    case AckUnknown => DeliveryUnknown
    case _ => NotDelivered
  }

  function KeepEngineEvidence(current: Option<Evidence>, incoming: Option<Evidence>): Option<Evidence> {
    if incoming == Some(EngineEvidence) then incoming else current
  }

  function Acknowledge(stop: Stop, ack: Acknowledgement, evidence: Option<Evidence>): Stop {
    if stop.delivery.NotRequested? then stop
    else stop.(status := if stop.status.StopConfirmed? then StopConfirmed else AckStatus(ack),
               delivery := MergeDelivery(stop.delivery, AckDelivery(ack, evidence)),
               deliveryEvidence := KeepEngineEvidence(stop.deliveryEvidence, evidence))
  }

  /** An event on an open Execution. */
  function StopsAfter(stops: seq<Stop>, e: Id, payload: Payload): seq<Stop> {
    match payload
    case InterruptionRequested(ack, evidence) =>
      var k := LatestStop(stops, e);
      if k < 0 then stops else stops[k := Acknowledge(stops[k], ack, evidence)]
    case ExecutionCompleted(EngineEvidence) => LeaveStopsUnconfirmed(stops, e)
    case ExecutionFailed(EngineEvidence) => LeaveStopsUnconfirmed(stops, e)
    case ExecutionUnknown => LeaveStopsUnconfirmed(stops, e)
    case ExecutionStopped(EngineEvidence) => ConfirmStops(stops, e, EngineEvidence)
    case _ => stops
  }

  // Events

  predicate SameEvent(row: EventRow, native: NativeId, event: Event) {
    row.native == native && row.source == event.source && row.id == event.id
  }

  predicate SameSequence(row: EventRow, event: Event) {
    event.sequence.Some? && row.stream == event.stream && row.source == event.source && row.sequence == event.sequence
  }

  predicate AlreadyDelivered(rows: seq<EventRow>, native: NativeId, event: Event) {
    exists k :: 0 <= k < |rows| && SameEvent(rows[k], native, event)
  }

  /** The first row with the event's place in its source stream, or the length when there is none. */
  function FindSequence(rows: seq<EventRow>, event: Event): (k: nat)
    ensures k <= |rows|
    ensures k < |rows| ==> SameSequence(rows[k], event)
    ensures forall j :: 0 <= j < k ==> !SameSequence(rows[j], event)
  {
    if rows == [] || SameSequence(rows[0], event) then 0 else 1 + FindSequence(rows[1..], event)
  }

  predicate SequenceConflict(rows: seq<EventRow>, event: Event) {
    var k := FindSequence(rows, event);
    k < |rows| && rows[k].id != event.id
  }

  predicate Ignored(rows: seq<EventRow>, native: NativeId, event: Event) {
    AlreadyDelivered(rows, native, event) || SequenceConflict(rows, event) || !event.matches
  }

  function RowOf(native: NativeId, event: Event): EventRow {
    EventRow(native, event.id, event.stream, event.sequence, event.source)
  }

  /** The event settles an open Execution of the run. */
  ghost predicate Settles(t: Turns, native: NativeId, payload: Payload) {
    && FindExecution(t.executions, native).Some?
    && OpenExecution(t, FindExecution(t.executions, native).value)
    && TerminalPayload(payload) && Proven(payload)
  }

  function MarkTerminal(t: Turns, i: Id): Turns
    requires i in t.streams
  {
    t.(streams := t.streams[i := Stream(t.streams[i].native, true)])
  }

  /** What an event that is not ignored does to the records other than the event rows. */
  ghost function Effect(s: State, i: Id, event: Event, e: Id): State
    requires i in s.turns.streams && i in s.turns.inputs
  {
    var native := s.turns.streams[i].native;
    var turns := TurnsAfter(s.turns, i, native, event.payload, e);
    var after := s.(turns := if Settles(s.turns, native, event.payload) then MarkTerminal(turns, i) else turns);
    match FindExecution(s.turns.executions, native)
    case None => after
    case Some(x) =>
      if Terminal(s.turns.executions[x].status)
      then after.(journal := s.journal.(interactions := LateAnswer(s.journal.interactions, x, event)))
      else after.(
        journal := s.journal.(interactions := InteractionsAfter(s.journal.interactions, x, event.payload)),
        stops := s.stops.(requests := StopsAfter(s.stops.requests, x, event.payload)))
  }

  predicate EndsUnknown(t: Turns, i: Id, failed: bool)
    requires i in t.streams && i in t.inputs
  {
    failed || (!t.streams[i].gotTerminal && (Driving(t.inputs[i].status) || t.inputs[i].status.Queued?))
  }

  /** The run's event stream ended, normally or with an error. */
  ghost function EndStream(s: State, i: Id, failed: bool): State {
    if i !in s.turns.streams || i !in s.turns.inputs then s
    else
      var closed := s.turns.(streams := s.turns.streams - {i});
      if EndsUnknown(s.turns, i, failed)
      then RejectQueuedInputs(s.(turns := SetUnknown(closed, i, s.turns.streams[i].native)))
      else s.(turns := closed)
  }

  /** Storing an Execution under an identity that is taken fails; the transaction rolls back and the stream fails. */
  ghost function Deliver(s: State, i: Id, event: Event, e: Id): State {
    if i !in s.turns.streams || i !in s.turns.inputs then s
    else if e in s.turns.executions then EndStream(s, i, true)
    else
      var native := s.turns.streams[i].native;
      var after := if Ignored(s.journal.events, native, event) then s else Effect(s, i, event, e);
      after.(journal := after.journal.(events := s.journal.events + [RowOf(native, event)]))
  }

  // Reconciliation

  predicate HasExecutionFor(t: Turns, i: Id) {
    exists e :: e in t.executions && t.executions[e].input == i
  }

  ghost function ReconcileInput(
      s: State, i: Id, e: Id, native: NativeId, status: Status, evidence: Evidence, ok: bool): State {
    if !ok || i !in s.turns.inputs || !s.turns.inputs[i].status.Unknown? || e in s.turns.executions
       || !Terminal(status) || !evidence.EngineEvidence? || FindExecution(s.turns.executions, native).Some?
       || HasExecutionFor(s.turns, i)
    then s
    else s.(turns := s.turns.(
      executions := s.turns.executions[e := Execution(status, i, native, Some(evidence))],
      inputs := s.turns.inputs[i := s.turns.inputs[i].(status := status, native := Some(native))]))
  }

  predicate Reconcilable(t: Turns, e: Id) {
    && e in t.executions && t.executions[e].status.Unknown?
    && t.executions[e].input in t.inputs && t.inputs[t.executions[e].input].status.Unknown?
  }

  function ReconcileExecution(s: State, e: Id, status: Status, evidence: Evidence, ok: bool): State {
    if !ok || !Reconcilable(s.turns, e) || !Terminal(status) || !evidence.EngineEvidence? then s
    else s.(
      turns := SetBoth(s.turns, s.turns.executions[e].input, e, status, Some(evidence)),
      stops := s.stops.(requests := if status.Stopped? then ConfirmStops(s.stops.requests, e, evidence)
                                    else LeaveStopsUnconfirmed(s.stops.requests, e)))
  }

  // Compaction

  ghost function RequestCompact(s: State, c: Id, instructions: bool, ok: bool): State {
    var wait := HasInput(s.turns, Queued) || HasInput(s.turns, Received);
    if !ok || !Active(s) || !s.attached || c in s.upkeep.compactions || HasInput(s.turns, Unknown)
       || HasRewind(s.upkeep, RewindRequested) || HasActiveCompact(s.upkeep) || ManyDispatched(s.turns)
       || (wait && instructions)
    then s
    else
      var busy := HasDispatched(s.turns);
      var position := if wait || busy then Some(NextPosition(s)) else None;
      var record := Compaction(if wait then CompactQueued else CompactRequested, position);
      s.(upkeep := s.upkeep.(
        compactions := s.upkeep.compactions[c := record],
        compacting := if wait then s.upkeep.compacting else s.upkeep.compacting[c := CompactProbing(busy)]))
  }

  predicate OtherActiveCompact(u: Upkeep, c: Id) {
    exists d :: d in u.compactions && d != c && ActiveCompact(u.compactions[d].status)
  }

  predicate EarlierQueuedInput(t: Turns, position: Option<nat>) {
    exists i :: i in t.inputs && QueuedInput(t.inputs, i) && (position.None? || t.inputs[i].position.GetOr(0) < position.value)
  }

  function SettleCompact(u: Upkeep, c: Id, status: CompactStatus): Upkeep {
    u.(compactions := u.compactions[c := Compaction(status, None)], compacting := u.compacting - {c})
  }

  function CallCompact(s: State, c: Id, ok: bool): State {
    if c !in s.upkeep.compacting || !s.upkeep.compacting[c].CompactProbing? || c !in s.upkeep.compactions then s
    else if ok && Active(s) && s.attached && !HasInput(s.turns, Unknown) && !HasRewind(s.upkeep, RewindRequested)
            && !OtherActiveCompact(s.upkeep, c) && s.upkeep.compactions[c].status.CompactRequested?
            && !EarlierQueuedInput(s.turns, s.upkeep.compactions[c].position)
            && (s.upkeep.compacting[c].behindInput || !HasDriving(s.turns))
    then s.(upkeep := s.upkeep.(compacting := s.upkeep.compacting[c := CompactCalling]))
    else s.(upkeep := SettleCompact(s.upkeep, c, CompactFailed))
  }

  function AcceptCompact(s: State, c: Id): State {
    if c in s.upkeep.compacting && s.upkeep.compacting[c].CompactCalling? && c in s.upkeep.compactions
       && s.upkeep.compactions[c].status.CompactRequested?
    then s.(upkeep := s.upkeep.(
      compactions := s.upkeep.compactions[c := s.upkeep.compactions[c].(status := CompactAccepted)]))
    else s
  }

  predicate CompactResult(status: CompactStatus) {
    !status.CompactQueued? && !status.CompactRequested? && !status.CompactAccepted?
  }

  /** The engine answered, or something threw; before the call, only a failure or an unknown result can come of it. */
  function FinishCompact(s: State, c: Id, status: CompactStatus): State {
    if c !in s.upkeep.compacting || c !in s.upkeep.compactions || !CompactResult(status)
       || (s.upkeep.compacting[c].CompactProbing? && !status.CompactFailed? && !status.CompactUnknown?)
    then s
    else s.(upkeep := SettleCompact(s.upkeep, c, status))
  }

  // File rewind

  function RequestRewind(s: State, r: Id, e: Id, ok: bool): State {
    if !ok || !Active(s) || !s.attached || r in s.upkeep.rewinds || e !in s.turns.executions
       || OpenExecution(s.turns, e) || !Idle(s)
       || exists x :: x in s.upkeep.rewinds && s.upkeep.rewinds[x] == Rewind(RewindUnknown, e)
    then s
    else s.(upkeep := s.upkeep.(rewinds := s.upkeep.rewinds[r := Rewind(RewindRequested, e)],
                                rewinding := s.upkeep.rewinding + {r}))
  }

  function FinishRewind(s: State, r: Id, status: RewindStatus): State {
    if r !in s.upkeep.rewinding || r !in s.upkeep.rewinds || status.RewindRequested? then s
    else s.(upkeep := s.upkeep.(rewinds := s.upkeep.rewinds[r := s.upkeep.rewinds[r].(status := status)],
                                rewinding := s.upkeep.rewinding - {r}))
  }

  // Stop requests

  predicate HasUnresolvedStop(stops: seq<Stop>, e: Id) {
    exists k :: 0 <= k < |stops| && UnresolvedOf(stops[k], e)
  }

  /** Checks for an unresolved request, then waits for the capability probe. */
  function BeginStop(s: State, e: Id, ok: bool): State {
    if !ok || e in s.stops.calls || !OpenExecution(s.turns, e) || HasUnresolvedStop(s.stops.requests, e) then s
    else if !s.attached then
      s.(stops := s.stops.(requests := s.stops.requests + [Stop(e, StopUnknown, NotDelivered, None, None)]))
    else s.(stops := s.stops.(calls := s.stops.calls[e := StopProbing]))
  }

  function RecordStop(s: State, e: Id, ok: bool): State {
    if e !in s.stops.calls || !s.stops.calls[e].StopProbing? then s
    else if !ok || !OpenExecution(s.turns, e) then s.(stops := s.stops.(calls := s.stops.calls - {e}))
    else s.(stops := Stops(s.stops.requests + [Stop(e, StopRequested, Pending, None, None)],
                           s.stops.calls[e := StopCalling(|s.stops.requests|)]))
  }

  function ReceiptStatus(receipt: Receipt): StopStatus {
    match receipt
    case ReceiptRequested => StopRequested
    case ReceiptUnsupported => StopUnsupported
    case ReceiptUnavailable => StopUnavailable
    case ReceiptUnauthorized => StopUnauthorized
    case _ => StopUnknown
  }

  function ReceiptDelivery(receipt: Receipt, evidence: Option<Evidence>): StopDelivery {
    match receipt
    case ReceiptRequested => if evidence == Some(EngineEvidence) then Delivered else DeliveryUnknown
    case ReceiptUnknown => DeliveryUnknown
    case _ => NotDelivered
  }

  function SettledStop(
      stop: Stop, open: bool, status: StopStatus, delivery: StopDelivery, evidence: Option<Evidence>): Stop {
    stop.(status := if stop.status.StopConfirmed? then StopConfirmed else if open then status else StopUnknown,
          delivery := MergeDelivery(stop.delivery, delivery),
          deliveryEvidence := KeepEngineEvidence(stop.deliveryEvidence, evidence))
  }

  /** The call for an Execution is over; `open` says whether that Execution still is. */
  function SettleCall(
      stops: Stops, open: bool, e: Id, status: StopStatus, delivery: StopDelivery, evidence: Option<Evidence>): Stops {
    if e !in stops.calls || !stops.calls[e].StopCalling? || stops.calls[e].index >= |stops.requests| then stops
    else
      var k := stops.calls[e].index;
      Stops(stops.requests[k := SettledStop(stops.requests[k], open, status, delivery, evidence)], stops.calls - {e})
  }

  function SettleStop(s: State, e: Id, status: StopStatus, delivery: StopDelivery, evidence: Option<Evidence>): State {
    s.(stops := SettleCall(s.stops, OpenExecution(s.turns, e), e, status, delivery, evidence))
  }

  /** `engine.interrupt` answered. */
  function ReceiveStop(s: State, e: Id, receipt: Receipt, evidence: Option<Evidence>): State {
    SettleStop(s, e, ReceiptStatus(receipt), ReceiptDelivery(receipt, evidence), evidence)
  }

  /** `engine.interrupt` threw; `sent` when it may have had a side effect. */
  function FailStop(s: State, e: Id, receipt: Receipt, sent: bool): State {
    SettleStop(s, e, ReceiptStatus(receipt), if sent then DeliveryUnknown else NotDelivered, None)
  }

  // Lifecycle

  function Stage(s: State, a: Id, ok: bool): State {
    if !ok || !Active(s) || a in s.files.attachments then s
    else s.(files := Files(s.files.attachments[a := Attachment(None, false, None)], s.files.locators + {a}))
  }

  function Freeze(s: State, ok: bool): State {
    if !ok || !s.task.TaskActive? then s else RejectQueuedInputs(s).(task := TaskFrozen)
  }

  function Close(s: State, abandoned: bool, ok: bool): State {
    if !ok || s.task.TaskClosed? then s
    else if abandoned then RejectQueuedInputs(s).(task := TaskClosed)
    else if HasInput(s.turns, Queued) || HasDriving(s.turns) || HasOpenExecution(s.turns) || HasActiveCompact(s.upkeep)
    then s
    else s.(task := TaskClosed)
  }

  function RecoverInput(input: Input): Input {
    if Dispatched(input.status) then input.(status := Unknown) else input
  }

  function RecoverExecution(x: Execution): Execution {
    if Terminal(x.status) then x else x.(status := Unknown)
  }

  function RecoverCompaction(c: Compaction): Compaction {
    if ActiveCompact(c.status) && !c.status.CompactQueued? then Compaction(CompactUnknown, None) else c
  }

  function RecoverRewind(r: Rewind): Rewind {
    if r.status.RewindRequested? then r.(status := RewindUnknown) else r
  }

  /** The dispatches and runs of a process end with it. */
  function LoseRuns(t: Turns): Turns {
    t.(dispatching := map[], streams := map[])
  }

  function LoseCalls(u: Upkeep): Upkeep {
    u.(compacting := map[], rewinding := {})
  }

  function InputsRecovered(inputs: map<Id, Input>): map<Id, Input> {
    map i | i in inputs :: RecoverInput(inputs[i])
  }

  function ExecutionsRecovered(executions: map<Id, Execution>): map<Id, Execution> {
    map e | e in executions :: RecoverExecution(executions[e])
  }

  function CompactionsRecovered(compactions: map<Id, Compaction>): map<Id, Compaction> {
    map c | c in compactions :: RecoverCompaction(compactions[c])
  }

  function RewindsRecovered(rewinds: map<Id, Rewind>): map<Id, Rewind> {
    map r | r in rewinds :: RecoverRewind(rewinds[r])
  }

  function RecoverTurns(t: Turns): Turns {
    LoseRuns(t.(inputs := InputsRecovered(t.inputs), executions := ExecutionsRecovered(t.executions)))
  }

  function RecoverUpkeep(u: Upkeep): Upkeep {
    LoseCalls(u.(compactions := CompactionsRecovered(u.compactions), rewinds := RewindsRecovered(u.rewinds)))
  }

  function LoseProcess(s: State): State {
    s.(attached := false, draining := false, session := SessionUnknown,
       files := s.files.(locators := {}), stops := s.stops.(calls := map[]))
  }

  /** The process dies at any point; the next one opens the store and marks what it finds. */
  function Restart(s: State): State {
    if s.session.SessionActive? then
      LoseProcess(s.(paused := s.paused || Waiting(s) != {},
                     turns := RecoverTurns(s.turns), upkeep := RecoverUpkeep(s.upkeep)))
    else LoseProcess(s.(turns := LoseRuns(s.turns), upkeep := LoseCalls(s.upkeep)))
  }

  function Restore(s: State, ok: bool): State {
    if !ok || !s.task.TaskActive? || HasDriving(s.turns) || HasOpenExecution(s.turns) || HasNativeCompact(s.upkeep)
       || HasRewind(s.upkeep, RewindRequested) || HasRewind(s.upkeep, RewindUnknown)
    then s else s.(session := SessionActive, attached := true)
  }

  // Runs

  datatype Action =
    | Submitting(id: Id, request: Request, ok: bool, usable: set<Id>)
    | Draining(ok: bool, usable: set<Id>)
    | Moving(id: Id, before: Option<Id>, ok: bool)
    | Cancelling(id: Id, ok: bool)
    | Withdrawing(id: Id, ok: bool, usable: set<Id>)
    | Resuming(ok: bool)
    | CallingEngine(id: Id, ok: bool)
    | FailingDispatch(id: Id, harmless: bool)
    | Returning(id: Id, native: NativeId)
    | Delivering(id: Id, event: Event, execution: Id)
    | EndingStream(id: Id, failed: bool)
    | ReconcilingInput(id: Id, execution: Id, native: NativeId, status: Status, evidence: Evidence, ok: bool)
    | ReconcilingExecution(execution: Id, status: Status, evidence: Evidence, ok: bool)
    | RequestingCompact(id: Id, instructions: bool, ok: bool)
    | CallingCompact(id: Id, ok: bool)
    | AcceptingCompact(id: Id)
    | FinishingCompact(id: Id, compactStatus: CompactStatus)
    | RequestingRewind(id: Id, execution: Id, ok: bool)
    | FinishingRewind(id: Id, rewindStatus: RewindStatus)
    | BeginningStop(execution: Id, ok: bool)
    | RecordingStop(execution: Id, ok: bool)
    | ReceivingStop(execution: Id, receipt: Receipt, confirmation: Option<Evidence>)
    | FailingStop(execution: Id, receipt: Receipt, sent: bool)
    | Staging(id: Id, ok: bool)
    | Freezing(ok: bool)
    | Closing(abandoned: bool, ok: bool)
    | Restarting
    | Restoring(ok: bool)

  ghost function Step(s: State, a: Action): State {
    match a
    case Submitting(i, request, ok, usable) => Submit(s, i, request, ok, usable)
    case Draining(ok, usable) => Drain(s, ok, usable)
    case Moving(i, before, ok) => MoveQueued(s, i, before, ok)
    case Cancelling(i, ok) => CancelQueued(s, i, ok)
    case Withdrawing(i, ok, usable) => Withdraw(s, i, ok, usable)
    case Resuming(ok) => ResumeQueue(s, ok)
    case CallingEngine(i, ok) => CallEngine(s, i, ok)
    case FailingDispatch(i, harmless) => FailDispatch(s, i, harmless)
    case Returning(i, native) => RunReturned(s, i, native)
    case Delivering(i, event, e) => Deliver(s, i, event, e)
    case EndingStream(i, failed) => EndStream(s, i, failed)
    case ReconcilingInput(i, e, native, status, evidence, ok) => ReconcileInput(s, i, e, native, status, evidence, ok)
    case ReconcilingExecution(e, status, evidence, ok) => ReconcileExecution(s, e, status, evidence, ok)
    case RequestingCompact(c, instructions, ok) => RequestCompact(s, c, instructions, ok)
    case CallingCompact(c, ok) => CallCompact(s, c, ok)
    case AcceptingCompact(c) => AcceptCompact(s, c)
    case FinishingCompact(c, status) => FinishCompact(s, c, status)
    case RequestingRewind(r, e, ok) => RequestRewind(s, r, e, ok)
    case FinishingRewind(r, status) => FinishRewind(s, r, status)
    case BeginningStop(e, ok) => BeginStop(s, e, ok)
    case RecordingStop(e, ok) => RecordStop(s, e, ok)
    case ReceivingStop(e, receipt, evidence) => ReceiveStop(s, e, receipt, evidence)
    case FailingStop(e, receipt, sent) => FailStop(s, e, receipt, sent)
    case Staging(i, ok) => Stage(s, i, ok)
    case Freezing(ok) => Freeze(s, ok)
    case Closing(abandoned, ok) => Close(s, abandoned, ok)
    case Restarting => Restart(s)
    case Restoring(ok) => Restore(s, ok)
  }

  ghost function Run(s: State, actions: seq<Action>): State
    decreases |actions|
  {
    if actions == [] then s else Step(Run(s, actions[..|actions| - 1]), actions[|actions| - 1])
  }

  // The steps by name

  lemma QueueSteps(s: State, a: Action)
    ensures a.Submitting? ==> Step(s, a) == Submit(s, a.id, a.request, a.ok, a.usable)
    ensures a.Draining? ==> Step(s, a) == Drain(s, a.ok, a.usable)
    ensures a.Moving? ==> Step(s, a) == MoveQueued(s, a.id, a.before, a.ok)
    ensures a.Cancelling? ==> Step(s, a) == CancelQueued(s, a.id, a.ok)
    ensures a.Withdrawing? ==> Step(s, a) == Withdraw(s, a.id, a.ok, a.usable)
    ensures a.Resuming? ==> Step(s, a) == ResumeQueue(s, a.ok)
  {
    hide Submit, Drain, MoveQueued, CancelQueued, Withdraw, ResumeQueue;
  }

  lemma DispatchSteps(s: State, a: Action)
    ensures a.CallingEngine? ==> Step(s, a) == CallEngine(s, a.id, a.ok)
    ensures a.FailingDispatch? ==> Step(s, a) == FailDispatch(s, a.id, a.harmless)
    ensures a.Returning? ==> Step(s, a) == RunReturned(s, a.id, a.native)
  {
    hide CallEngine, FailDispatch, RunReturned;
  }

  lemma RunSteps(s: State, a: Action)
    ensures a.Delivering? ==> Step(s, a) == Deliver(s, a.id, a.event, a.execution)
    ensures a.EndingStream? ==> Step(s, a) == EndStream(s, a.id, a.failed)
    ensures a.ReconcilingInput? ==> Step(s, a) == ReconcileInput(s, a.id, a.execution, a.native, a.status, a.evidence, a.ok)
    ensures a.ReconcilingExecution? ==> Step(s, a) == ReconcileExecution(s, a.execution, a.status, a.evidence, a.ok)
  {
    hide Deliver, EndStream, ReconcileInput, ReconcileExecution;
  }

  lemma UpkeepSteps(s: State, a: Action)
    ensures a.RequestingCompact? ==> Step(s, a) == RequestCompact(s, a.id, a.instructions, a.ok)
    ensures a.CallingCompact? ==> Step(s, a) == CallCompact(s, a.id, a.ok)
    ensures a.AcceptingCompact? ==> Step(s, a) == AcceptCompact(s, a.id)
    ensures a.FinishingCompact? ==> Step(s, a) == FinishCompact(s, a.id, a.compactStatus)
    ensures a.RequestingRewind? ==> Step(s, a) == RequestRewind(s, a.id, a.execution, a.ok)
    ensures a.FinishingRewind? ==> Step(s, a) == FinishRewind(s, a.id, a.rewindStatus)
  {
    hide RequestCompact, CallCompact, AcceptCompact, FinishCompact, RequestRewind, FinishRewind;
  }

  lemma StopSteps(s: State, a: Action)
    ensures a.BeginningStop? ==> Step(s, a) == BeginStop(s, a.execution, a.ok)
    ensures a.RecordingStop? ==> Step(s, a) == RecordStop(s, a.execution, a.ok)
    ensures a.ReceivingStop? ==> Step(s, a) == ReceiveStop(s, a.execution, a.receipt, a.confirmation)
    ensures a.FailingStop? ==> Step(s, a) == FailStop(s, a.execution, a.receipt, a.sent)
  {
    hide BeginStop, RecordStop, ReceiveStop, FailStop;
  }

  lemma LifeSteps(s: State, a: Action)
    ensures a.Staging? ==> Step(s, a) == Stage(s, a.id, a.ok)
    ensures a.Freezing? ==> Step(s, a) == Freeze(s, a.ok)
    ensures a.Closing? ==> Step(s, a) == Close(s, a.abandoned, a.ok)
    ensures a.Restarting? ==> Step(s, a) == Restart(s)
    ensures a.Restoring? ==> Step(s, a) == Restore(s, a.ok)
  {
    hide Stage, Freeze, Close, Restart, Restore;
  }
}
