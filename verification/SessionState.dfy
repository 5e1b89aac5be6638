/**
 The records that `TaskRuntime` keeps for one Task and its Session, and what is in flight in the process that
 owns them. The store is modelled by one map per record kind; a crash loses exactly the fields listed as volatile.
 */
module SessionState {
  import opened Wrappers

  type Id = int
  type NativeId = int

  datatype TaskStatus = TaskActive | TaskFrozen | TaskClosed
  datatype SessionStatus = SessionActive | SessionUnknown

  /** Statuses of Inputs and Executions; `Accepted` stands for "native-accepted" on an Input. */
  datatype Status =
    | Queued | Received | Accepted | Started | Completed | Failed | Stopped | Unknown | Rejected | Cancelled

  predicate Terminal(status: Status) {
    (status.Completed? || status.Failed? || status.Stopped?)
  }

  predicate TerminalInput(status: Status) {
    (status.Completed? || status.Failed? || status.Stopped? || status.Rejected? || status.Cancelled?)
  }

  predicate Dispatched(status: Status) {
    (status.Received? || status.Accepted? || status.Started?)
  }

  /** The Input drives the native Session, or may still be driving it. */
  predicate Driving(status: Status) {
    (status.Received? || status.Accepted? || status.Started? || status.Unknown?)
  }

  datatype Delivery = StartNow | Queue

  /** The part of a submission that an idempotent repetition has to match. */
  datatype Request = Request(
    key: Option<string>, text: string, delivery: Delivery, config: string, attachments: seq<Id>)

  datatype Input = Input(
    status: Status, request: Request, position: Option<nat>, native: Option<NativeId>)

  datatype Evidence = EngineEvidence | AdapterEvidence | HostEvidence

  /** `evidence` is the evidence that came with the last terminal transition. */
  datatype Execution = Execution(
    status: Status, input: Id, native: NativeId, evidence: Option<Evidence>)

  datatype CompactStatus = CompactQueued | CompactRequested | CompactAccepted | CompactUnknown
                         | CompactCompleted | CompactSkipped | CompactFailed | CompactCancelled

  predicate ActiveCompact(status: CompactStatus) {
    (status.CompactQueued? || status.CompactRequested? || status.CompactAccepted? || status.CompactUnknown?)
  }

  datatype Compaction = Compaction(status: CompactStatus, position: Option<nat>)

  datatype RewindStatus = RewindRequested | RewindApplied | RewindRejected | RewindUnknown

  datatype Rewind = Rewind(status: RewindStatus, execution: Id)

  /** `locator`: the Host-staged reference kept while a queued Input waits for dispatch. */
  datatype Attachment = Attachment(holder: Option<Id>, locator: bool, editSource: Option<Id>)

  datatype StopStatus = StopRequested | StopUnsupported | StopUnavailable | StopUnauthorized | StopUnknown
                      | StopConfirmed

  /** What `engine.interrupt` answers, and what an interruption event reports. */
  datatype Receipt = ReceiptRequested | ReceiptClosed | ReceiptUnsupported | ReceiptUnavailable
                   | ReceiptUnauthorized | ReceiptUnknown
  datatype Acknowledgement = AckRequested | AckUnsupported | AckUnavailable | AckUnknown

  datatype StopDelivery = Pending | Delivered | NotDelivered | DeliveryUnknown | NotRequested

  datatype Stop = Stop(
    execution: Id, status: StopStatus, delivery: StopDelivery, deliveryEvidence: Option<Evidence>,
    stopEvidence: Option<Evidence>)

  predicate Unresolved(stop: Stop) {
    (stop.status.StopRequested? || stop.status.StopUnknown?)
  }

  datatype ReplyStatus = ReplyPending | Forwarded | Expired | ReplyUnknown | AlreadyAnswered | ReplyUnsupported
                       | ReplyRejected

  datatype InteractionKind = Approval | UserInput

  datatype Interaction = Interaction(
    kind: InteractionKind, execution: Id, control: NativeId, status: ReplyStatus, reply: Option<string>)

  /** The part of the engine's events that changes records; every other event type is `Other`. */
  datatype Payload =
    | InputAccepted(evidence: Evidence)
    | ExecutionStarted(evidence: Evidence)
    | ExecutionCompleted(evidence: Evidence)
    | ExecutionFailed(evidence: Evidence)
    | ExecutionStopped(evidence: Evidence)
    | ExecutionUnknown
    | InteractionRequested(kind: InteractionKind, control: NativeId)
    | InteractionResponse(kind: InteractionKind, control: NativeId, reply: ReplyStatus,
                          answer: Option<string>, confirmation: Option<Evidence>)
    | InterruptionRequested(ack: Acknowledgement, confirmation: Option<Evidence>)
    | Other(detail: string)

  /** `matches`: the event names the Session and Execution handles of the run that delivered it. */
  datatype Event = Event(
    id: string, stream: string, sequence: Option<nat>, source: Evidence, matches: bool, payload: Payload)

  /** A stored event; `native` is the Execution handle of the run that delivered it. */
  datatype EventRow = EventRow(
    native: NativeId, id: string, stream: string, sequence: Option<nat>, source: Evidence)

  /** Where a dispatch is suspended: probing capabilities, or inside `engine.run`. */
  datatype Dispatch = Probing(promoted: bool) | Calling(promoted: bool)

  datatype CompactCall = CompactProbing(behindInput: bool) | CompactCalling

  datatype Stream = Stream(native: NativeId, gotTerminal: bool)

  /** Where a stop request is suspended: probing capabilities, or inside `engine.interrupt`. */
  datatype StopCall = StopProbing | StopCalling(index: nat)

  /** One call of `engine.run`. */
  datatype RunCall = RunCall(input: Id, attachments: seq<Id>)

  /** Inputs and Executions; volatile: the dispatches in flight and the event streams being consumed. */
  datatype Turns = Turns(
    inputs: map<Id, Input>, executions: map<Id, Execution>, dispatching: map<Id, Dispatch>, streams: map<Id, Stream>)

  /** Compactions and file rewinds; volatile: the ones this process is executing. */
  datatype Upkeep = Upkeep(
    compactions: map<Id, Compaction>, rewinds: map<Id, Rewind>, compacting: map<Id, CompactCall>, rewinding: set<Id>)

  /** Attachments; volatile: the locators that staging left in memory. */
  datatype Files = Files(attachments: map<Id, Attachment>, locators: set<Id>)

  /** Stop requests, oldest first; volatile: the calls in flight, one per Execution. */
  datatype Stops = Stops(requests: seq<Stop>, calls: map<Id, StopCall>)

  /** Stored events, approvals and user-input requests, oldest first. */
  datatype Journal = Journal(events: seq<EventRow>, interactions: seq<Interaction>)

  /** Never read by the runtime: the calls of engine.run, and the orders of queueing and promotion. */
  datatype History = History(runs: seq<RunCall>, enqueued: seq<Id>, promoted: seq<Id>)

  /** `attached` and `draining` are volatile, the other flags are stored. */
  datatype State = State(
    task: TaskStatus, session: SessionStatus, paused: bool, attached: bool, draining: bool,
    turns: Turns, upkeep: Upkeep, files: Files, stops: Stops, journal: Journal, history: History)

  /** A Task whose Session has just been created and attached. */
  const Fresh := State(
    TaskActive, SessionActive, false, true, false,
    Turns(map[], map[], map[], map[]), Upkeep(map[], map[], map[], {}), Files(map[], {}), Stops([], map[]),
    Journal([], []), History([], [], []))

  // Questions that the runtime asks of its records

  predicate HasInput(t: Turns, status: Status) {
    exists i :: i in t.inputs && t.inputs[i].status == status
  }

  predicate HasDriving(t: Turns) {
    exists i :: i in t.inputs && Driving(t.inputs[i].status)
  }

  predicate HasDispatched(t: Turns) {
    exists i :: i in t.inputs && Dispatched(t.inputs[i].status)
  }

  predicate ManyDispatched(t: Turns) {
    exists i, j {:trigger t.inputs[i], t.inputs[j]} ::
      i in t.inputs && j in t.inputs && i != j && Dispatched(t.inputs[i].status) && Dispatched(t.inputs[j].status)
  }

  predicate OpenExecution(t: Turns, e: Id) {
    e in t.executions && !Terminal(t.executions[e].status)
  }

  predicate HasOpenExecution(t: Turns) {
    exists e :: e in t.executions && !Terminal(t.executions[e].status)
  }

  predicate HasActiveCompact(u: Upkeep) {
    exists c :: c in u.compactions && ActiveCompact(u.compactions[c].status)
  }

  predicate HasCompact(u: Upkeep, status: CompactStatus) {
    exists c :: c in u.compactions && u.compactions[c].status == status
  }

  /** A compaction that the engine may be executing. */
  predicate HasNativeCompact(u: Upkeep) {
    HasCompact(u, CompactRequested) || HasCompact(u, CompactAccepted) || HasCompact(u, CompactUnknown)
  }

  predicate HasRewind(u: Upkeep, status: RewindStatus) {
    exists r :: r in u.rewinds && u.rewinds[r].status == status
  }

  /** No unfinished Input (queued ones count), compaction or requested file rewind. */
  predicate Idle(s: State) {
    && !HasInput(s.turns, Queued) && !HasDriving(s.turns)
    && !HasActiveCompact(s.upkeep) && !HasRewind(s.upkeep, RewindRequested)
  }

  predicate ExecutionOf(executions: map<Id, Execution>, native: NativeId, e: Id) {
    e in executions && executions[e].native == native
  }

  /** The Execution with a native identity, `None` when there is none. */
  ghost function FindExecution(executions: map<Id, Execution>, native: NativeId): (r: Option<Id>)
    ensures r.Some? ==> ExecutionOf(executions, native, r.value)
    ensures r.None? ==> forall e :: !ExecutionOf(executions, native, e)
  {
    if exists e :: ExecutionOf(executions, native, e)
    then var e :| ExecutionOf(executions, native, e); Some(e) else None
  }

  // The queue that Inputs and compactions share

  datatype Work = InputWork(id: Id) | CompactWork(id: Id)

  predicate QueuedInput(inputs: map<Id, Input>, i: Id) {
    i in inputs && inputs[i].status.Queued?
  }

  predicate QueuedCompaction(compactions: map<Id, Compaction>, c: Id) {
    c in compactions && compactions[c].status.CompactQueued? && compactions[c].position.Some?
  }

  predicate Waits(s: State, w: Work) {
    match w
    case InputWork(i) => QueuedInput(s.turns.inputs, i)
    case CompactWork(c) => QueuedCompaction(s.upkeep.compactions, c)
  }

  function Waiting(s: State): set<Work> {
    (set i | i in s.turns.inputs && QueuedInput(s.turns.inputs, i) :: InputWork(i)) +
    (set c | c in s.upkeep.compactions && QueuedCompaction(s.upkeep.compactions, c) :: CompactWork(c))
  }

  function Position(s: State, w: Work): nat
    requires Waits(s, w)
  {
    match w
    case InputWork(i) => s.turns.inputs[i].position.GetOr(0)
    case CompactWork(c) => s.upkeep.compactions[c].position.GetOr(0)
  }

  /** Positions taken by waiting work and by active compactions. */
  function TakenPositions(s: State): set<nat> {
    (set w | w in Waiting(s) :: Position(s, w)) +
    (set c | c in s.upkeep.compactions && ActiveCompact(s.upkeep.compactions[c].status)
       :: s.upkeep.compactions[c].position.GetOr(0))
  }
}
