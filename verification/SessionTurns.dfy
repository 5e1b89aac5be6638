/**
 Turn taking in a Session: at most one Input drives the native Session, and every Execution agrees with its Input. All
 steps keep this as long as the engine reconciles honestly; SessionRuns lifts it to runs.
 */
module SessionTurns {
  import opened Wrappers
  import opened SessionState
  import opened SessionSteps
  import opened SessionQuiet

  ghost predicate OneDriver(inputs: map<Id, Input>) {
    forall i, j {:trigger inputs[i], inputs[j]} ::
      i in inputs && j in inputs && Driving(inputs[i].status) && Driving(inputs[j].status) ==> i == j
  }

  predicate ExecutionStatus(status: Status) {
    Terminal(status) || status.Accepted? || status.Started? || status.Unknown?
  }

  /** An Execution has the status of its Input, and engine evidence when it is terminal. */
  ghost predicate Settled(inputs: map<Id, Input>, x: Execution) {
    && x.input in inputs && inputs[x.input].status == x.status && ExecutionStatus(x.status)
    && (Terminal(x.status) ==> x.evidence == Some(EngineEvidence))
  }

  /** Native identities and Inputs have at most one Execution. */
  ghost predicate Agree(inputs: map<Id, Input>, executions: map<Id, Execution>) {
    && (forall e :: e in executions ==> Settled(inputs, executions[e]))
    && (forall e, f {:trigger executions[e], executions[f]} ::
          e in executions && f in executions && executions[e].native == executions[f].native ==> e == f)
    && (forall e, f {:trigger executions[e], executions[f]} ::
          e in executions && f in executions && executions[e].input == executions[f].input ==> e == f)
  }

  /** There is a settled Execution with a native identity. */
  predicate HasSettled(executions: map<Id, Execution>, native: NativeId) {
    exists e :: e in executions && executions[e].native == native && Terminal(executions[e].status)
  }

  /**
   The Input of a run that is still streaming drives, and has no Execution but the one of the run; or it is over, and so
   is the Execution that later events of the run refer to.
   */
  ghost predicate StreamAgrees(inputs: map<Id, Input>, executions: map<Id, Execution>, i: Id, stream: Stream) {
    && i in inputs && (Driving(inputs[i].status) || Terminal(inputs[i].status))
    && (Driving(inputs[i].status) ==>
          forall e :: e in executions && executions[e].input == i ==> executions[e].native == stream.native)
    && (Terminal(inputs[i].status) ==> HasSettled(executions, stream.native))
  }

  ghost predicate InTurn(t: Turns) {
    && OneDriver(t.inputs)
    && Agree(t.inputs, t.executions)
    && (forall i :: i in t.dispatching ==> i in t.inputs && t.inputs[i].status.Received? && i !in t.streams)
    && (forall i :: i in t.streams ==> StreamAgrees(t.inputs, t.executions, i, t.streams[i]))
  }

  /**
   When the engine reconciles an Input whose run is still streaming, it names the native Execution of that run, unless
   an Execution of that identity is stored already. Without this the statements below are false: see
   SessionLimits.ResultStaysExactlyWhen.
   */
  ghost predicate Honest(s: State, a: Action) {
    a.ReconcilingInput? && a.id in s.turns.streams ==>
      var native := s.turns.streams[a.id].native;
      a.native == native || FindExecution(s.turns.executions, native).Some?
  }

  /** Driving Inputs were driving before. */
  ghost predicate NoNewDriver(before: map<Id, Input>, after: map<Id, Input>) {
    forall i :: i in after && Driving(after[i].status) ==> i in before && Driving(before[i].status)
  }

  ghost predicate Keeps(t: Turns, u: Turns) {
    InTurn(u) && NoNewDriver(t.inputs, u.inputs)
  }

  // Events and lost runs

  /** An open Execution and its Input move on together. */
  lemma SetBothKeeps(t: Turns, i: Id, e: Id, status: Status, evidence: Option<Evidence>)
    requires InTurn(t) && i in t.inputs && e in t.executions && t.executions[e].input == i
    requires !Terminal(t.executions[e].status)
    requires ExecutionStatus(status) && (Terminal(status) ==> evidence == Some(EngineEvidence))
    ensures Keeps(t, SetBoth(t, i, e, status, evidence))
  {
    assert Settled(t.inputs, t.executions[e]);
    var u := SetBoth(t, i, e, status, evidence);
    forall f | f in u.executions ensures Settled(u.inputs, u.executions[f]) {
      assert Settled(t.inputs, t.executions[f]);
    }
    forall j | j in u.streams ensures StreamAgrees(u.inputs, u.executions, j, u.streams[j]) {
      assert StreamAgrees(t.inputs, t.executions, j, t.streams[j]);
      if Terminal(u.inputs[j].status) {
        var f := if j == i then e else SettledExecution(t, t.streams[j].native);
        assert u.executions[f].native == u.streams[j].native && Terminal(u.executions[f].status);
      }
    }
  }

  ghost function SettledExecution(t: Turns, native: NativeId): (e: Id)
    requires HasSettled(t.executions, native)
    ensures ExecutionOf(t.executions, native, e) && Terminal(t.executions[e].status)
  {
    var e :| e in t.executions && t.executions[e].native == native && Terminal(t.executions[e].status); e
  }

  /** A driving Input without an Execution changes alone; its dispatch, if any, is over. */
  lemma UndispatchedKeeps(t: Turns, i: Id, status: Status)
    requires InTurn(t) && i in t.inputs && Driving(t.inputs[i].status)
    requires status.Unknown? || (status.Rejected? && i !in t.streams)
    requires !HasExecutionFor(t, i)
    ensures Keeps(t, Undispatched(t, i, status))
  {
    var u := Undispatched(t, i, status);
    forall e | e in u.executions ensures Settled(u.inputs, u.executions[e]) {
      assert Settled(t.inputs, t.executions[e]);
    }
    forall j | j in u.streams ensures StreamAgrees(u.inputs, u.executions, j, u.streams[j]) {
      assert StreamAgrees(t.inputs, t.executions, j, t.streams[j]);
    }
  }

  /** The Input of a run and the Execution found by the run's native identity belong together. */
  lemma RunFindsOwn(t: Turns, i: Id, e: Id)
    requires InTurn(t) && i in t.streams && ExecutionOf(t.executions, t.streams[i].native, e)
    ensures i in t.inputs
    ensures !Terminal(t.executions[e].status) ==> t.executions[e].input == i && Driving(t.inputs[i].status)
    ensures Terminal(t.inputs[i].status) ==> Terminal(t.executions[e].status)
  {
    assert StreamAgrees(t.inputs, t.executions, i, t.streams[i]);
    assert Settled(t.inputs, t.executions[e]);
    if Terminal(t.inputs[i].status) {
      assert t.executions[SettledExecution(t, t.streams[i].native)].native == t.executions[e].native;
    }
  }

  /** Losing track of a run changes its open Execution with its Input, or its Input alone, or nothing. */
  lemma SetUnknownCases(t: Turns, i: Id, native: NativeId) returns (own: Option<Id>)
    requires InTurn(t) && i in t.streams && t.streams[i].native == native
    ensures i in t.inputs && i !in t.dispatching
    ensures Driving(t.inputs[i].status) || SetUnknown(t, i, native) == t
    ensures own.Some? ==>
      && own.value in t.executions && t.executions[own.value].input == i && !Terminal(t.executions[own.value].status)
      && SetUnknown(t, i, native) == SetBoth(t, i, own.value, Unknown, t.executions[own.value].evidence)
    ensures own.None? && Driving(t.inputs[i].status) ==>
      !HasExecutionFor(t, i) && SetUnknown(t, i, native) == t.(inputs := t.inputs[i := t.inputs[i].(status := Unknown)])
  {
    var found := FindExecution(t.executions, native);
    own := None;
    assert StreamAgrees(t.inputs, t.executions, i, t.streams[i]);
    if found.Some? {
      RunFindsOwn(t, i, found.value);
      if !Terminal(t.executions[found.value].status) {
        own := found;
      }
    }
    if own.None? && Driving(t.inputs[i].status) {
      forall f | f in t.executions ensures t.executions[f].input != i {
        assert Settled(t.inputs, t.executions[f]);
        assert t.executions[f].input == i ==> ExecutionOf(t.executions, native, f);
      }
    }
  }

  lemma SetUnknownKeeps(t: Turns, i: Id, native: NativeId)
    requires InTurn(t) && i in t.streams && t.streams[i].native == native
    ensures Keeps(t, SetUnknown(t, i, native))
  {
    hide InTurn;
    var own := SetUnknownCases(t, i, native);
    if own.Some? {
      SetBothKeeps(t, i, own.value, Unknown, t.executions[own.value].evidence);
    } else if Driving(t.inputs[i].status) {
      UndispatchedKeeps(t, i, Unknown);
      assert t.dispatching - {i} == t.dispatching;
    }
  }

  lemma UnsettledDrives(t: Turns, i: Id, native: NativeId)
    requires InTurn(t) && i in t.streams && t.streams[i].native == native
    requires FindExecution(t.executions, native).None?
    ensures i in t.inputs && Driving(t.inputs[i].status)
    ensures forall e :: e in t.executions ==> t.executions[e].native != native && t.executions[e].input != i
  {
    assert StreamAgrees(t.inputs, t.executions, i, t.streams[i]);
    forall e | e in t.executions ensures t.executions[e].native != native {
      assert !ExecutionOf(t.executions, native, e);
    }
  }

  /** The acceptance event gives the Input of the run its Execution. */
  lemma AcceptKeeps(t: Turns, i: Id, native: NativeId, e: Id)
    requires InTurn(t) && i in t.inputs && i in t.streams && t.streams[i].native == native
    requires FindExecution(t.executions, native).None? && e !in t.executions
    ensures Keeps(t, Accept(t, i, native, e))
  {
    UnsettledDrives(t, i, native);
    assert StreamAgrees(t.inputs, t.executions, i, t.streams[i]);
    var u := Accept(t, i, native, e);
    forall f | f in u.executions ensures Settled(u.inputs, u.executions[f]) {
      if f != e { assert Settled(t.inputs, t.executions[f]); }
    }
    forall j | j in u.streams ensures StreamAgrees(u.inputs, u.executions, j, u.streams[j]) {
      assert StreamAgrees(t.inputs, t.executions, j, t.streams[j]);
      if Terminal(u.inputs[j].status) {
        var f := SettledExecution(t, t.streams[j].native);
        assert u.executions[f].native == u.streams[j].native && Terminal(u.executions[f].status);
      }
    }
  }

  lemma TurnsAfterKeeps(t: Turns, i: Id, native: NativeId, payload: Payload, e: Id)
    requires InTurn(t) && i in t.inputs && i in t.streams && t.streams[i].native == native && e !in t.executions
    ensures Keeps(t, TurnsAfter(t, i, native, payload, e))
  {
    hide InTurn, SetUnknown, SetBoth, Accept;
    match FindExecution(t.executions, native) {
      case None =>
        if payload.InputAccepted? && Proven(payload) {
          AcceptKeeps(t, i, native, e);
        } else {
          SetUnknownKeeps(t, i, native);
        }
      case Some(x) =>
        if !Terminal(t.executions[x].status) && StatusPayload(payload) {
          RunFindsOwn(t, i, x);
          if Proven(payload) {
            var evidence := if TerminalPayload(payload) then Some(payload.evidence) else t.executions[x].evidence;
            SetBothKeeps(t, i, x, EventStatus(payload), evidence);
          } else {
            SetUnknownKeeps(t, i, native);
          }
        }
    }
  }

  lemma ForgetStream(t: Turns, i: Id)
    requires InTurn(t)
    ensures InTurn(t.(streams := t.streams - {i}))
  {
  }

  lemma MarkTerminalKeeps(t: Turns, i: Id)
    requires InTurn(t) && i in t.streams
    ensures InTurn(MarkTerminal(t, i))
  {
    assert StreamAgrees(t.inputs, t.executions, i, t.streams[i]);
  }

  /** The stream of a run is forgotten before the run is marked as lost; the order makes no difference. */
  lemma LoseStream(t: Turns, i: Id, native: NativeId)
    ensures SetUnknown(t.(streams := t.streams - {i}), i, native)
         == SetUnknown(t, i, native).(streams := t.streams - {i})
    ensures SetUnknown(t, i, native).streams == t.streams
  {
  }

  // The queue

  /** Only queued Inputs changed: their place, or they left the queue undispatched. */
  ghost predicate OnlyQueued(before: map<Id, Input>, after: map<Id, Input>) {
    && after.Keys == before.Keys
    && forall i :: i in before ==>
         if before[i].status.Queued?
         then after[i].status.Queued? || after[i].status.Rejected? || after[i].status.Cancelled?
         else after[i] == before[i]
  }

  lemma OnlyQueuedKeeps(t: Turns, after: map<Id, Input>)
    requires InTurn(t) && OnlyQueued(t.inputs, after)
    ensures InTurn(t.(inputs := after))
  {
    forall e | e in t.executions ensures Settled(after, t.executions[e]) {
      assert Settled(t.inputs, t.executions[e]);
    }
    forall j | j in t.streams ensures StreamAgrees(after, t.executions, j, t.streams[j]) {
      assert StreamAgrees(t.inputs, t.executions, j, t.streams[j]);
    }
  }

  lemma RejectKeeps(t: Turns)
    requires InTurn(t)
    ensures Keeps(t, t.(inputs := RejectInputs(t.inputs)))
  {
    OnlyQueuedKeeps(t, RejectInputs(t.inputs));
  }

  lemma CancelKeeps(t: Turns, i: Id)
    requires InTurn(t) && QueuedInput(t.inputs, i)
    ensures Keeps(t, CancelInput(t, i))
  {
    OnlyQueuedKeeps(t, CancelInput(t, i).inputs);
  }

  lemma RenumberKeeps(t: Turns, order: seq<Id>)
    requires InTurn(t)
    ensures InTurn(t.(inputs := Renumber(t.inputs, order)))
  {
    OnlyQueuedKeeps(t, Renumber(t.inputs, order));
  }

  /** A new Input is queued or rejected, or is the only driver and about to be dispatched. */
  lemma NewInputKeeps(t: Turns, id: Id, input: Input, dispatching: map<Id, Dispatch>)
    requires InTurn(t) && id !in t.inputs
    requires input.status.Queued? || input.status.Rejected? || (input.status.Received? && !HasDriving(t))
    requires dispatching == t.dispatching || (input.status.Received? && dispatching == t.dispatching[id := Probing(false)])
    ensures InTurn(t.(inputs := t.inputs[id := input], dispatching := dispatching))
  {
    var after := t.inputs[id := input];
    forall e | e in t.executions ensures Settled(after, t.executions[e]) {
      assert Settled(t.inputs, t.executions[e]);
    }
    forall j | j in t.streams ensures StreamAgrees(after, t.executions, j, t.streams[j]) {
      assert StreamAgrees(t.inputs, t.executions, j, t.streams[j]);
    }
  }

  lemma PromoteKeeps(s: State, i: Id)
    requires InTurn(s.turns) && QueuedInput(s.turns.inputs, i) && !HasDriving(s.turns)
    ensures InTurn(Promote(s, i).turns)
  {
    var t, u := s.turns, Promote(s, i).turns;
    forall e | e in t.executions ensures Settled(u.inputs, t.executions[e]) {
      assert Settled(t.inputs, t.executions[e]);
    }
    forall j | j in t.streams ensures StreamAgrees(u.inputs, t.executions, j, t.streams[j]) {
      assert StreamAgrees(t.inputs, t.executions, j, t.streams[j]);
    }
  }

  // Dispatch

  lemma DispatchedAlone(t: Turns, i: Id)
    requires InTurn(t) && i in t.dispatching
    ensures i in t.inputs && t.inputs[i].status.Received? && i !in t.streams && !HasExecutionFor(t, i)
  {
    forall f | f in t.executions ensures t.executions[f].input != i {
      assert Settled(t.inputs, t.executions[f]);
    }
  }

  lemma FailDispatchKeeps(s: State, i: Id, harmless: bool)
    requires InTurn(s.turns)
    ensures Keeps(s.turns, FailDispatch(s, i, harmless).turns)
  {
    hide InTurn, Undispatched, DropLocators, FailCompactions, RejectInputs;
    if i in s.turns.dispatching {
      var status := if harmless then Rejected else Unknown;
      DispatchedAlone(s.turns, i);
      UndispatchedKeeps(s.turns, i, status);
      RejectKeeps(Undispatched(s.turns, i, status));
    }
  }

  lemma CallEngineKeeps(s: State, i: Id, ok: bool)
    requires InTurn(s.turns)
    ensures Keeps(s.turns, CallEngine(s, i, ok).turns)
  {
    hide FailDispatch, AttachmentsHeld;
    FailDispatchKeeps(s, i, true);
  }

  lemma OpenStreamKeeps(t: Turns, i: Id, native: NativeId)
    requires InTurn(t) && i in t.dispatching
    ensures InTurn(OpenStream(t, i, native))
  {
    DispatchedAlone(t, i);
    var u := OpenStream(t, i, native);
    forall j | j in u.streams ensures StreamAgrees(u.inputs, u.executions, j, u.streams[j]) {
      if j != i { assert StreamAgrees(t.inputs, t.executions, j, t.streams[j]); }
    }
  }

  // Whole steps

  lemma EffectKeeps(s: State, i: Id, event: Event, e: Id)
    requires InTurn(s.turns) && i in s.turns.streams && i in s.turns.inputs && e !in s.turns.executions
    ensures Keeps(s.turns, Effect(s, i, event, e).turns)
  {
    hide InTurn, LateAnswer, InteractionsAfter, StopsAfter;
    var native := s.turns.streams[i].native;
    TurnsAfterKeeps(s.turns, i, native, event.payload, e);
    TurnsAfterStreams(s.turns, i, native, event.payload, e);
    MarkTerminalKeeps(TurnsAfter(s.turns, i, native, event.payload, e), i);
  }

  lemma EndStreamKeeps(s: State, i: Id, failed: bool)
    requires InTurn(s.turns)
    ensures Keeps(s.turns, EndStream(s, i, failed).turns)
  {
    hide InTurn, SetUnknown, RejectInputs, DropLocators;
    ForgetStream(s.turns, i);
    if i in s.turns.streams && i in s.turns.inputs {
      var native := s.turns.streams[i].native;
      LoseStream(s.turns, i, native);
      SetUnknownKeeps(s.turns, i, native);
      ForgetStream(SetUnknown(s.turns, i, native), i);
      RejectKeeps(SetUnknown(s.turns.(streams := s.turns.streams - {i}), i, native));
    }
  }

  lemma DeliverKeeps(s: State, i: Id, event: Event, e: Id)
    requires InTurn(s.turns)
    ensures Keeps(s.turns, Deliver(s, i, event, e).turns)
  {
    hide InTurn, EndStream, Effect, Ignored;
    EndStreamKeeps(s, i, true);
    if i in s.turns.streams && i in s.turns.inputs && e !in s.turns.executions {
      EffectKeeps(s, i, event, e);
    }
  }

  /** Beside a driving Input, every Execution of another Input is settled. */
  lemma SettledApart(t: Turns, i: Id, f: Id)
    requires InTurn(t) && i in t.inputs && Driving(t.inputs[i].status)
    ensures f in t.executions && t.executions[f].input != i ==> Terminal(t.executions[f].status)
  {
    if f in t.executions { assert Settled(t.inputs, t.executions[f]); }
  }

  lemma ReconcileInputKeeps(s: State, i: Id, e: Id, native: NativeId, status: Status, evidence: Evidence, ok: bool)
    requires InTurn(s.turns) && Honest(s, ReconcilingInput(i, e, native, status, evidence, ok))
    ensures Keeps(s.turns, ReconcileInput(s, i, e, native, status, evidence, ok).turns)
  {
    var t, u := s.turns, ReconcileInput(s, i, e, native, status, evidence, ok).turns;
    if u != t {
      forall f | f in t.executions ensures t.executions[f].native != native {
        assert !ExecutionOf(t.executions, native, f);
      }
      forall f | f in u.executions ensures Settled(u.inputs, u.executions[f]) {
        if f != e { assert Settled(t.inputs, t.executions[f]); }
      }
      forall j | j in u.streams ensures StreamAgrees(u.inputs, u.executions, j, u.streams[j]) {
        assert StreamAgrees(t.inputs, t.executions, j, t.streams[j]);
        if Terminal(u.inputs[j].status) {
          var f := if j != i then SettledExecution(t, t.streams[j].native)
                   else if native == t.streams[i].native then e
                   else FindExecution(t.executions, t.streams[i].native).value;
          SettledApart(t, i, f);
          assert u.executions[f].native == u.streams[j].native && Terminal(u.executions[f].status);
        }
      }
    }
  }

  lemma ReconcileExecutionKeeps(s: State, e: Id, status: Status, evidence: Evidence, ok: bool)
    requires InTurn(s.turns)
    ensures Keeps(s.turns, ReconcileExecution(s, e, status, evidence, ok).turns)
  {
    hide InTurn;
    if Reconcilable(s.turns, e) && Terminal(status) && evidence.EngineEvidence? {
      SetBothKeeps(s.turns, s.turns.executions[e].input, e, status, Some(evidence));
    }
  }

  lemma RecoverAgrees(t: Turns)
    requires InTurn(t)
    ensures Agree(RecoverTurns(t).inputs, RecoverTurns(t).executions)
  {
    var u := RecoverTurns(t);
    forall e | e in t.executions ensures Settled(u.inputs, u.executions[e]) {
      assert Settled(t.inputs, t.executions[e]);
    }
  }

  lemma RecoverQuietly(t: Turns)
    ensures NoNewDriver(t.inputs, RecoverTurns(t).inputs)
  {
  }

  lemma RecoverKeeps(t: Turns)
    requires InTurn(t)
    ensures Keeps(t, RecoverTurns(t))
  {
    RecoverAgrees(t);
    RecoverQuietly(t);
    hide Agree, StreamAgrees, RecoverExecution;
  }

  lemma ForgetRuns(t: Turns)
    requires InTurn(t)
    ensures Keeps(t, LoseRuns(t))
  {
    hide Agree, OneDriver, StreamAgrees;
  }

  lemma SubmitKeeps(s: State, id: Id, request: Request, ok: bool, usable: set<Id>)
    requires InTurn(s.turns)
    ensures InTurn(Submit(s, id, request, ok, usable).turns)
  {
    hide InTurn, Decide, AllClaimable, NextPosition;
    var d := s.turns.dispatching;
    match Decide(s, id, request, ok, usable) {
      case Enqueue => NewInputKeeps(s.turns, id, Input(Queued, request, Some(NextPosition(s)), None), d);
      case Start =>
        NewInputKeeps(s.turns, id, Input(Received, request, None, None), d[id := Probing(false)]);
        NewInputKeeps(s.turns, id, Input(Rejected, request, None, None), d);
      case _ =>
    }
  }

  lemma DrainKeeps(s: State, ok: bool, usable: set<Id>)
    requires InTurn(s.turns)
    ensures InTurn(Drain(s, ok, usable).turns)
  {
    hide InTurn, Drain, Promote;
    DrainCases(s, ok, usable);
    RejectKeeps(s.turns);
    forall i | QueuedInput(s.turns.inputs, i) && !HasDriving(s.turns) ensures InTurn(Promote(s, i).turns) {
      PromoteKeeps(s, i);
    }
  }

  lemma RunActionKeeps(s: State, a: Action)
    requires InTurn(s.turns) && Honest(s, a) && RunAction(a)
    ensures Keeps(s.turns, Step(s, a).turns)
  {
    hide InTurn, CallEngine, FailDispatch, Deliver, EndStream, ReconcileInput, ReconcileExecution;
    match a {
      case CallingEngine(i, ok) => CallEngineKeeps(s, i, ok);
      case FailingDispatch(i, harmless) => FailDispatchKeeps(s, i, harmless);
      case Returning(i, native) => if i in s.turns.dispatching { OpenStreamKeeps(s.turns, i, native); }
      case Delivering(i, event, e) => DeliverKeeps(s, i, event, e);
      case EndingStream(i, failed) => EndStreamKeeps(s, i, failed);
      case ReconcilingInput(i, e, native, status, evidence, ok) =>
        ReconcileInputKeeps(s, i, e, native, status, evidence, ok);
      case ReconcilingExecution(e, status, evidence, ok) => ReconcileExecutionKeeps(s, e, status, evidence, ok);
    }
  }

  lemma RestartKeeps(s: State)
    requires InTurn(s.turns)
    ensures Keeps(s.turns, Restart(s).turns)
  {
    hide InTurn, RecoverTurns, RecoverUpkeep, Waiting;
    RecoverKeeps(s.turns);
    ForgetRuns(s.turns);
  }

  lemma CancellingKeeps(s: State, a: Action)
    requires InTurn(s.turns) && (a.Cancelling? || a.Withdrawing?)
    ensures Keeps(s.turns, Step(s, a).turns)
  {
    hide InTurn, AllTakeable, CancelInput;
    if QueuedInput(s.turns.inputs, a.id) { CancelKeeps(s.turns, a.id); }
  }

  lemma ClosingKeeps(s: State, a: Action)
    requires InTurn(s.turns) && (a.Freezing? || a.Closing?)
    ensures Keeps(s.turns, Step(s, a).turns)
  {
    hide InTurn, RejectInputs, DropLocators;
    RejectKeeps(s.turns);
  }

  lemma QuietStepKeeps(s: State, a: Action)
    requires InTurn(s.turns) && Honest(s, a) && QuietAction(a)
    ensures Keeps(s.turns, Step(s, a).turns)
  {
    if !TurnAction(a) {
      OtherActionTurns(s, a);
    } else if RunAction(a) {
      RunActionKeeps(s, a);
    } else if a.Cancelling? || a.Withdrawing? {
      CancellingKeeps(s, a);
    } else if a.Restarting? {
      RestartKeeps(s);
    } else {
      ClosingKeeps(s, a);
    }
  }

  /** Every step keeps the turns, given that the engine reconciles honestly. */
  lemma StepKeepsTurns(s: State, a: Action)
    requires InTurn(s.turns) && Honest(s, a)
    ensures InTurn(Step(s, a).turns)
  {
    if QuietAction(a) {
      hide InTurn, Step;
      QuietStepKeeps(s, a);
    } else {
      hide InTurn, Submit, Drain, InputQueue, InsertBefore, Without;
      match a {
        case Submitting(i, request, ok, usable) => SubmitKeeps(s, i, request, ok, usable);
        case Draining(ok, usable) => DrainKeeps(s, ok, usable);
        case Moving(i, before, ok) =>
          RenumberKeeps(s.turns, InsertBefore(Without(InputQueue(s.turns.inputs), i), i, before));
      }
    }
  }
}
