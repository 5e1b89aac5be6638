/** What becomes of a run: what every event, answer, failure and reconciliation does to its Input and its Execution. */
module SessionOutcomes {
  import opened Wrappers
  import opened SessionState
  import opened SessionSteps
  import opened SessionQuiet
  import opened SessionSafety
  import opened SessionResults
  import opened SessionReports
  import opened SessionTracking
  import opened SessionDraining

  /** The status that an event gives to the Input and the open Execution of its run, if any. */
  function Gives(payload: Payload): Option<Status> {
    match payload
    case ExecutionStarted(EngineEvidence) => Some(Started)
    case ExecutionCompleted(EngineEvidence) => Some(Completed)
    case ExecutionFailed(EngineEvidence) => Some(Failed)
    case ExecutionStopped(EngineEvidence) => Some(Stopped)
    case ExecutionUnknown => Some(Unknown)
    case _ => None
  }

  /** An event that only the engine may vouch for, vouched for by somebody else. */
  predicate Unvouched(payload: Payload) {
    match payload
    case ExecutionStarted(evidence) => evidence != EngineEvidence
    case ExecutionCompleted(evidence) => evidence != EngineEvidence
    case ExecutionFailed(evidence) => evidence != EngineEvidence
    case ExecutionStopped(evidence) => evidence != EngineEvidence
    case _ => false
  }

  function LoseInput(input: Input): Input {
    if Over(input.status) then input else input.(status := Unknown)
  }

  /** The run has no Execution yet. */
  ghost predicate Unborn(t: Turns, native: NativeId) {
    forall e :: e in t.executions ==> t.executions[e].native != native
  }

  /** The first event of a run accepts its Input with an Execution, or the run is lost. */
  lemma FirstEvent(s: State, a: Action)
    requires a.Delivering? && a.id in s.turns.streams && a.id in s.turns.inputs && a.execution !in s.turns.executions
    requires var native := s.turns.streams[a.id].native;
      Unborn(s.turns, native) && Counts(s.journal.events, native, a.event)
    ensures var t, u, native := s.turns, Step(s, a).turns, s.turns.streams[a.id].native;
      if a.event.payload == InputAccepted(EngineEvidence)
      then u == t.(inputs := t.inputs[a.id := t.inputs[a.id].(status := Accepted, native := Some(native))],
                   executions := t.executions[a.execution := Execution(Accepted, a.id, native, None)])
      else u == t.(inputs := t.inputs[a.id := LoseInput(t.inputs[a.id])])
  {
    hide Step, Ignored, Counts;
    RunSteps(s, a);
    CountsUnlessIgnored(s.journal.events, s.turns.streams[a.id].native, a.event);
    assert FindExecution(s.turns.executions, s.turns.streams[a.id].native).None?;
  }

  /** Every later event that counts moves the Input and the open Execution together, or the run is lost. */
  lemma LaterEvent(s: State, a: Action, e: Id)
    requires Evidenced(s.turns.executions) && Hears(s, a, e)
    ensures var t, u := s.turns, Step(s, a).turns;
      match Gives(a.event.payload)
      case Some(status) =>
        && u.inputs == t.inputs[a.id := t.inputs[a.id].(status := status)]
        && u.executions == t.executions[e := t.executions[e].(
             status := status,
             evidence := if status in {Completed, Failed, Stopped} then Some(EngineEvidence) else t.executions[e].evidence)]
        && u.streams == if status in {Completed, Failed, Stopped}
                        then t.streams[a.id := Stream(t.streams[a.id].native, true)] else t.streams
      case None =>
        if Unvouched(a.event.payload)
        then && u.inputs == t.inputs[a.id := LoseInput(t.inputs[a.id])]
             && u.executions == t.executions[e := t.executions[e].(status := Unknown)]
        else u == t
  {
    hide Step, Evidenced, Ignored, Counts, FindExecution;
    RunSteps(s, a);
    FindsOnly(s.turns.executions, e);
    CountsUnlessIgnored(s.journal.events, s.turns.streams[a.id].native, a.event);
  }

  /** An event that does not count, or comes after the end of its run, changes neither Inputs nor Executions. */
  lemma EventAside(s: State, a: Action)
    requires Evidenced(s.turns.executions) && a.Delivering? && a.execution !in s.turns.executions
    requires a.id in s.turns.streams && a.id in s.turns.inputs && forall e :: !Hears(s, a, e)
    requires !Unborn(s.turns, s.turns.streams[a.id].native)
             || !Counts(s.journal.events, s.turns.streams[a.id].native, a.event)
    ensures Step(s, a).turns == s.turns
  {
    hide Step, Evidenced, Ignored, Counts;
    RunSteps(s, a);
    CountsUnlessIgnored(s.journal.events, s.turns.streams[a.id].native, a.event);
    var found := FindExecution(s.turns.executions, s.turns.streams[a.id].native);
    if found.Some? {
      assert !Hears(s, a, found.value);
    } else {
      forall e | e in s.turns.executions ensures s.turns.executions[e].native != s.turns.streams[a.id].native {
        assert !ExecutionOf(s.turns.executions, s.turns.streams[a.id].native, e);
      }
    }
  }

  // Dispatches

  ghost predicate Holds(s: State, i: Id)
    requires i in s.turns.inputs
  {
    forall k :: 0 <= k < |s.turns.inputs[i].request.attachments| ==>
      var a := s.turns.inputs[i].request.attachments[k];
      a in s.files.attachments && s.files.attachments[a].holder == Some(i)
  }

  /** The engine is called for the dispatched Input `i`, which was probing capabilities. */
  ghost predicate Calls(s: State, a: Action, i: Id) {
    && a.CallingEngine? && a.id == i && i in s.turns.inputs
    && i in s.turns.dispatching && s.turns.dispatching[i].Probing?
    && a.ok && s.task == TaskActive && s.session == SessionActive && s.attached && Holds(s, i)
  }

  /** `engine.run` is called exactly for a dispatch that passes its checks, with the attachments of its Input. */
  lemma CallsExactlyWhen(s: State, a: Action, i: Id)
    ensures Calls(s, a, i) ==>
      Step(s, a).history.runs == s.history.runs + [RunCall(i, s.turns.inputs[i].request.attachments)]
    ensures (forall j :: !Calls(s, a, j)) ==> Step(s, a).history.runs == s.history.runs
  {
    hide Step, AttachmentsHeld, Holds, FailDispatch;
    if a.CallingEngine? {
      DispatchSteps(s, a);
      if a.id in s.turns.inputs {
        HoldsIff(s, a.id);
      }
      RefusedRuns(s, a.id);
      assert Calls(s, a, a.id) || Step(s, a).history.runs == s.history.runs;
    } else {
      OtherRuns(s, a);
    }
  }

  lemma HoldsIff(s: State, i: Id)
    requires i in s.turns.inputs
    ensures Holds(s, i) <==> AttachmentsHeld(s.files, s.turns.inputs[i].request, i)
  {
    var wanted := s.turns.inputs[i].request.attachments;
    if Holds(s, i) {
      forall a | a in wanted ensures a in s.files.attachments && s.files.attachments[a].holder == Some(i) {
        var k :| 0 <= k < |wanted| && wanted[k] == a;
      }
    }
  }

  lemma RefusedRuns(s: State, i: Id)
    ensures FailDispatch(s, i, true).history == s.history
  {
    hide RejectInputs, DropLocators, FailCompactions;
  }

  lemma OtherRuns(s: State, a: Action)
    requires !a.CallingEngine?
    ensures Step(s, a).history.runs == s.history.runs
  {
    hide Step, Submit, Drain, MoveQueued;
    QueueSteps(s, a);
    if a.Submitting? {
      SubmitHistory(s, a.id, a.request, a.ok, a.usable);
    } else if a.Draining? {
      DrainHistory(s, a.ok, a.usable);
    } else if a.Moving? {
      MoveHistory(s, a.id, a.before, a.ok);
    } else {
      QuietHistory(s, a);
    }
  }

  lemma SubmitHistory(s: State, id: Id, request: Request, ok: bool, usable: set<Id>)
    ensures Submit(s, id, request, ok, usable).history.runs == s.history.runs
  {
    hide Decide, AllClaimable, NextPosition, Claim;
  }

  lemma MoveHistory(s: State, i: Id, before: Option<Id>, ok: bool)
    ensures MoveQueued(s, i, before, ok).history == s.history
  {
    hide InputQueue, InsertBefore, Without, MayMove, Renumber;
  }

  /** When `engine.run` returns, the dispatch is over and the run streams; an answer that nobody waits for is dropped. */
  lemma ReturnsExactly(s: State, i: Id, native: NativeId)
    ensures var t, s' := s.turns, Step(s, Returning(i, native));
      s' == if i in t.dispatching && t.dispatching[i].Calling?
            then s.(turns := t.(dispatching := t.dispatching - {i}, streams := t.streams[i := Stream(native, false)]),
                    draining := s.draining && !t.dispatching[i].promoted)
            else s
  {
    hide Step;
    DispatchSteps(s, Returning(i, native));
  }

  /** Input `i` gets a status; the other queued Inputs are rejected, or stay. */
  ghost predicate Undispatches(s: State, s': State, i: Id, status: Status, ejects: bool) {
    && s'.turns == s.turns.(inputs := s'.turns.inputs, dispatching := s.turns.dispatching - {i})
    && s'.turns.inputs.Keys == s.turns.inputs.Keys
    && forall j :: j in s.turns.inputs ==>
         s'.turns.inputs[j] == if j == i then s.turns.inputs[j].(status := status)
                               else if s.turns.inputs[j].status == Queued && ejects
                               then s.turns.inputs[j].(status := Rejected)
                               else s.turns.inputs[j]
  }

  /**
   A failed dispatch rejects the Input when it is known to be harmless, and makes it unknown otherwise. It empties the
   queue unless it is a harmless failure outside the queue, and the queued compactions with it only when an Input from
   the queue became unknown.
   */
  lemma FailedDispatch(s: State, i: Id, harmless: bool)
    requires i in s.turns.dispatching && i in s.turns.inputs
    ensures var s', promoted := Step(s, FailingDispatch(i, harmless)), s.turns.dispatching[i].promoted;
      && Undispatches(s, s', i, if harmless then Rejected else Unknown, promoted || !harmless)
      && (if promoted && !harmless then CompactionsFailed(s, s') else s'.upkeep == s.upkeep)
      && s'.draining == (s.draining && !promoted)
  {
    hide Step, DropLocators;
    DispatchSteps(s, FailingDispatch(i, harmless));
  }

  /** Before the engine is called, a dispatch that does not pass its checks is rejected, as is the queue it came from. */
  lemma RefusedDispatch(s: State, a: Action, i: Id)
    requires a.CallingEngine? && a.id == i && i in s.turns.inputs && Probes(s.turns, i)
    ensures var s', promoted := Step(s, a), s.turns.dispatching[i].promoted;
      if Calls(s, a, i)
      then s'.turns == s.turns.(dispatching := s.turns.dispatching[i := Calling(promoted)])
      else Undispatches(s, s', i, Rejected, promoted) && s'.upkeep == s.upkeep
  {
    hide Step, FailDispatch, AttachmentsHeld, Holds, Undispatches;
    DispatchSteps(s, a);
    HoldsIff(s, i);
    FailedDispatch(s, i, true);
    DispatchSteps(s, FailingDispatch(i, true));
  }

  // Reconciliations

  /** The engine knows the result of a lost Input that never got an Execution, under a native identity of its own. */
  ghost predicate Finds(s: State, a: Action, i: Id) {
    && a.ReconcilingInput? && a.id == i && a.ok && a.evidence == EngineEvidence && a.status in {Completed, Failed, Stopped}
    && i in s.turns.inputs && s.turns.inputs[i].status == Unknown && a.execution !in s.turns.executions
    && forall e :: e in s.turns.executions ==>
         s.turns.executions[e].native != a.native && s.turns.executions[e].input != i
  }

  /** Reconciling records exactly what the engine reports about lost work, and nothing about other work. */
  lemma ReconcilesExactly(s: State, a: Action)
    requires a.ReconcilingInput? || a.ReconcilingExecution?
    ensures var t, u := s.turns, Step(s, a).turns;
      && (a.ReconcilingInput? && Finds(s, a, a.id) ==>
            && u.inputs == t.inputs[a.id := t.inputs[a.id].(status := a.status, native := Some(a.native))]
            && u.executions == t.executions[a.execution := Execution(a.status, a.id, a.native, Some(EngineEvidence))])
      && (a.ReconcilingExecution? && Reconciling(s, a, a.execution) ==>
            var x := t.executions[a.execution];
            && u.inputs == t.inputs[x.input := t.inputs[x.input].(status := a.status)]
            && u.executions == t.executions[a.execution := x.(status := a.status, evidence := Some(EngineEvidence))])
      && (a.ReconcilingInput? && !Finds(s, a, a.id) ==> Step(s, a) == s)
      && (a.ReconcilingExecution? && !Reconciling(s, a, a.execution) ==> Step(s, a) == s)
  {
    hide Step, FindExecution, ConfirmStops, LeaveStopsUnconfirmed;
    RunSteps(s, a);
    if a.ReconcilingInput? {
      UnbornIff(s.turns, a.native);
    }
  }

  lemma UnbornIff(t: Turns, native: NativeId)
    ensures Unborn(t, native) <==> FindExecution(t.executions, native).None?
  {
    if FindExecution(t.executions, native).None? {
      forall e | e in t.executions ensures t.executions[e].native != native {
        assert !ExecutionOf(t.executions, native, e);
      }
    }
  }
}
