/** No run is lost silently: whatever is dispatched is being dispatched or streaming, and losing a stream is recorded. */
module SessionTracking {
  import opened Wrappers
  import opened SessionState
  import opened SessionSteps
  import opened SessionQuiet
  import opened SessionRecovery
  import opened SessionResults
  import opened SessionTurns
  import opened SessionFiles
  import opened SessionExclusion
  import opened SessionRuns

  /**
   A received, accepted or started Input is being dispatched or its run is streaming; a run that saw its terminal event
   has a settled Execution and a settled Input.
   */
  ghost predicate Tracked(t: Turns) {
    && (forall i :: i in t.inputs && Dispatched(t.inputs[i].status) ==> i in t.dispatching || i in t.streams)
    && (forall i :: i in t.dispatching ==> i in t.inputs && t.inputs[i].status.Received? && i !in t.streams)
    && (forall i :: i in t.streams ==> Streams(t, i))
  }

  ghost predicate Streams(t: Turns, i: Id) {
    && i in t.streams && i in t.inputs && !t.inputs[i].status.Queued?
    && (t.streams[i].gotTerminal ==> Terminal(t.inputs[i].status) && HasSettled(t.executions, t.streams[i].native))
  }

  // A stream ends

  /** The run of `i` is lost with its stream. */
  predicate Loses(t: Turns, i: Id, failed: bool) {
    && i in t.streams && i in t.inputs
    && (failed || (!t.streams[i].gotTerminal && t.inputs[i].status in {Queued, Received, Accepted, Started, Unknown}))
  }

  predicate Over(status: Status) {
    status in {Completed, Failed, Stopped, Rejected, Cancelled}
  }

  /** An unsettled Input of the lost run becomes unknown; every other queued Input is rejected. */
  ghost predicate InputsLost(before: map<Id, Input>, after: map<Id, Input>, i: Id) {
    && after.Keys == before.Keys
    && forall j :: j in before ==>
         after[j] == if j == i && !Over(before[j].status) then before[j].(status := Unknown)
                     else if before[j].status == Queued then before[j].(status := Rejected)
                     else before[j]
  }

  /** An open Execution of the lost run becomes unknown. */
  ghost predicate ExecutionsLost(before: map<Id, Execution>, after: map<Id, Execution>, native: NativeId) {
    && after.Keys == before.Keys
    && forall e :: e in before ==>
         after[e] == if before[e].native == native && before[e].status !in {Completed, Failed, Stopped}
                     then before[e].(status := Unknown) else before[e]
  }

  lemma LosesInputs(t: Turns, i: Id, native: NativeId)
    requires i in t.inputs
    ensures var u := SetUnknown(t, i, native);
      InputsLost(t.inputs, RejectInputs(u.inputs), i) && u.streams == t.streams && u.dispatching == t.dispatching
  {
    hide FindExecution;
  }

  lemma LosesExecutions(t: Turns, i: Id, native: NativeId)
    requires Evidenced(t.executions) && i in t.inputs
    ensures ExecutionsLost(t.executions, SetUnknown(t, i, native).executions, native)
  {
    match FindExecution(t.executions, native)
    case None =>
      forall e | e in t.executions ensures t.executions[e].native != native {
        assert !ExecutionOf(t.executions, native, e);
      }
    case Some(x) =>
      forall e | e in t.executions && t.executions[e].native == native ensures e == x {
        assert t.executions[e].native == t.executions[x].native;
      }
  }

  /** What the end of a stream does, in every case. */
  lemma StreamEndsExactly(s: State, i: Id, failed: bool)
    requires Evidenced(s.turns.executions) && i in s.turns.streams && i in s.turns.inputs
    ensures var t, u := s.turns, Step(s, EndingStream(i, failed)).turns;
      && u.streams == t.streams - {i} && u.dispatching == t.dispatching
      && if Loses(t, i, failed)
         then InputsLost(t.inputs, u.inputs, i) && ExecutionsLost(t.executions, u.executions, t.streams[i].native)
         else u.inputs == t.inputs && u.executions == t.executions
  {
    hide Step, Evidenced, InputsLost, ExecutionsLost, SetUnknown, RejectInputs, DropLocators;
    RunSteps(s, EndingStream(i, failed));
    LosesInputs(s.turns.(streams := s.turns.streams - {i}), i, s.turns.streams[i].native);
    LosesExecutions(s.turns.(streams := s.turns.streams - {i}), i, s.turns.streams[i].native);
  }

  // Every step keeps track

  lemma SettledStays(t: Turns, executions: map<Id, Execution>)
    requires Finished(t.executions, executions)
    ensures forall native :: HasSettled(t.executions, native) ==> HasSettled(executions, native)
  {
    forall native | HasSettled(t.executions, native) ensures HasSettled(executions, native) {
      var e :| e in t.executions && t.executions[e].native == native && Terminal(t.executions[e].status);
      assert executions[e] == t.executions[e];
    }
  }

  /** Inputs were only settled, lost, or left the queue; nothing else changed but that Executions moved on. */
  lemma WindsDown(t: Turns, u: Turns)
    requires Tracked(t) && u.dispatching == t.dispatching && u.streams == t.streams && u.inputs.Keys == t.inputs.Keys
    requires Finished(t.executions, u.executions)
    requires forall i :: i in t.inputs ==>
      || u.inputs[i].status == t.inputs[i].status
      || (t.inputs[i].status.Queued? && Over(u.inputs[i].status))
      || (t.inputs[i].status.Unknown? && Terminal(u.inputs[i].status))
      || (i in t.streams && !Over(t.inputs[i].status) && !u.inputs[i].status.Queued?)
    ensures Tracked(u)
  {
    hide Finished, HasSettled;
    SettledStays(t, u.executions);
  }

  /** Losing track of a run that streams no more. */
  lemma LosingTracks(t: Turns, u: Turns, i: Id, failed: bool)
    requires Tracked(t) && Loses(t, i, failed) && u.dispatching == t.dispatching && u.streams == t.streams - {i}
    requires InputsLost(t.inputs, u.inputs, i) && Finished(t.executions, u.executions)
    ensures Tracked(u)
  {
    hide Finished, HasSettled;
    SettledStays(t, u.executions);
  }

  lemma ForgettingTracks(t: Turns, i: Id)
    requires Tracked(t) && i in t.streams && !Loses(t, i, false)
    ensures Tracked(t.(streams := t.streams - {i}))
  {
  }

  lemma EndStreamTracks(s: State, i: Id, failed: bool)
    requires Tracked(s.turns) && Evidenced(s.turns.executions)
    ensures Tracked(EndStream(s, i, failed).turns)
  {
    hide Tracked, Evidenced, EndStream, Step, InputsLost, ExecutionsLost, Finished;
    if i in s.turns.streams && i in s.turns.inputs {
      RunSteps(s, EndingStream(i, failed));
      StreamEndsExactly(s, i, failed);
      EndStreamMovesOn(s, i, failed);
      var u := EndStream(s, i, failed).turns;
      if Loses(s.turns, i, failed) {
        LosingTracks(s.turns, u, i, failed);
      } else {
        ForgettingTracks(s.turns, i);
        assert u == s.turns.(streams := s.turns.streams - {i});
      }
    } else {
      assert EndStream(s, i, failed) == s by { NoStream(s, i, failed); }
    }
  }

  lemma NoStream(s: State, i: Id, failed: bool)
    requires i !in s.turns.streams || i !in s.turns.inputs
    ensures EndStream(s, i, failed) == s
  {
  }

  /** After its terminal event a run changes nothing any more. */
  lemma AfterTerminal(t: Turns, i: Id, payload: Payload, e: Id)
    requires Tracked(t) && Evidenced(t.executions) && i in t.streams && i in t.inputs && t.streams[i].gotTerminal
    ensures TurnsAfter(t, i, t.streams[i].native, payload, e) == t
  {
    assert Streams(t, i);
    var x :| x in t.executions && t.executions[x].native == t.streams[i].native && Terminal(t.executions[x].status);
    assert ExecutionOf(t.executions, t.streams[i].native, x);
  }

  lemma TurnsAfterTracks(t: Turns, i: Id, payload: Payload, e: Id)
    requires Tracked(t) && Evidenced(t.executions) && i in t.streams && i in t.inputs && e !in t.executions
    ensures Tracked(TurnsAfter(t, i, t.streams[i].native, payload, e))
  {
    if t.streams[i].gotTerminal {
      AfterTerminal(t, i, payload, e);
    } else {
      hide Finished, HasSettled, FindExecution;
      TurnsAfterMovesOn(t, i, t.streams[i].native, payload, e);
      SettledStays(t, TurnsAfter(t, i, t.streams[i].native, payload, e).executions);
    }
  }

  lemma TerminalTracks(t: Turns, i: Id, payload: Payload, e: Id)
    requires Tracked(t) && Evidenced(t.executions) && i in t.streams && i in t.inputs && e !in t.executions
    requires Settles(t, t.streams[i].native, payload)
    ensures var u := TurnsAfter(t, i, t.streams[i].native, payload, e); u.streams == t.streams && Tracked(MarkTerminal(u, i))
  {
    TurnsAfterTracks(t, i, payload, e);
    var u := TurnsAfter(t, i, t.streams[i].native, payload, e);
    var x := FindExecution(t.executions, t.streams[i].native).value;
    assert u.executions[x].native == t.streams[i].native && Terminal(u.executions[x].status);
    assert !t.streams[i].gotTerminal by {
      if t.streams[i].gotTerminal { AfterTerminal(t, i, payload, e); }
    }
  }

  lemma DeliverTracks(s: State, i: Id, event: Event, e: Id)
    requires Tracked(s.turns) && Evidenced(s.turns.executions)
    ensures Tracked(Deliver(s, i, event, e).turns)
  {
    hide Tracked, Evidenced, EndStream, TurnsAfter, Settles, MarkTerminal, Ignored, LateAnswer, InteractionsAfter,
      StopsAfter, FindExecution;
    EndStreamTracks(s, i, true);
    if i in s.turns.streams && i in s.turns.inputs && e !in s.turns.executions {
      TurnsAfterTracks(s.turns, i, event.payload, e);
      if Settles(s.turns, s.turns.streams[i].native, event.payload) {
        TerminalTracks(s.turns, i, event.payload, e);
      }
    }
  }

  lemma ReconcilingTracks(s: State, a: Action)
    requires Tracked(s.turns) && (a.ReconcilingInput? || a.ReconcilingExecution?)
    ensures Tracked(Step(s, a).turns)
  {
    hide Step, Tracked, Finished, FindExecution, ConfirmStops, LeaveStopsUnconfirmed;
    RunSteps(s, a);
    StepMovesOn(s, a);
    WindsDown(s.turns, Step(s, a).turns);
  }

  lemma RejectTracks(t: Turns)
    requires Tracked(t)
    ensures Tracked(t.(inputs := RejectInputs(t.inputs)))
  {
    hide HasSettled;
  }

  lemma UndispatchedTracks(t: Turns, i: Id, status: Status)
    requires Tracked(t) && i in t.dispatching && i in t.inputs && status in {Rejected, Unknown}
    ensures Tracked(Undispatched(t, i, status))
  {
    hide HasSettled;
  }

  lemma FailDispatchTracks(s: State, i: Id, harmless: bool)
    requires Tracked(s.turns)
    ensures Tracked(FailDispatch(s, i, harmless).turns)
  {
    hide Tracked, Undispatched, RejectInputs, DropLocators, FailCompactions;
    if i in s.turns.dispatching && i in s.turns.inputs {
      var status := if harmless then Rejected else Unknown;
      UndispatchedTracks(s.turns, i, status);
      RejectTracks(Undispatched(s.turns, i, status));
    }
  }

  lemma OpenTracks(t: Turns, i: Id, native: NativeId)
    requires Tracked(t) && i in t.dispatching
    ensures Tracked(OpenStream(t, i, native)) && Tracked(t.(dispatching := t.dispatching[i := Calling(true)]))
      && Tracked(t.(dispatching := t.dispatching[i := Calling(false)]))
  {
    hide HasSettled;
  }

  lemma DispatchTracks(s: State, a: Action)
    requires Tracked(s.turns) && (a.CallingEngine? || a.FailingDispatch? || a.Returning?)
    ensures Tracked(Step(s, a).turns)
  {
    hide Step, Tracked, FailDispatch, OpenStream, AttachmentsHeld;
    DispatchSteps(s, a);
    if a.FailingDispatch? {
      FailDispatchTracks(s, a.id, a.harmless);
    } else {
      FailDispatchTracks(s, a.id, true);
      if a.id in s.turns.dispatching {
        OpenTracks(s.turns, a.id, if a.Returning? then a.native else 0);
      }
    }
  }

  lemma NewInputTracks(t: Turns, id: Id, input: Input)
    requires Tracked(t) && id !in t.inputs
    ensures !Dispatched(input.status) ==> Tracked(t.(inputs := t.inputs[id := input]))
    ensures input.status.Received? ==>
      Tracked(t.(inputs := t.inputs[id := input], dispatching := t.dispatching[id := Probing(false)]))
  {
    hide HasSettled;
  }

  lemma SubmitTracks(s: State, id: Id, request: Request, ok: bool, usable: set<Id>)
    requires Tracked(s.turns)
    ensures Tracked(Submit(s, id, request, ok, usable).turns)
  {
    hide Tracked, Submit, NextPosition, Claim, AllClaimable;
    SubmitCases(s, id, request, ok, usable);
    if id !in s.turns.inputs {
      NewInputTracks(s.turns, id, Input(Queued, request, Some(NextPosition(s)), None));
      NewInputTracks(s.turns, id, Input(Received, request, None, None));
      NewInputTracks(s.turns, id, Input(Rejected, request, None, None));
    }
  }

  lemma DrainTracks(s: State, ok: bool, usable: set<Id>)
    requires Tracked(s.turns)
    ensures Tracked(Drain(s, ok, usable).turns)
  {
    hide Drain, Take, HasSettled;
    DrainCases(s, ok, usable);
  }

  lemma QueueingTracks(s: State, a: Action)
    requires Tracked(s.turns) && (a.Moving? || a.Cancelling? || a.Withdrawing? || a.Freezing? || a.Closing?)
    ensures Tracked(Step(s, a).turns)
  {
    hide Step, Tracked, Finished, InputQueue, InsertBefore, Without, AllTakeable, Release, DropLocators, MayMove;
    QueueSteps(s, a);
    LifeSteps(s, a);
    StepMovesOn(s, a);
    WindsDown(s.turns, Step(s, a).turns);
  }

  lemma RestartTracks(s: State)
    requires Tracked(s.turns) && DownUntilRestored(s)
    ensures Tracked(Restart(s).turns)
  {
    hide Waiting, RecoverUpkeep, LoseCalls;
  }

  /** Every step keeps track of the runs, whatever the engine answers. */
  lemma StepTracks(s: State, a: Action)
    requires Tracked(s.turns) && Evidenced(s.turns.executions) && DownUntilRestored(s)
    ensures Tracked(Step(s, a).turns)
  {
    hide Step, Tracked, Evidenced, DownUntilRestored, Submit, Drain, Restart, Deliver, EndStream;
    if !TurnAction(a) {
      OtherActionTurns(s, a);
    } else if a.Delivering? || a.EndingStream? {
      RunSteps(s, a);
      if a.Delivering? {
        DeliverTracks(s, a.id, a.event, a.execution);
      } else {
        EndStreamTracks(s, a.id, a.failed);
      }
    } else if a.ReconcilingInput? || a.ReconcilingExecution? {
      ReconcilingTracks(s, a);
    } else if RunAction(a) {
      DispatchTracks(s, a);
    } else if a.Submitting? || a.Draining? {
      QueueSteps(s, a);
      if a.Submitting? {
        SubmitTracks(s, a.id, a.request, a.ok, a.usable);
      } else {
        DrainTracks(s, a.ok, a.usable);
      }
    } else if a.Restarting? {
      LifeSteps(s, a);
      RestartTracks(s);
    } else {
      QueueingTracks(s, a);
    }
  }

  lemma {:induction false} RunTracks(actions: seq<Action>)
    ensures Tracked(Run(Fresh, actions).turns) && Evidenced(Run(Fresh, actions).turns.executions)
    decreases |actions|
  {
    if actions != [] {
      hide Tracked, Evidenced, DownUntilRestored, Step, Finished;
      var s := Run(Fresh, actions[..|actions| - 1]);
      RunTracks(actions[..|actions| - 1]);
      RunStaysDown(actions[..|actions| - 1]);
      StepTracks(s, actions[|actions| - 1]);
      StepMovesOn(s, actions[|actions| - 1]);
    }
  }

  /** In every reachable state a received, accepted or started Input is being dispatched or streams. */
  lemma {:induction false} NoRunLost(actions: seq<Action>, i: Id)
    ensures var t := Run(Fresh, actions).turns;
      i in t.inputs && t.inputs[i].status in {Received, Accepted, Started} ==> i in t.dispatching || i in t.streams
  {
    RunTracks(actions);
  }

  /** When a stream ends in a reachable state, no run goes on unseen: its Input is settled or unknown. */
  lemma {:induction false} EndedRunsAreKnown(actions: seq<Action>, i: Id, failed: bool)
    ensures var t, u := Run(Fresh, actions).turns, Run(Fresh, actions + [EndingStream(i, failed)]).turns;
      i in t.streams ==> i in u.inputs && i !in u.streams && (Over(u.inputs[i].status) || u.inputs[i].status == Unknown)
  {
    hide Step;
    RunTracks(actions);
    var s := Run(Fresh, actions);
    assert (actions + [EndingStream(i, failed)])[..|actions|] == actions;
    if i in s.turns.streams {
      assert Streams(s.turns, i);
      StreamEndsExactly(s, i, failed);
    }
  }

  /** In honest runs the Executions of the Input whose stream ended show what is known of it. */
  lemma {:induction false} EndedExecutionsAreKnown(actions: seq<Action>, i: Id, failed: bool, e: Id)
    requires HonestRun(Fresh, actions + [EndingStream(i, failed)])
    ensures var t, u := Run(Fresh, actions).turns, Run(Fresh, actions + [EndingStream(i, failed)]).turns;
      i in t.streams && e in u.executions && u.executions[e].input == i ==>
        && i in u.inputs && u.executions[e].status == u.inputs[i].status
        && (Over(u.executions[e].status) || u.executions[e].status == Unknown)
  {
    EndedRunsAreKnown(actions, i, failed);
    hide Run, Sound, RewindUndriven;
    FreshSafe();
    RunSafe(Fresh, actions + [EndingStream(i, failed)]);
    var u := Run(Fresh, actions + [EndingStream(i, failed)]).turns;
    if e in u.executions {
      assert Settled(u.inputs, u.executions[e]);
    }
  }
}
