/** Where the guarantees end: runs of the code that break them, and the exact conditions that rule those runs out. */
module SessionLimits {
  import opened Wrappers
  import opened SessionState
  import opened SessionSteps
  import opened SessionTurns

  lemma RunMore(s: State, actions: seq<Action>, a: Action)
    ensures Run(s, actions + [a]) == Step(Run(s, actions), a)
  {
    assert (actions + [a])[..|actions|] == actions;
  }

  // Reconciling an Input under a foreign native identity

  /** Longer than the identity of every stored event. */
  function FreshId(rows: seq<EventRow>): (id: string)
    ensures forall k :: 0 <= k < |rows| ==> |rows[k].id| < |id|
  {
    if rows == [] then "x"
    else
      var id := FreshId(rows[..|rows| - 1]);
      var last := rows[|rows| - 1].id;
      if |last| < |id| then id else last + "x"
  }

  lemma SomeMember<T>(keys: set<T>) returns (k: T)
    requires keys != {}
    ensures k in keys
  {
    k :| k in keys;
  }

  lemma {:induction false} FreshKey(keys: set<Id>) returns (e: Id)
    ensures forall k :: k in keys ==> k < e
    decreases keys
  {
    if keys == {} {
      return 0;
    }
    var k := SomeMember(keys);
    var rest := keys - {k};
    var n := FreshKey(rest);
    e := if k < n then n else k + 1;
    forall j | j in keys ensures j < e {
      assert j == k || j in rest;
    }
  }

  /** An event that was not delivered yet, by which the engine accepts the Input of a run. */
  function LateAcceptance(rows: seq<EventRow>): Event {
    Event(FreshId(rows), "late", None, EngineEvidence, true, InputAccepted(EngineEvidence))
  }

  lemma LateAcceptanceCounts(rows: seq<EventRow>, native: NativeId)
    ensures !Ignored(rows, native, LateAcceptance(rows))
  {
  }

  /** While its run is streaming, an Input whose run has no stored Execution can still be accepted, whatever its status. */
  lemma AcceptsLate(s: State, i: Id, e: Id)
    requires i in s.turns.streams && i in s.turns.inputs && e !in s.turns.executions
    requires FindExecution(s.turns.executions, s.turns.streams[i].native).None?
    ensures Deliver(s, i, LateAcceptance(s.journal.events), e).turns.inputs[i].status == Accepted
  {
    hide Ignored, FindExecution;
    LateAcceptanceCounts(s.journal.events, s.turns.streams[i].native);
  }

  /** No event of the run, and no other end of it, changes the result of an Input while its run has a settled Execution. */
  lemma ResultStays(s: State, i: Id, event: Event, e: Id)
    requires i in s.turns.inputs && Terminal(s.turns.inputs[i].status)
    requires i in s.turns.streams ==>
      var found := FindExecution(s.turns.executions, s.turns.streams[i].native);
      found.Some? && Terminal(s.turns.executions[found.value].status)
    ensures var after := Deliver(s, i, event, e).turns.inputs;
      i in after && after[i].status == s.turns.inputs[i].status
  {
    hide Ignored, LateAnswer, InteractionsAfter, StopsAfter, DropLocators;
  }

  /** The Input has the status after every event of its run, whatever it says. */
  ghost predicate StaysSettled(s: State, i: Id, status: Status) {
    forall event, e :: i in Deliver(s, i, event, e).turns.inputs && Deliver(s, i, event, e).turns.inputs[i].status == status
  }

  /**
   The result that a reconciliation stores for an Input is final exactly when the reconciliation is honest: the engine
   names the run that is still streaming, or an Execution of that run is stored. Otherwise a late acceptance revives the
   Input. Under the same condition one driver and everything else that InTurn says is kept.
   */
  lemma ResultStaysExactlyWhen(
      s: State, i: Id, e: Id, native: NativeId, status: Status, evidence: Evidence, ok: bool)
    requires InTurn(s.turns) && ReconcileInput(s, i, e, native, status, evidence, ok) != s
    ensures var a, after := ReconcilingInput(i, e, native, status, evidence, ok),
                            ReconcileInput(s, i, e, native, status, evidence, ok);
      && (StaysSettled(after, i, status) <==> Honest(s, a))
      && (InTurn(after.turns) <==> Honest(s, a))
  {
    var a, after := ReconcilingInput(i, e, native, status, evidence, ok),
                    ReconcileInput(s, i, e, native, status, evidence, ok);
    hide ReconcileInput, Deliver, InTurn, StaysSettled;
    ReconciledRecords(s, i, e, native, status, evidence, ok);
    if Honest(s, a) {
      ReconcileInputKeeps(s, i, e, native, status, evidence, ok);
      HonestResultStays(s, after, i, status);
    } else {
      DishonestResultChanges(s, after, i, e, native, status);
    }
  }

  lemma ReconciledRecords(s: State, i: Id, e: Id, native: NativeId, status: Status, evidence: Evidence, ok: bool)
    requires ReconcileInput(s, i, e, native, status, evidence, ok) != s
    ensures var u := ReconcileInput(s, i, e, native, status, evidence, ok).turns;
      && i in s.turns.inputs && s.turns.inputs[i].status.Unknown? && e !in s.turns.executions && Terminal(status)
      && u.executions == s.turns.executions[e := Execution(status, i, native, Some(EngineEvidence))]
      && u.streams == s.turns.streams && i in u.inputs && u.inputs[i].status == status
      && FindExecution(s.turns.executions, native).None?
  {
    hide FindExecution;
  }

  lemma HonestResultStays(s: State, after: State, i: Id, status: Status)
    requires InTurn(after.turns) && i in after.turns.inputs && after.turns.inputs[i].status == status && Terminal(status)
    ensures StaysSettled(after, i, status)
  {
    hide Deliver;
    if i in after.turns.streams {
      assert StreamAgrees(after.turns.inputs, after.turns.executions, i, after.turns.streams[i]);
      var x := SettledExecution(after.turns, after.turns.streams[i].native);
      assert ExecutionOf(after.turns.executions, after.turns.streams[i].native, x);
      RunFindsOwn(after.turns, i, FindExecution(after.turns.executions, after.turns.streams[i].native).value);
    }
    hide InTurn, FindExecution;
    forall event, d
      ensures i in Deliver(after, i, event, d).turns.inputs && Deliver(after, i, event, d).turns.inputs[i].status == status {
      ResultStays(after, i, event, d);
    }
  }

  lemma DishonestResultChanges(s: State, after: State, i: Id, e: Id, native: NativeId, status: Status)
    requires i in s.turns.streams && native != s.turns.streams[i].native && Terminal(status)
    requires FindExecution(s.turns.executions, s.turns.streams[i].native).None?
    requires after.turns.executions == s.turns.executions[e := Execution(status, i, native, Some(EngineEvidence))]
    requires after.turns.streams == s.turns.streams && i in after.turns.inputs && after.turns.inputs[i].status == status
    ensures !StaysSettled(after, i, status) && !InTurn(after.turns)
  {
    var t := after.turns;
    forall f ensures !ExecutionOf(t.executions, t.streams[i].native, f) {
      assert !ExecutionOf(s.turns.executions, t.streams[i].native, f);
    }
    var d := FreshKey(t.executions.Keys);
    AcceptsLate(after, i, d);
    hide Deliver;
    if InTurn(t) {
      UnsettledDrives(t, i, t.streams[i].native);
    }
  }

  const Plain := Request(None, "", StartNow, "", [])

  function StartedEvent(): Event {
    Event("started", "stream", Some(1), EngineEvidence, true, ExecutionStarted(EngineEvidence))
  }

  function AcceptedEvent(): Event {
    Event("accepted", "stream", Some(2), EngineEvidence, true, InputAccepted(EngineEvidence))
  }

  predicate At(s: State, turns: Turns, rows: seq<EventRow>) {
    && Active(s) && s.attached && s.upkeep == Fresh.upkeep && s.stops == Fresh.stops
    && s.turns == turns && s.journal.events == rows
  }

  lemma Starts(s: State, t: Turns, rows: seq<EventRow>, i: Id)
    requires At(s, t, rows) && i !in t.inputs && !HasInput(t, Queued) && !HasDriving(t)
    ensures At(Step(s, Submitting(i, Plain, true, {})),
               t.(inputs := t.inputs[i := Input(Received, Plain, None, None)],
                  dispatching := t.dispatching[i := Probing(false)]), rows)
  {
    assert Idle(s) && !HasDispatched(s.turns);
    hide Claim;
    assert Submit(s, i, Plain, true, {}) == StartInput(s, i, Plain);
  }

  lemma Calls(s: State, t: Turns, rows: seq<EventRow>, i: Id, native: NativeId)
    requires At(s, t, rows) && i in t.inputs && t.inputs[i].request == Plain
    requires i in t.dispatching && t.dispatching[i] == Probing(false)
    ensures At(Step(Step(s, CallingEngine(i, true)), Returning(i, native)), OpenStream(t, i, native), rows)
  {
    hide FailDispatch;
    assert t.dispatching[i := Calling(false)] - {i} == t.dispatching - {i};
  }

  lemma Receives(s: State, t: Turns, rows: seq<EventRow>, i: Id, event: Event, e: Id)
    requires At(s, t, rows) && i in t.streams && i in t.inputs && e !in t.executions
    requires !Ignored(rows, t.streams[i].native, event) && FindExecution(t.executions, t.streams[i].native).None?
    ensures At(Step(s, Delivering(i, event, e)), TurnsAfter(t, i, t.streams[i].native, event.payload, e),
               rows + [RowOf(t.streams[i].native, event)])
  {
    hide Ignored, TurnsAfter, FindExecution;
  }

  function Entry(status: Status, native: Option<NativeId>): Input {
    Input(status, Plain, None, native)
  }

  /** Input 1 is running as native Execution 7, and the runtime lost track of it: it started before it was accepted. */
  lemma LosesTrack() returns (actions: seq<Action>)
    ensures At(Run(Fresh, actions), Turns(map[1 := Entry(Unknown, None)], map[], map[], map[1 := Stream(7, false)]),
               [RowOf(7, StartedEvent())])
  {
    var first := [Submitting(1, Plain, true, {}), CallingEngine(1, true), Returning(1, 7)];
    actions := first + [Delivering(1, StartedEvent(), 10)];
    var t := Turns(map[1 := Entry(Received, None)], map[], map[1 := Probing(false)], map[]);
    Starts(Fresh, Fresh.turns, [], 1);
    Calls(Step(Fresh, first[0]), t, [], 1, 7);
    RunThree(Fresh, first[0], first[1], first[2]);
    var u := Turns(map[1 := Entry(Received, None)], map[], map[], map[1 := Stream(7, false)]);
    assert OpenStream(t, 1, 7) == u;
    Receives(Run(Fresh, first), u, [], 1, StartedEvent(), 10);
    RunMore(Fresh, first, actions[3]);
  }

  lemma RunThree(s: State, a: Action, b: Action, c: Action)
    ensures Run(s, [a, b, c]) == Step(Step(Step(s, a), b), c)
  {
    RunMore(s, [], a);
    RunMore(s, [a], b);
    RunMore(s, [a, b], c);
    assert [] + [a] == [a] && [a] + [b] == [a, b] && [a, b] + [c] == [a, b, c];
  }

  lemma Reconciles(s: State, t: Turns, rows: seq<EventRow>, i: Id, e: Id, native: NativeId)
    requires At(s, t, rows) && i in t.inputs && t.inputs[i].status.Unknown? && t.executions == map[]
    ensures At(Step(s, ReconcilingInput(i, e, native, Completed, EngineEvidence, true)),
               t.(executions := map[e := Execution(Completed, i, native, Some(EngineEvidence))],
                  inputs := t.inputs[i := t.inputs[i].(status := Completed, native := Some(native))]), rows)
  {
  }

  /**
   The engine reconciles Input 1 under the foreign identity 8, Input 2 starts, and the late acceptance event of the
   first run makes Input 1 drive again beside it.
   */
  lemma ForeignReconciliation()
    ensures exists actions :: !OneDriver(Run(Fresh, actions).turns.inputs)
  {
    hide Step, Run;
    var actions := LosesTrack();
    var s := Run(Fresh, actions);
    var rows := [RowOf(7, StartedEvent())];
    var a, b := ReconcilingInput(1, 20, 8, Completed, EngineEvidence, true), Submitting(2, Plain, true, {});
    var x := Execution(Completed, 1, 8, Some(EngineEvidence));
    var t := Turns(map[1 := Entry(Completed, Some(8))], map[20 := x], map[], map[1 := Stream(7, false)]);
    Reconciles(s, s.turns, rows, 1, 20, 8);
    assert At(Step(s, a), t, rows);
    Starts(Step(s, a), t, rows, 2);
    var u := t.(inputs := t.inputs[2 := Entry(Received, None)], dispatching := map[2 := Probing(false)]);
    Accepts(Step(Step(s, a), b), u, rows);
    RunMore(Fresh, actions, a);
    RunMore(Fresh, actions + [a], b);
    RunMore(Fresh, actions + [a] + [b], Delivering(1, AcceptedEvent(), 11));
  }

  lemma Accepts(s: State, t: Turns, rows: seq<EventRow>)
    requires At(s, t, rows) && 1 in t.inputs && 1 in t.streams && t.streams[1].native == 7 && 11 !in t.executions
    requires rows == [RowOf(7, StartedEvent())] && forall e :: !ExecutionOf(t.executions, 7, e)
    requires 2 in t.inputs && t.inputs[2].status.Received?
    ensures !OneDriver(Step(s, Delivering(1, AcceptedEvent(), 11)).turns.inputs)
  {
    Receives(s, t, rows, 1, AcceptedEvent(), 11);
    hide Step;
    var inputs := Step(s, Delivering(1, AcceptedEvent(), 11)).turns.inputs;
    assert inputs[1].status == Accepted && inputs[2].status == Received;
  }

  // A second stop request during the capability probe

  function AckEvent(): Event {
    Event("ack", "stream", Some(3), EngineEvidence, true, InterruptionRequested(AckRequested, Some(EngineEvidence)))
  }

  /** Execution 10 is open, the run of Input 1 with native identity 7 is streaming, no stop was requested. */
  predicate Running(s: State) {
    && s.attached && s.stops == Fresh.stops && |s.journal.events| == 1 && s.journal.events[0].id != AckEvent().id
    && s.journal.events[0].sequence == Some(2) && s.turns.executions == map[10 := Execution(Accepted, 1, 7, None)]
    && 1 in s.turns.inputs && 1 in s.turns.streams && s.turns.streams[1] == Stream(7, false)
  }

  lemma Runs() returns (actions: seq<Action>)
    ensures Running(Run(Fresh, actions))
  {
    var first := [Submitting(1, Plain, true, {}), CallingEngine(1, true), Returning(1, 7)];
    actions := first + [Delivering(1, AcceptedEvent(), 10)];
    var t := Turns(map[1 := Entry(Received, None)], map[], map[1 := Probing(false)], map[]);
    Starts(Fresh, Fresh.turns, [], 1);
    Calls(Step(Fresh, first[0]), t, [], 1, 7);
    RunThree(Fresh, first[0], first[1], first[2]);
    var u := Turns(map[1 := Entry(Received, None)], map[], map[], map[1 := Stream(7, false)]);
    assert OpenStream(t, 1, 7) == u;
    Receives(Run(Fresh, first), u, [], 1, AcceptedEvent(), 10);
    RunMore(Fresh, first, actions[3]);
  }

  predicate Open(s: State) {
    s.attached && OpenExecution(s.turns, 10)
  }

  lemma Probes(s: State, requests: seq<Stop>)
    requires Open(s) && s.stops == Stops(requests, map[]) && !HasUnresolvedStop(requests, 10)
    ensures Step(s, BeginningStop(10, true)) == s.(stops := Stops(requests, map[10 := StopProbing]))
  {
  }

  lemma Sends(s: State, requests: seq<Stop>)
    requires Open(s) && s.stops == Stops(requests, map[10 := StopProbing])
    ensures Step(s, RecordingStop(10, true))
            == s.(stops := Stops(requests + [Stop(10, StopRequested, Pending, None, None)],
                                 map[10 := StopCalling(|requests|)]))
  {
  }

  const Unsent := Stop(10, StopUnavailable, NotDelivered, None, None)

  /** Sending a stop request that turns out to be unavailable leaves one resolved request. */
  lemma FirstStop(s: State)
    requires Running(s)
    ensures var s' := Step(Step(Step(s, BeginningStop(10, true)), RecordingStop(10, true)),
                           ReceivingStop(10, ReceiptUnavailable, None));
      s' == s.(stops := Stops([Unsent], map[]))
  {
    Probes(s, []);
    Sends(s.(stops := Stops([], map[10 := StopProbing])), []);
    assert map[10 := StopCalling(0)] - {10} == map[];
  }

  /** A late acknowledgement makes the request unresolved again. */
  lemma Revives(s: State)
    requires Running(s.(stops := Fresh.stops)) && s.stops == Stops([Unsent], map[10 := StopProbing])
    ensures var s' := Step(s, Delivering(1, AckEvent(), 12));
      && Open(s') && s'.stops == Stops([Stop(10, StopRequested, Delivered, Some(EngineEvidence), None)],
                                       map[10 := StopProbing])
  {
    FindsOnly(s.turns.executions);
    NewEvent(s.journal.events);
    assert LatestStop([Unsent], 10) == 0;
    hide Ignored, LatestStop;
  }

  lemma SecondStop(s: State)
    requires Running(s.(stops := Fresh.stops)) && s.stops == Stops([Unsent], map[])
    ensures var stops := Step(Step(Step(s, BeginningStop(10, true)), Delivering(1, AckEvent(), 12)),
                              RecordingStop(10, true)).stops.requests;
      |stops| == 2 && UnresolvedOf(stops[0], 10) && UnresolvedOf(stops[1], 10)
  {
    hide Step;
    Probes(s, [Unsent]);
    var s1 := s.(stops := Stops([Unsent], map[10 := StopProbing]));
    Revives(s1);
    Sends(Step(s1, Delivering(1, AckEvent(), 12)), [Stop(10, StopRequested, Delivered, Some(EngineEvidence), None)]);
  }

  lemma FindsOnly(executions: map<Id, Execution>)
    requires executions == map[10 := Execution(Accepted, 1, 7, None)]
    ensures FindExecution(executions, 7) == Some(10)
  {
    assert ExecutionOf(executions, 7, 10);
  }

  lemma NewEvent(rows: seq<EventRow>)
    requires |rows| == 1 && rows[0].id != AckEvent().id && rows[0].sequence == Some(2)
    ensures !Ignored(rows, 7, AckEvent())
  {
  }

  /** The source means an Execution to have one unresolved stop request at most; this run gives it two. */
  lemma TwoUnresolvedStops()
    ensures exists actions ::
      var stops := Run(Fresh, actions).stops.requests;
      |stops| == 2 && UnresolvedOf(stops[0], 10) && UnresolvedOf(stops[1], 10)
  {
    hide Step, Run;
    var actions := Runs();
    var s := Run(Fresh, actions);
    var a, b, c := BeginningStop(10, true), RecordingStop(10, true), ReceivingStop(10, ReceiptUnavailable, None);
    var s' := Step(Step(Step(s, a), b), c);
    FirstStop(s);
    SecondStop(s');
    var d := Delivering(1, AckEvent(), 12);
    RunMore(Fresh, actions, a);
    RunMore(Fresh, actions + [a], b);
    RunMore(Fresh, actions + [a] + [b], c);
    RunMore(Fresh, actions + [a] + [b] + [c], a);
    RunMore(Fresh, actions + [a] + [b] + [c] + [a], d);
    RunMore(Fresh, actions + [a] + [b] + [c] + [a] + [d], b);
  }
}
