/** Which events count, and for which Execution; what an event does to the records beside its Execution. */
module SessionReports {
  import opened Wrappers
  import opened SessionState
  import opened SessionSteps
  import opened SessionResults

  /** The row has the event's place in its source stream. */
  predicate AtPlaceOf(row: EventRow, event: Event) {
    && event.sequence.Some? && row.stream == event.stream && row.source == event.source
    && row.sequence == event.sequence
  }

  /**
   The event names the run that delivers it, was not stored for it before, and takes a free place of its stream or one
   that was first taken under the same identity.
   */
  ghost predicate Counts(rows: seq<EventRow>, native: NativeId, event: Event) {
    && event.matches
    && (forall row :: row in rows ==> !(row.native == native && row.source == event.source && row.id == event.id))
    && (forall k :: 0 <= k < |rows| && AtPlaceOf(rows[k], event) && (forall j :: 0 <= j < k ==> !AtPlaceOf(rows[j], event))
          ==> rows[k].id == event.id)
  }

  lemma CountsUnlessIgnored(rows: seq<EventRow>, native: NativeId, event: Event)
    ensures Counts(rows, native, event) <==> !Ignored(rows, native, event)
  {
    var k := FindSequence(rows, event);
    assert forall row :: AtPlaceOf(row, event) <==> SameSequence(row, event);
    if AlreadyDelivered(rows, native, event) {
      var j :| 0 <= j < |rows| && SameEvent(rows[j], native, event);
      assert rows[j] in rows;
    }
    if k < |rows| && rows[k].id == event.id {
      forall j | 0 <= j < |rows| && AtPlaceOf(rows[j], event) && (forall i :: 0 <= i < j ==> !AtPlaceOf(rows[i], event))
        ensures j == k {
      }
    }
    if k == |rows| {
      forall j | 0 <= j < |rows| ensures !AtPlaceOf(rows[j], event) {
      }
    }
  }

  /** An event that counts reaches the open Execution `e` through the run that delivers it. */
  ghost predicate Hears(s: State, a: Action, e: Id) {
    && a.Delivering? && a.id in s.turns.streams && a.id in s.turns.inputs && a.execution !in s.turns.executions
    && e in s.turns.executions && s.turns.executions[e].native == s.turns.streams[a.id].native
    && s.turns.executions[e].status !in {Completed, Failed, Stopped}
    && Counts(s.journal.events, s.turns.streams[a.id].native, a.event)
  }

  /** The engine reconciles the lost Execution `e`. */
  predicate Reconciling(s: State, a: Action, e: Id) {
    && a.ReconcilingExecution? && a.ok && a.execution == e && a.evidence.EngineEvidence? && a.status in {Completed, Failed, Stopped}
    && e in s.turns.executions && s.turns.executions[e].status.Unknown?
    && s.turns.executions[e].input in s.turns.inputs && s.turns.inputs[s.turns.executions[e].input].status.Unknown?
  }

  /** The engine says that the open Execution `e` has ended so. */
  ghost predicate Ends(s: State, a: Action, e: Id, status: Status) {
    || (Hears(s, a, e) && match status
          case Completed => a.event.payload == ExecutionCompleted(EngineEvidence)
          case Failed => a.event.payload == ExecutionFailed(EngineEvidence)
          case Stopped => a.event.payload == ExecutionStopped(EngineEvidence)
          case Unknown => a.event.payload == ExecutionUnknown
          case _ => false)
    || (Reconciling(s, a, e) && a.status == status)
  }

  /** The native identity leads to the one Execution that has it. */
  lemma FindsOnly(executions: map<Id, Execution>, e: Id)
    requires Evidenced(executions) && e in executions
    ensures FindExecution(executions, executions[e].native) == Some(e)
  {
    assert ExecutionOf(executions, executions[e].native, e);
  }

  lemma HearsEffect(s: State, a: Action, e: Id)
    requires Evidenced(s.turns.executions) && Hears(s, a, e)
    ensures Step(s, a).stops.requests == StopsAfter(s.stops.requests, e, a.event.payload)
    ensures Step(s, a).journal.interactions == InteractionsAfter(s.journal.interactions, e, a.event.payload)
  {
    hide Step, Evidenced, Ignored, Counts, TurnsAfter, Settles, MarkTerminal, StopsAfter, InteractionsAfter, LateAnswer,
      FindExecution;
    RunSteps(s, a);
    FindsOnly(s.turns.executions, e);
    CountsUnlessIgnored(s.journal.events, s.turns.streams[a.id].native, a.event);
  }

  /** An event that reaches no open Execution leaves the stop requests. */
  lemma UnheardEffect(s: State, a: Action)
    requires Evidenced(s.turns.executions) && a.Delivering? && forall e :: !Hears(s, a, e)
    ensures Step(s, a).stops.requests == s.stops.requests
  {
    hide Step, Evidenced, Ignored, Counts, TurnsAfter, Settles, MarkTerminal, StopsAfter, InteractionsAfter, LateAnswer,
      RejectInputs, DropLocators, SetUnknown;
    RunSteps(s, a);
    if a.id in s.turns.streams && a.id in s.turns.inputs {
      CountsUnlessIgnored(s.journal.events, s.turns.streams[a.id].native, a.event);
      var found := FindExecution(s.turns.executions, s.turns.streams[a.id].native);
      if found.Some? { assert !Hears(s, a, found.value); }
    }
  }
}
