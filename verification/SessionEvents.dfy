/**
 Redelivered events: the engine may deliver an event more than once, and every copy after the first one changes
 nothing but the stored event rows, at once and in all later steps.
 */
module SessionEvents {
  import opened Wrappers
  import opened SessionState
  import opened SessionSteps
  import opened SessionQuiet
  import opened SessionQueue
  import opened SessionStops

  function WithRows(s: State, rows: seq<EventRow>): State {
    s.(journal := s.journal.(events := rows))
  }

  /** The identity of the first stored event that has the event's place in its source stream. */
  function Occupant(rows: seq<EventRow>, event: Event): Option<string> {
    var k := FindSequence(rows, event);
    if k < |rows| then Some(rows[k].id) else None
  }

  ghost predicate SameVerdict(rows: seq<EventRow>, more: seq<EventRow>, native: NativeId, event: Event) {
    && AlreadyDelivered(rows, native, event) == AlreadyDelivered(more, native, event)
    && Occupant(rows, event) == Occupant(more, event)
  }

  /** The two lists of rows recognise the same events. */
  ghost predicate SameVerdicts(rows: seq<EventRow>, more: seq<EventRow>) {
    forall native, event :: SameVerdict(rows, more, native, event)
  }

  lemma {:induction false} FindAppended(rows: seq<EventRow>, row: EventRow, event: Event)
    ensures FindSequence(rows + [row], event) ==
      if FindSequence(rows, event) < |rows| then FindSequence(rows, event)
      else if SameSequence(row, event) then |rows| else |rows| + 1
  {
    if rows == [] {
      assert (rows + [row])[1..] == [];
    } else {
      assert (rows + [row])[1..] == rows[1..] + [row];
      FindAppended(rows[1..], row, event);
    }
  }

  lemma DeliveredAppended(rows: seq<EventRow>, row: EventRow, native: NativeId, event: Event)
    ensures AlreadyDelivered(rows + [row], native, event) <==>
      AlreadyDelivered(rows, native, event) || SameEvent(row, native, event)
  {
    var more := rows + [row];
    if AlreadyDelivered(rows, native, event) {
      var k :| 0 <= k < |rows| && SameEvent(rows[k], native, event);
      assert SameEvent(more[k], native, event);
    }
    if SameEvent(row, native, event) {
      assert SameEvent(more[|rows|], native, event);
    }
  }

  /** A copy of a stored row adds nothing to what the rows recognise. */
  lemma CopyAddsNothing(rows: seq<EventRow>, row: EventRow)
    requires row in rows
    ensures SameVerdicts(rows, rows + [row])
  {
    var j :| 0 <= j < |rows| && rows[j] == row;
    forall native, event ensures SameVerdict(rows, rows + [row], native, event) {
      DeliveredAppended(rows, row, native, event);
      FindAppended(rows, row, event);
      assert SameEvent(row, native, event) ==> SameEvent(rows[j], native, event);
      assert SameSequence(row, event) ==> FindSequence(rows, event) <= j;
    }
  }

  lemma AppendKeepsVerdicts(rows: seq<EventRow>, more: seq<EventRow>, row: EventRow)
    requires SameVerdicts(rows, more)
    ensures SameVerdicts(rows + [row], more + [row])
  {
    forall native, event ensures SameVerdict(rows + [row], more + [row], native, event) {
      assert SameVerdict(rows, more, native, event);
      DeliveredAppended(rows, row, native, event);
      DeliveredAppended(more, row, native, event);
      FindAppended(rows, row, event);
      FindAppended(more, row, event);
    }
  }

  /** The step makes the same changes when other event rows are stored, and stores the same row. */
  ghost predicate RowsIrrelevant(s: State, more: seq<EventRow>, a: Action) {
    var rows := Step(s, a).journal.events;
    var after := Step(WithRows(s, more), a);
    && after == WithRows(Step(s, a), after.journal.events)
    && SameVerdicts(rows, after.journal.events)
  }

  lemma SameIgnored(rows: seq<EventRow>, more: seq<EventRow>, native: NativeId, event: Event)
    requires SameVerdicts(rows, more)
    ensures Ignored(rows, native, event) == Ignored(more, native, event)
  {
    assert SameVerdict(rows, more, native, event);
  }

  lemma DeliverRows(s: State, more: seq<EventRow>, i: Id, event: Event, e: Id)
    requires SameVerdicts(s.journal.events, more)
    ensures RowsIrrelevant(s, more, Delivering(i, event, e))
  {
    hide SameVerdicts, Ignored, Effect, EndStream, Step;
    RunSteps(s, Delivering(i, event, e));
    RunSteps(WithRows(s, more), Delivering(i, event, e));
    EndStreamRows(s, more, i, true);
    EffectRows(s, more, i, event, e);
    if i in s.turns.streams && i in s.turns.inputs && e !in s.turns.executions {
      var native := s.turns.streams[i].native;
      AppendKeepsVerdicts(s.journal.events, more, RowOf(native, event));
      SameIgnored(s.journal.events, more, native, event);
    }
  }

  lemma EffectRows(s: State, more: seq<EventRow>, i: Id, event: Event, e: Id)
    ensures i in s.turns.streams && i in s.turns.inputs ==>
      && Effect(WithRows(s, more), i, event, e) == WithRows(Effect(s, i, event, e), more)
      && Effect(s, i, event, e).journal.events == s.journal.events
  {
    hide TurnsAfter, LateAnswer, InteractionsAfter, StopsAfter, Settles, MarkTerminal;
  }

  lemma EndStreamRows(s: State, more: seq<EventRow>, i: Id, failed: bool)
    ensures EndStream(WithRows(s, more), i, failed) == WithRows(EndStream(s, i, failed), more)
    ensures EndStream(s, i, failed).journal == s.journal
  {
    hide SetUnknown, RejectInputs, DropLocators;
  }

  lemma WaitingRows(s: State, more: seq<EventRow>)
    ensures Waiting(WithRows(s, more)) == Waiting(s)
    ensures Places(WithRows(s, more)) == Places(s)
    ensures TakenPositions(WithRows(s, more)) == TakenPositions(s)
  {
  }

  lemma SubmitRows(s: State, more: seq<EventRow>, id: Id, request: Request, ok: bool, usable: set<Id>)
    ensures Submit(WithRows(s, more), id, request, ok, usable) == WithRows(Submit(s, id, request, ok, usable), more)
    ensures Submit(s, id, request, ok, usable).journal == s.journal
  {
    hide Claim, Waiting, Places, TakenPositions;
    WaitingRows(s, more);
  }

  lemma DrainRows(s: State, more: seq<EventRow>, ok: bool, usable: set<Id>)
    ensures Drain(WithRows(s, more), ok, usable) == WithRows(Drain(s, ok, usable), more)
    ensures Drain(s, ok, usable).journal == s.journal
  {
    hide Progressing, RejectInputs, DropLocators, FailCompactions, Take, PromoteCompact;
    ProgressRows(s, more);
  }

  lemma ProgressRows(s: State, more: seq<EventRow>)
    ensures Progressing(WithRows(s, more)) == Progressing(s)
  {
    hide Waiting, Places, BehindBarrier;
    WaitingRows(s, more);
  }

  lemma QueueRows(s: State, more: seq<EventRow>, a: Action)
    requires !QuietAction(a)
    ensures Step(WithRows(s, more), a) == WithRows(Step(s, a), more) && Step(s, a).journal == s.journal
  {
    hide Submit, Drain, InputQueue, InsertBefore, Without, Renumber;
    match a {
      case Submitting(i, request, ok, usable) => SubmitRows(s, more, i, request, ok, usable);
      case Draining(ok, usable) => DrainRows(s, more, ok, usable);
      case Moving(i, before, ok) =>
    }
  }

  lemma FailRows(s: State, more: seq<EventRow>, i: Id, harmless: bool)
    ensures FailDispatch(WithRows(s, more), i, harmless) == WithRows(FailDispatch(s, i, harmless), more)
    ensures FailDispatch(s, i, harmless).journal == s.journal
  {
    hide RejectInputs, DropLocators, FailCompactions, Undispatched;
  }

  lemma DispatchRows(s: State, more: seq<EventRow>, a: Action)
    requires a.CallingEngine? || a.FailingDispatch? || a.Returning?
    ensures Step(WithRows(s, more), a) == WithRows(Step(s, a), more) && Step(s, a).journal == s.journal
  {
    hide FailDispatch, AttachmentsHeld;
    if a.CallingEngine? {
      FailRows(s, more, a.id, true);
    } else if a.FailingDispatch? {
      FailRows(s, more, a.id, a.harmless);
    }
  }

  lemma ReconcileRows(s: State, more: seq<EventRow>, a: Action)
    requires a.EndingStream? || a.ReconcilingInput? || a.ReconcilingExecution?
    ensures Step(WithRows(s, more), a) == WithRows(Step(s, a), more) && Step(s, a).journal == s.journal
  {
    hide Step, EndStream, ConfirmStops, LeaveStopsUnconfirmed, SetBoth;
    RunSteps(s, a);
    RunSteps(WithRows(s, more), a);
    if a.EndingStream? {
      EndStreamRows(s, more, a.id, a.failed);
    }
  }

  lemma StopRows(s: State, more: seq<EventRow>, a: Action)
    requires StopAction(a)
    ensures Step(WithRows(s, more), a) == WithRows(Step(s, a), more) && Step(s, a).journal == s.journal
  {
    hide Step, SettleCall;
    StopSteps(s, a);
    StopSteps(WithRows(s, more), a);
  }

  lemma UpkeepRows(s: State, more: seq<EventRow>, a: Action)
    requires UpkeepAction(a) || a.RequestingCompact? || a.RequestingRewind?
    ensures Step(WithRows(s, more), a) == WithRows(Step(s, a), more) && Step(s, a).journal == s.journal
  {
    hide Step, Waiting, Places, SettleCompact, TakenPositions;
    UpkeepSteps(s, a);
    UpkeepSteps(WithRows(s, more), a);
    WaitingRows(s, more);
  }

  /** Steps that edit the queue or belong to the life of Task, Session and process. */
  lemma OtherRows(s: State, more: seq<EventRow>, a: Action)
    requires QuietAction(a) && !RunAction(a) && !StopAction(a)
    requires !UpkeepAction(a) && !a.RequestingCompact? && !a.RequestingRewind?
    ensures Step(WithRows(s, more), a) == WithRows(Step(s, a), more) && Step(s, a).journal == s.journal
  {
    hide Step;
    if a.Cancelling? || a.Withdrawing? || a.Resuming? {
      EditRows(s, more, a);
    } else {
      LifeRows(s, more, a);
    }
  }

  lemma EditRows(s: State, more: seq<EventRow>, a: Action)
    requires a.Cancelling? || a.Withdrawing? || a.Resuming?
    ensures Step(WithRows(s, more), a) == WithRows(Step(s, a), more) && Step(s, a).journal == s.journal
  {
    hide Step, Waiting, Places, DropLocators, CancelInput, Release, TakenPositions;
    QueueSteps(s, a);
    QueueSteps(WithRows(s, more), a);
    WaitingRows(s, more);
  }

  lemma LifeRows(s: State, more: seq<EventRow>, a: Action)
    requires a.Staging? || a.Freezing? || a.Closing? || a.Restarting? || a.Restoring?
    ensures Step(WithRows(s, more), a) == WithRows(Step(s, a), more) && Step(s, a).journal == s.journal
  {
    hide Step, Restart, Stage, Restore, RejectInputs, DropLocators;
    LifeSteps(s, a);
    LifeSteps(WithRows(s, more), a);
    RestartRows(s, more);
    StoreRows(s, more, if a.Staging? then a.id else 0, if a.Staging? || a.Restoring? then a.ok else true);
  }

  lemma StoreRows(s: State, more: seq<EventRow>, a: Id, ok: bool)
    ensures Stage(WithRows(s, more), a, ok) == WithRows(Stage(s, a, ok), more) && Stage(s, a, ok).journal == s.journal
    ensures Restore(WithRows(s, more), ok) == WithRows(Restore(s, ok), more) && Restore(s, ok).journal == s.journal
  {
  }

  lemma RestartRows(s: State, more: seq<EventRow>)
    ensures Restart(WithRows(s, more)) == WithRows(Restart(s), more) && Restart(s).journal == s.journal
  {
    hide Waiting, Places, RecoverTurns, RecoverUpkeep, TakenPositions;
    WaitingRows(s, more);
  }

  lemma StepRows(s: State, more: seq<EventRow>, a: Action)
    requires SameVerdicts(s.journal.events, more)
    ensures RowsIrrelevant(s, more, a)
  {
    hide SameVerdicts, Step;
    if a.Delivering? {
      DeliverRows(s, more, a.id, a.event, a.execution);
    } else if a.EndingStream? || a.ReconcilingInput? || a.ReconcilingExecution? {
      ReconcileRows(s, more, a);
    } else if RunAction(a) {
      DispatchRows(s, more, a);
    } else if StopAction(a) {
      StopRows(s, more, a);
    } else if UpkeepAction(a) || a.RequestingCompact? || a.RequestingRewind? {
      UpkeepRows(s, more, a);
    } else if QuietAction(a) {
      OtherRows(s, more, a);
    } else {
      QueueRows(s, more, a);
    }
  }

  lemma {:induction false} RunRows(s: State, more: seq<EventRow>, actions: seq<Action>)
    requires SameVerdicts(s.journal.events, more)
    ensures var after := Run(WithRows(s, more), actions);
      after == WithRows(Run(s, actions), after.journal.events)
      && SameVerdicts(Run(s, actions).journal.events, after.journal.events)
    decreases |actions|
  {
    if actions != [] {
      var n := |actions| - 1;
      hide Step, SameVerdicts;
      RunRows(s, more, actions[..n]);
      StepRows(Run(s, actions[..n]), Run(WithRows(s, more), actions[..n]).journal.events, actions[n]);
    }
  }

  /**
   Delivering a copy of a stored event once more, at any later moment of the run, only adds event rows: no Input,
   Execution, approval, user-input request or stop request differs then or after any further steps.
   */
  lemma {:induction false} RedeliveryIsTransparent(s: State, i: Id, event: Event, e: Id, later: seq<Action>)
    requires i in s.turns.streams && i in s.turns.inputs && e !in s.turns.executions
    requires RowOf(s.turns.streams[i].native, event) in s.journal.events
    ensures var copied := Deliver(s, i, event, e);
      && copied == WithRows(s, s.journal.events + [RowOf(s.turns.streams[i].native, event)])
      && Run(copied, later) == WithRows(Run(s, later), Run(copied, later).journal.events)
  {
    var row := RowOf(s.turns.streams[i].native, event);
    var k :| 0 <= k < |s.journal.events| && s.journal.events[k] == row;
    assert SameEvent(s.journal.events[k], s.turns.streams[i].native, event);
    hide Effect, Run;
    CopyAddsNothing(s.journal.events, row);
    RunRows(s, s.journal.events + [row], later);
  }
}
