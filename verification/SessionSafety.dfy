/** What holds in every state that a run of `TaskRuntime` can reach, crashes and restarts included. */
module SessionSafety {
  import opened Wrappers
  import opened SessionState
  import opened SessionSteps
  import opened SessionQuiet

  // Submissions keep their identity

  /** An idempotency key belongs to one Input. */
  ghost predicate OneKeyOwner(inputs: map<Id, Input>) {
    forall i, j {:trigger inputs[i], inputs[j]} ::
      i in inputs && j in inputs && inputs[i].request.key.Some? && inputs[i].request.key == inputs[j].request.key
      ==> i == j
  }

  /** No Input is forgotten and no request changes. */
  ghost predicate Remembers(before: map<Id, Input>, after: map<Id, Input>) {
    forall i :: i in before ==> i in after && after[i].request == before[i].request
  }

  lemma SubmitRemembers(s: State, id: Id, request: Request, ok: bool, usable: set<Id>)
    ensures var after := Submit(s, id, request, ok, usable).turns.inputs;
      && Remembers(s.turns.inputs, after) && (OneKeyOwner(s.turns.inputs) ==> OneKeyOwner(after))
  {
    hide Decide, AllClaimable, NextPosition, Claim;
    var d := Decide(s, id, request, ok, usable);
    if d.Enqueue? || d.Start? {
      forall i | i in s.turns.inputs && request.key.Some? ensures s.turns.inputs[i].request.key != request.key {
        assert !OwnsKey(s.turns.inputs, request.key, i);
      }
    }
  }

  lemma DrainRemembers(s: State, ok: bool, usable: set<Id>)
    ensures var after := Drain(s, ok, usable).turns.inputs;
      after.Keys == s.turns.inputs.Keys && Remembers(s.turns.inputs, after)
  {
    hide Drain, RejectInputs, Take;
    DrainCases(s, ok, usable);
    RejectQuiet(s.turns.inputs);
  }

  lemma MoveRemembers(s: State, i: Id, before: Option<Id>, ok: bool)
    ensures var after := MoveQueued(s, i, before, ok).turns.inputs;
      && after.Keys == s.turns.inputs.Keys && Remembers(s.turns.inputs, after)
      && forall j :: j in after ==> after[j].status == s.turns.inputs[j].status
  {
    hide InputQueue, InsertBefore, Without, MayMove, Renumber, Remembers;
    RenumberRemembers(s.turns.inputs, InsertBefore(Without(InputQueue(s.turns.inputs), i), i, before));
    RemembersItself(s.turns.inputs);
  }

  lemma RemembersItself(inputs: map<Id, Input>)
    ensures Remembers(inputs, inputs)
  {
  }

  lemma RenumberRemembers(inputs: map<Id, Input>, order: seq<Id>)
    ensures var after := Renumber(inputs, order);
      && after.Keys == inputs.Keys && Remembers(inputs, after)
      && forall j :: j in after ==> after[j].status == inputs[j].status
  {
  }

  lemma StepRemembers(s: State, a: Action)
    requires OneKeyOwner(s.turns.inputs)
    ensures Remembers(s.turns.inputs, Step(s, a).turns.inputs) && OneKeyOwner(Step(s, a).turns.inputs)
  {
    hide Submit, Drain, MoveQueued;
    if a.Submitting? {
      SubmitRemembers(s, a.id, a.request, a.ok, a.usable);
    } else if a.Draining? {
      DrainRemembers(s, a.ok, a.usable);
    } else if a.Moving? {
      MoveRemembers(s, a.id, a.before, a.ok);
    } else {
      hide Step;
      QuietStepContinues(s, a);
    }
  }

  // Calls of engine.run

  /** No Input is run twice; one that waits, or whose dispatch has not called the engine yet, has not been run. */
  ghost predicate RunOnce(runs: seq<RunCall>, t: Turns) {
    && (forall j, k :: 0 <= j < k < |runs| ==> runs[j].input != runs[k].input)
    && (forall k :: 0 <= k < |runs| ==>
          && runs[k].input in t.inputs && !t.inputs[runs[k].input].status.Queued?
          && !Probes(t, runs[k].input) && runs[k].attachments == t.inputs[runs[k].input].request.attachments)
  }

  lemma CallRunsOnce(s: State, i: Id, ok: bool)
    requires Recorded(s.turns) && RunOnce(s.history.runs, s.turns)
    ensures var s' := CallEngine(s, i, ok); RunOnce(s'.history.runs, s'.turns)
  {
    hide CallEngine;
    CallEngineContinues(s, i, ok);
    CallEngineHistory(s, i, ok);
  }

  lemma CallEngineHistory(s: State, i: Id, ok: bool)
    ensures var s' := CallEngine(s, i, ok);
      || s'.history == s.history
      || (&& Probes(s.turns, i) && i in s.turns.inputs && !Probes(s'.turns, i)
          && AttachmentsHeld(s.files, s.turns.inputs[i].request, i)
          && s'.turns.inputs == s.turns.inputs && s'.files == s.files
          && s'.history == s.history.(runs := s.history.runs + [RunCall(i, s.turns.inputs[i].request.attachments)]))
  {
    hide RejectInputs, DropLocators, FailCompactions, AttachmentsHeld;
  }

  lemma QuietHistory(s: State, a: Action)
    requires QuietAction(a) && !a.CallingEngine?
    ensures Step(s, a).history == s.history
  {
    hide RecoverUpkeep, FailCompactions, SetUnknown, RejectInputs, DropLocators, RecoverTurns, SettledStop, Waiting,
      AllTakeable, CancelInput, Release, ConfirmStops, LeaveStopsUnconfirmed, Deliver, Undispatched, EndStream,
      SettleCompact;
    if a.Delivering? {
      DeliverHistory(s, a.id, a.event, a.execution);
    } else if a.EndingStream? {
      EndStreamHistory(s, a.id, a.failed);
    }
  }

  lemma EndStreamHistory(s: State, i: Id, failed: bool)
    ensures EndStream(s, i, failed).history == s.history
  {
    hide SetUnknown, RejectInputs, DropLocators;
  }

  lemma DeliverHistory(s: State, i: Id, event: Event, e: Id)
    ensures Deliver(s, i, event, e).history == s.history
  {
    hide EndStream, TurnsAfter, Settles, MarkTerminal, LateAnswer, InteractionsAfter, StopsAfter, Ignored;
    EndStreamHistory(s, i, true);
  }

  lemma DrainHistory(s: State, ok: bool, usable: set<Id>)
    ensures Drain(s, ok, usable).history.runs == s.history.runs
    ensures Drain(s, ok, usable).history.enqueued == s.history.enqueued
  {
    hide Progressing, QueueOf, BehindBarrier, AllTakeable, RejectInputs, DropLocators, FailCompactions, Take;
  }

  lemma DrainRunsOnce(s: State, ok: bool, usable: set<Id>)
    requires RunOnce(s.history.runs, s.turns)
    ensures RunOnce(s.history.runs, Drain(s, ok, usable).turns)
  {
    hide Drain, RejectInputs, Take;
    DrainCases(s, ok, usable);
    RejectQuiet(s.turns.inputs);
  }

  lemma SubmitRunsOnce(s: State, id: Id, request: Request, ok: bool, usable: set<Id>)
    requires RunOnce(s.history.runs, s.turns)
    ensures var s' := Submit(s, id, request, ok, usable); s'.history.runs == s.history.runs && RunOnce(s.history.runs, s'.turns)
  {
    hide Decide, AllClaimable, NextPosition, Claim;
  }

  lemma QuietRunsOnce(runs: seq<RunCall>, t: Turns, u: Turns)
    requires RunOnce(runs, t) && Continues(t, u)
    ensures RunOnce(runs, u)
  {
  }

  lemma StepRunsOnce(s: State, a: Action)
    requires Recorded(s.turns) && RunOnce(s.history.runs, s.turns)
    ensures var s' := Step(s, a); RunOnce(s'.history.runs, s'.turns)
  {
    hide Recorded, RunOnce, Submit, Drain, MoveQueued, Continues, CallEngine;
    if a.Submitting? {
      SubmitRunsOnce(s, a.id, a.request, a.ok, a.usable);
    } else if a.Draining? {
      DrainHistory(s, a.ok, a.usable);
      DrainRunsOnce(s, a.ok, a.usable);
    } else if a.Moving? {
      MoveRunsOnce(s, a.id, a.before, a.ok);
    } else if a.CallingEngine? {
      CallRunsOnce(s, a.id, a.ok);
    } else {
      hide Step;
      QuietStepContinues(s, a);
      QuietHistory(s, a);
      QuietRunsOnce(s.history.runs, s.turns, Step(s, a).turns);
    }
  }

  lemma MoveRunsOnce(s: State, i: Id, before: Option<Id>, ok: bool)
    requires RunOnce(s.history.runs, s.turns)
    ensures var s' := MoveQueued(s, i, before, ok);
      s'.history == s.history && RunOnce(s.history.runs, s'.turns)
  {
    hide InputQueue, InsertBefore, Without, MayMove, Renumber;
    MoveRemembers(s, i, before, ok);
  }
}
