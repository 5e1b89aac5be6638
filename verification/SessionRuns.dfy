/** The guarantees of `TaskRuntime` over whole runs: any interleaving of calls, events, crashes and restarts. */
module SessionRuns {
  import opened Wrappers
  import opened Sequences
  import opened SessionState
  import opened SessionSteps
  import opened SessionQuiet
  import opened SessionTurns
  import opened SessionQueue
  import opened SessionFifo
  import opened SessionSafety
  import opened SessionFiles
  import opened SessionOrder
  import opened SessionResults
  import opened SessionExclusion

  // Whatever the engine answers

  /** What every run keeps. */
  ghost predicate Sound(s: State) {
    && QueueOk(s) && OneKeyOwner(s.turns.inputs) && Recorded(s.turns) && RunOnce(s.history.runs, s.turns) && FilesOk(s)
    && Evidenced(s.turns.executions)
  }

  lemma StepSound(s: State, a: Action)
    requires Sound(s)
    ensures Sound(Step(s, a))
  {
    hide InQueue, OneKeyOwner, Recorded, RunOnce, FilesOk, Evidenced, Step;
    StepKeepsQueue(s, a);
    StepRemembers(s, a);
    StepRecorded(s, a);
    StepRunsOnce(s, a);
    StepKeepsFiles(s, a);
    StepMovesOn(s, a);
  }

  lemma {:induction false} RunSound(s: State, actions: seq<Action>)
    requires Sound(s)
    ensures Sound(Run(s, actions))
    decreases |actions|
  {
    if actions != [] {
      hide Sound, Step;
      RunSound(s, actions[..|actions| - 1]);
      StepSound(Run(s, actions[..|actions| - 1]), actions[|actions| - 1]);
    }
  }

  lemma FreshSound()
    ensures Sound(Fresh)
  {
  }

  /** At most one compaction is active, and a requested file rewind excludes all other upkeep and the queue. */
  lemma {:induction false} ExclusionAlways(actions: seq<Action>, r: Id)
    ensures var u := Run(Fresh, actions).upkeep;
      && OneCompaction(u.compactions)
      && (r in u.rewinds && u.rewinds[r].status.RewindRequested? ==>
            && !HasInput(Run(Fresh, actions).turns, Queued) && !HasActiveCompact(u)
            && forall x :: x in u.rewinds && u.rewinds[x].status.RewindRequested? ==> x == r)
  {
    FreshSound();
    RunSound(Fresh, actions);
    hide FilesOk, Run, RunOnce, OneKeyOwner, Recorded, Evidenced;
  }

  /** The engine is called at most once for an Input, whatever crashed in between. */
  lemma {:induction false} DispatchedOnce(actions: seq<Action>, j: nat, k: nat)
    ensures var runs := Run(Fresh, actions).history.runs;
      j < k < |runs| ==> runs[j].input != runs[k].input
  {
    FreshSound();
    RunSound(Fresh, actions);
  }

  /** An attachment reaches the engine for one Input at most, and stays with it. */
  lemma {:induction false} AttachmentDispatchedOnce(actions: seq<Action>, j: nat, k: nat, a: Id)
    ensures var s := Run(Fresh, actions);
      (j < |s.history.runs| && k < |s.history.runs| && a in s.history.runs[j].attachments
       && a in s.history.runs[k].attachments) ==>
      j == k && HeldBy(s.files, a, s.history.runs[j].input)
  {
    FreshSound();
    RunSound(Fresh, actions);
    var runs := Run(Fresh, actions).history.runs;
    if j < |runs| && k < |runs| && a in runs[j].attachments && a in runs[k].attachments {
      assert HeldBy(Run(Fresh, actions).files, a, runs[j].input) && HeldBy(Run(Fresh, actions).files, a, runs[k].input);
    }
  }

  /** A queued Input can be dispatched or withdrawn exactly when its attachments have not expired. */
  lemma {:induction false} QueuedTakeable(actions: seq<Action>, i: Id, usable: set<Id>)
    requires QueuedInput(Run(Fresh, actions).turns.inputs, i)
    ensures var s := Run(Fresh, actions);
      AllTakeable(s, i, usable) <==> forall a :: a in s.turns.inputs[i].request.attachments ==> a in usable
  {
    FreshSound();
    RunSound(Fresh, actions);
    var s := Run(Fresh, actions);
    hide InQueue, Run, RunOnce, OneKeyOwner, Recorded, Evidenced;
    forall a | a in s.turns.inputs[i].request.attachments ensures Takeable(s.files, a, i, usable) <==> a in usable {
      assert HeldBy(s.files, a, i);
    }
  }

  /** Once a submission with an idempotency key is recorded, repeating it never adds an Input and names the first one. */
  lemma {:induction false} ResubmissionIsDuplicate(
      s: State, actions: seq<Action>, i: Id, id: Id, request: Request, ok: bool, usable: set<Id>)
    requires OneKeyOwner(s.turns.inputs)
    requires i in s.turns.inputs && request.key.Some? && s.turns.inputs[i].request.key == request.key
    ensures var s' := Run(s, actions);
      && Submit(s', id, request, ok, usable) == s'
      && (ok && Active(s') ==>
            Decide(s', id, request, ok, usable)
            == if request == s.turns.inputs[i].request then Duplicate(i) else Refuse(KeyReused))
  {
    RunRemembers(s, actions);
    hide Run;
    assert OwnsKey(Run(s, actions).turns.inputs, request.key, i);
  }

  lemma {:induction false} RunRemembers(s: State, actions: seq<Action>)
    requires OneKeyOwner(s.turns.inputs)
    ensures var after := Run(s, actions).turns.inputs; Remembers(s.turns.inputs, after) && OneKeyOwner(after)
    decreases |actions|
  {
    if actions != [] {
      var before := Run(s, actions[..|actions| - 1]);
      hide OneKeyOwner, Step;
      RunRemembers(s, actions[..|actions| - 1]);
      StepRemembers(before, actions[|actions| - 1]);
    }
  }

  /** No Input starts a turn while a compaction may be executing natively, or while a file rewind is requested. */
  lemma {:induction false} TurnsStartUnbarredAlways(actions: seq<Action>, a: Action, i: Id)
    requires StartsTurn(Run(Fresh, actions), Step(Run(Fresh, actions), a), i)
    ensures var s := Run(Fresh, actions); var s' := Step(s, a);
      && !HasNativeCompact(s'.upkeep) && !HasRewind(s'.upkeep, RewindRequested) && !HasDriving(s.turns)
  {
    FreshSound();
    RunSound(Fresh, actions);
    hide InQueue, Run, RunOnce, Conserved, Recorded, Evidenced, Step;
    TurnsStartUnbarred(Run(Fresh, actions), a, i);
  }

  lemma {:induction false} RunFifo(actions: seq<Action>)
    requires forall k :: 0 <= k < |actions| ==> !actions[k].Moving?
    ensures Fifo(Run(Fresh, actions))
    decreases |actions|
  {
    if actions == [] {
      assert Served(Fresh) == [] by {
        assert InputPositions(Fresh.turns.inputs) == map[];
      }
    } else {
      var n := |actions| - 1;
      FreshSound();
      RunSound(Fresh, actions[..n]);
      RunFifo(actions[..n]);
      hide InQueue, Fifo, RunOnce, Conserved, OneKeyOwner, Recorded, Evidenced, Step;
      StepKeepsOrder(Run(Fresh, actions[..n]), actions[n]);
    }
  }

  /** Without explicit moves, Inputs are promoted in the order in which they were queued. */
  lemma {:induction false} PromotedInOrder(actions: seq<Action>, x: Id, y: Id)
    requires forall k :: 0 <= k < |actions| ==> !actions[k].Moving?
    ensures var history := Run(Fresh, actions).history;
      Distinct(history.enqueued) && (Before(history.promoted, x, y) ==> Before(history.enqueued, x, y))
  {
    RunFifo(actions);
    BeforeJoined(Run(Fresh, actions).history.promoted, InputQueue(Run(Fresh, actions).turns.inputs), x, y);
  }

  /** An Input that was queued earlier and still waits has not been overtaken. */
  lemma {:induction false} NotOvertaken(actions: seq<Action>, x: Id, y: Id)
    requires forall k :: 0 <= k < |actions| ==> !actions[k].Moving?
    requires QueuedInput(Run(Fresh, actions).turns.inputs, x) && Before(Run(Fresh, actions).history.enqueued, x, y)
    ensures y !in Run(Fresh, actions).history.promoted
  {
    var s := Run(Fresh, actions);
    FreshSound();
    RunSound(Fresh, actions);
    RunFifo(actions);
    InputQueueLists(s.turns.inputs, s.upkeep);
    hide InQueue, Run, InputQueue, Conserved, Recorded, Evidenced, Before;
    BeforeJoined(s.history.promoted, InputQueue(s.turns.inputs), y, x);
    OneDirection(s.history.enqueued, x, y);
  }

  lemma {:induction false} RunFinished(s: State, actions: seq<Action>)
    ensures Finished(s.turns.executions, Run(s, actions).turns.executions)
    decreases |actions|
  {
    if actions != [] {
      hide Step;
      RunFinished(s, actions[..|actions| - 1]);
      StepMovesOn(Run(s, actions[..|actions| - 1]), actions[|actions| - 1]);
    }
  }

  /** A settled Execution is the same record for good, by the evidence of the engine, and the only one of its identity. */
  lemma {:induction false} ResultsAreFinal(actions: seq<Action>, later: seq<Action>, e: Id)
    requires e in Run(Fresh, actions).turns.executions && Terminal(Run(Fresh, actions).turns.executions[e].status)
    ensures var x := Run(Fresh, actions).turns.executions[e];
      var executions := Run(Run(Fresh, actions), later).turns.executions;
      && e in executions && executions[e] == x && x.evidence == Some(EngineEvidence)
      && forall f :: f in executions && executions[f].native == x.native ==> f == e
  {
    FreshSound();
    RunSound(Fresh, actions);
    RunSound(Run(Fresh, actions), later);
    RunFinished(Run(Fresh, actions), later);
    hide QueueOk, RunOnce, FilesOk, Run, OneKeyOwner, Recorded;
  }

  // With honest reconciliations

  /** What every run of honest reconciliations keeps. */
  ghost predicate Safe(s: State) {
    Sound(s) && InTurn(s.turns) && RewindUndriven(s)
  }

  /** Every reconciliation along the way was honest. */
  ghost predicate HonestRun(s: State, actions: seq<Action>)
    decreases |actions|
  {
    actions == [] ||
    var n := |actions| - 1;
    HonestRun(s, actions[..n]) && Honest(Run(s, actions[..n]), actions[n])
  }

  lemma StepSafe(s: State, a: Action)
    requires Safe(s) && Honest(s, a)
    ensures Safe(Step(s, a))
  {
    hide InTurn, Honest, InQueue, OneKeyOwner, Recorded, RunOnce, FilesOk, Evidenced, RewindUndriven, Step;
    StepSound(s, a);
    StepKeepsTurns(s, a);
    StepKeepsUndriven(s, a);
  }

  lemma {:induction false} RunSafe(s: State, actions: seq<Action>)
    requires Safe(s) && HonestRun(s, actions)
    ensures Safe(Run(s, actions))
    decreases |actions|
  {
    if actions != [] {
      hide Safe, Step;
      RunSafe(s, actions[..|actions| - 1]);
      StepSafe(Run(s, actions[..|actions| - 1]), actions[|actions| - 1]);
    }
  }

  lemma FreshSafe()
    ensures Safe(Fresh)
  {
    FreshSound();
  }

  /** In every reachable state at most one Input drives the native Session. */
  lemma {:induction false} OneDriverAlways(actions: seq<Action>, i: Id, j: Id)
    requires HonestRun(Fresh, actions)
    ensures var inputs := Run(Fresh, actions).turns.inputs;
      i in inputs && j in inputs && Driving(inputs[i].status) && Driving(inputs[j].status) ==> i == j
  {
    FreshSafe();
    RunSafe(Fresh, actions);
  }

  /** Nobody drives while a file rewind is requested. */
  lemma {:induction false} RewindsUndrivenAlways(actions: seq<Action>)
    requires HonestRun(Fresh, actions)
    ensures HasRewind(Run(Fresh, actions).upkeep, RewindRequested) ==> !HasDriving(Run(Fresh, actions).turns)
  {
    FreshSafe();
    RunSafe(Fresh, actions);
  }

  /** The Input of a settled Execution shows the same result, for good. */
  lemma {:induction false} ResultsAgree(actions: seq<Action>, later: seq<Action>, e: Id)
    requires HonestRun(Fresh, actions) && HonestRun(Run(Fresh, actions), later)
    requires e in Run(Fresh, actions).turns.executions && Terminal(Run(Fresh, actions).turns.executions[e].status)
    ensures var x := Run(Fresh, actions).turns.executions[e];
      var inputs := Run(Run(Fresh, actions), later).turns.inputs;
      x.input in inputs && inputs[x.input].status == x.status
  {
    FreshSafe();
    RunSafe(Fresh, actions);
    RunSafe(Run(Fresh, actions), later);
    RunFinished(Run(Fresh, actions), later);
    hide Sound, Run, RewindUndriven;
    var t := Run(Run(Fresh, actions), later).turns;
    assert Settled(t.inputs, t.executions[e]);
  }
}
