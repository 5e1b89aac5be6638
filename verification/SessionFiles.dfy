/** Attachments: claimed all or none, held by one Input at a time, dispatched for at most one Input. */
module SessionFiles {
  import opened Wrappers
  import opened SessionState
  import opened SessionSteps
  import opened SessionQuiet
  import opened SessionSafety

  predicate HeldBy(files: Files, a: Id, i: Id) {
    a in files.attachments && files.attachments[a].holder == Some(i)
  }

  /** The Input that holds an attachment lists it. */
  ghost predicate HoldersList(files: Files, inputs: map<Id, Input>) {
    forall a :: a in files.attachments && files.attachments[a].holder.Some? ==>
      var i := files.attachments[a].holder.value;
      i in inputs && a in inputs[i].request.attachments
  }

  /** A queued Input holds each of its attachments, with the locator that dispatch needs. */
  ghost predicate Reserved(files: Files, inputs: map<Id, Input>) {
    forall i, a :: QueuedInput(inputs, i) && a in inputs[i].request.attachments ==>
      HeldBy(files, a, i) && files.attachments[a].locator
  }

  /** What was handed to the engine is still held by the Input that it was handed over for. */
  ghost predicate RunsHold(files: Files, runs: seq<RunCall>) {
    forall k, a :: 0 <= k < |runs| && a in runs[k].attachments ==> HeldBy(files, a, runs[k].input)
  }

  ghost predicate Conserved(files: Files, inputs: map<Id, Input>, runs: seq<RunCall>) {
    HoldersList(files, inputs) && Reserved(files, inputs) && RunsHold(files, runs)
  }

  ghost predicate FilesOk(s: State) {
    Conserved(s.files, s.turns.inputs, s.history.runs)
  }

  /** No holder changed, and no locator was dropped that a queued Input still needs. */
  ghost predicate QuietFiles(before: Files, after: Files, inputs: map<Id, Input>) {
    && after.attachments.Keys == before.attachments.Keys
    && forall a :: a in before.attachments ==>
         && after.attachments[a].holder == before.attachments[a].holder
         && (before.attachments[a].holder.Some? && QueuedInput(inputs, before.attachments[a].holder.value) ==>
               after.attachments[a].locator == before.attachments[a].locator)
  }

  lemma QuietKeepsFiles(s: State, s': State)
    requires FilesOk(s) && Quiet(s.turns.inputs, s'.turns.inputs) && QuietFiles(s.files, s'.files, s'.turns.inputs)
    requires s'.history.runs == s.history.runs
    ensures FilesOk(s')
  {
    forall i, a | QueuedInput(s'.turns.inputs, i) && a in s'.turns.inputs[i].request.attachments
      ensures HeldBy(s'.files, a, i) && s'.files.attachments[a].locator {
      assert QueuedInput(s.turns.inputs, i) && HeldBy(s.files, a, i);
    }
  }

  lemma DropQuiet(files: Files, inputs: map<Id, Input>, left: map<Id, Input>, after: map<Id, Input>)
    requires forall i :: QueuedInput(left, i) ==> !QueuedInput(after, i)
    ensures QuietFiles(files, DropLocators(files, left), after)
  {
  }

  /** Steps that neither claim nor release nor stage an attachment. */
  predicate LeavesFiles(a: Action) {
    QuietAction(a) && !a.Withdrawing? && !a.Staging?
  }

  lemma RejectsFiles(s: State)
    ensures QuietFiles(s.files, RejectQueuedInputs(s).files, RejectQueuedInputs(s).turns.inputs)
  {
    DropQuiet(s.files, s.turns.inputs, s.turns.inputs, RejectInputs(s.turns.inputs));
  }

  lemma LeavesFilesQuiet(s: State, a: Action)
    requires LeavesFiles(a)
    ensures QuietFiles(s.files, Step(s, a).files, Step(s, a).turns.inputs)
  {
    hide QuietFiles, Step;
    if RunAction(a) || a.Cancelling? {
      RunLeavesFiles(s, a);
    } else {
      OtherLeavesFiles(s, a);
    }
  }

  lemma RunLeavesFiles(s: State, a: Action)
    requires RunAction(a) || a.Cancelling?
    ensures QuietFiles(s.files, Step(s, a).files, Step(s, a).turns.inputs)
  {
    hide QuietFiles, SetUnknown, RejectInputs, DropLocators, ConfirmStops, LeaveStopsUnconfirmed, Deliver, EndStream,
      CallEngine, FailDispatch, CancelQueued, FindExecution;
    SameFilesQuiet(s.files, Step(s, a).turns.inputs, s.files.locators);
    match a {
      case Cancelling(i, ok) => CancelFiles(s, i, ok);
      case CallingEngine(i, ok) => CallEngineFiles(s, i, ok);
      case FailingDispatch(i, harmless) => FailDispatchFiles(s, i, harmless);
      case EndingStream(i, failed) => EndStreamFiles(s, i, failed);
      case Delivering(i, event, e) => DeliverFiles(s, i, event, e);
      case _ =>
    }
  }

  lemma OtherLeavesFiles(s: State, a: Action)
    requires LeavesFiles(a) && !RunAction(a) && !a.Cancelling?
    ensures QuietFiles(s.files, Step(s, a).files, Step(s, a).turns.inputs)
  {
    hide QuietFiles, RecoverUpkeep, FailCompactions, RejectInputs, DropLocators, RecoverTurns, SettledStop, Waiting,
      SettleCompact, NextPosition;
    SameFilesQuiet(s.files, Step(s, a).turns.inputs, s.files.locators);
    SameFilesQuiet(s.files, Step(s, a).turns.inputs, {});
    RejectsFiles(s);
  }

  lemma SameFilesQuiet(files: Files, inputs: map<Id, Input>, locators: set<Id>)
    ensures QuietFiles(files, files.(locators := locators), inputs)
  {
  }

  lemma CancelFiles(s: State, i: Id, ok: bool)
    ensures var s' := CancelQueued(s, i, ok); QuietFiles(s.files, s'.files, s'.turns.inputs)
  {
    if QueuedInput(s.turns.inputs, i) {
      DropQuiet(s.files, s.turns.inputs, map[i := s.turns.inputs[i]], CancelInput(s.turns, i).inputs);
    }
  }

  lemma FailDispatchFiles(s: State, i: Id, harmless: bool)
    ensures var s' := FailDispatch(s, i, harmless); QuietFiles(s.files, s'.files, s'.turns.inputs)
  {
    if i in s.turns.inputs {
      hide QuietFiles, RejectInputs, DropLocators;
      var t := Undispatched(s.turns, i, if harmless then Rejected else Unknown);
      RejectsFiles(s.(turns := t));
      SameFilesQuiet(s.files, t.inputs, s.files.locators);
    }
    SameFilesQuiet(s.files, s.turns.inputs, s.files.locators);
  }

  lemma CallEngineFiles(s: State, i: Id, ok: bool)
    ensures var s' := CallEngine(s, i, ok); QuietFiles(s.files, s'.files, s'.turns.inputs)
  {
    hide QuietFiles, FailDispatch, AttachmentsHeld;
    FailDispatchFiles(s, i, true);
    SameFilesQuiet(s.files, s.turns.inputs, s.files.locators);
  }

  lemma EndStreamFiles(s: State, i: Id, failed: bool)
    ensures var s' := EndStream(s, i, failed); QuietFiles(s.files, s'.files, s'.turns.inputs)
  {
    hide QuietFiles, RejectInputs, DropLocators, SetUnknown;
    if i in s.turns.streams && i in s.turns.inputs {
      var closed := s.turns.(streams := s.turns.streams - {i});
      RejectsFiles(s.(turns := SetUnknown(closed, i, s.turns.streams[i].native)));
    }
    SameFilesQuiet(s.files, s.turns.inputs, s.files.locators);
  }

  lemma DeliverFiles(s: State, i: Id, event: Event, e: Id)
    ensures var s' := Deliver(s, i, event, e); QuietFiles(s.files, s'.files, s'.turns.inputs)
  {
    hide QuietFiles, EndStream, TurnsAfter, Settles, MarkTerminal, LateAnswer, InteractionsAfter, StopsAfter, Ignored;
    EndStreamFiles(s, i, true);
    SameFilesQuiet(s.files, Deliver(s, i, event, e).turns.inputs, s.files.locators);
  }

  // Claiming, taking and releasing

  /** A submission claims every attachment that it names, or none. */
  lemma ClaimAllOrNone(s: State, id: Id, request: Request, ok: bool, usable: set<Id>)
    requires FilesOk(s)
    ensures var s' := Submit(s, id, request, ok, usable);
      || s'.files == s.files
      || (&& s'.files == Claim(s.files, request, id, s'.turns.inputs[id].status.Queued?) && id !in s.turns.inputs
          && id in s'.turns.inputs && s'.turns.inputs == s.turns.inputs[id := s'.turns.inputs[id]]
          && s'.turns.inputs[id].request == request
          && AllClaimable(s, request, usable))
  {
    hide Decide, AllClaimable, NextPosition, Claim;
  }

  lemma ClaimKeeps(s: State, id: Id, input: Input, usable: set<Id>)
    requires FilesOk(s) && id !in s.turns.inputs && AllClaimable(s, input.request, usable)
    ensures var files := Claim(s.files, input.request, id, input.status.Queued?);
      Conserved(files, s.turns.inputs[id := input], s.history.runs)
  {
    var files, inputs := Claim(s.files, input.request, id, input.status.Queued?), s.turns.inputs[id := input];
    forall a | a in input.request.attachments ensures a in s.files.attachments && s.files.attachments[a].holder.None? {
      assert Claimable(s, a, usable);
    }
    forall i, a | QueuedInput(inputs, i) && a in inputs[i].request.attachments
      ensures HeldBy(files, a, i) && files.attachments[a].locator {
      if i != id {
        assert QueuedInput(s.turns.inputs, i) && HeldBy(s.files, a, i);
      }
    }
  }

  lemma SubmitFiles(s: State, id: Id, request: Request, ok: bool, usable: set<Id>)
    requires FilesOk(s)
    ensures FilesOk(Submit(s, id, request, ok, usable))
  {
    hide Submit, AllClaimable, Claim, NextPosition, Conserved;
    var s' := Submit(s, id, request, ok, usable);
    SubmitCases(s, id, request, ok, usable);
    if s' == RefuseInput(s, id, request) && id !in s.turns.inputs {
      RefusingKeeps(s, id, request);
    } else if s' != s {
      ClaimKeeps(s, id, s'.turns.inputs[id], usable);
    }
  }

  lemma RefusingKeeps(s: State, id: Id, request: Request)
    requires FilesOk(s) && id !in s.turns.inputs
    ensures FilesOk(RefuseInput(s, id, request))
  {
  }

  lemma SubmitCases(s: State, id: Id, request: Request, ok: bool, usable: set<Id>)
    ensures var s' := Submit(s, id, request, ok, usable);
      || s' == s
      || (id !in s.turns.inputs
          && (s' == RefuseInput(s, id, request)
              || (AllClaimable(s, request, usable)
                  && (s' == EnqueueInput(s, id, request) || s' == StartInput(s, id, request)))))
  {
    hide Decide, AllClaimable, EnqueueInput, StartInput, RefuseInput;
  }

  lemma DrainFiles(s: State, ok: bool, usable: set<Id>)
    requires FilesOk(s)
    ensures FilesOk(Drain(s, ok, usable))
  {
    hide Drain, Conserved, Promote, StopQueue;
    DrainHistory(s, ok, usable);
    DrainStates(s, ok, usable);
    RejectsFiles(s);
    RejectQuiet(s.turns.inputs);
    RejectKeepsFiles(s);
    forall i | QueuedInput(s.turns.inputs, i) && AllTakeable(s, i, usable) ensures FilesOk(Promote(s, i)) {
      TakeKeeps(s, i, usable);
    }
  }

  lemma RejectKeepsFiles(s: State)
    requires FilesOk(s)
    ensures FilesOk(RejectQueuedInputs(s)) && FilesOk(StopQueue(s))
  {
    hide Conserved, FailCompactions, RejectInputs, DropLocators;
    RejectQuiet(s.turns.inputs);
    RejectsFiles(s);
    QuietKeepsFiles(s, RejectQueuedInputs(s));
    QuietKeepsFiles(s, StopQueue(s));
  }

  /** What draining does: it waits, promotes a compaction, stops the queue, or promotes an Input that can have its files. */
  lemma DrainStates(s: State, ok: bool, usable: set<Id>)
    ensures var s' := Drain(s, ok, usable);
      || s' == s || s' == s.(upkeep := s'.upkeep) || s' == StopQueue(s) || s' == RejectQueuedInputs(s)
      || exists i :: QueuedInput(s.turns.inputs, i) && AllTakeable(s, i, usable) && s' == Promote(s, i)
  {
    hide Progressing, QueueOf, BehindBarrier, AllTakeable, RejectInputs, DropLocators, FailCompactions, Take,
      PromoteCompact;
  }

  lemma TakeKeeps(s: State, i: Id, usable: set<Id>)
    requires FilesOk(s) && QueuedInput(s.turns.inputs, i) && AllTakeable(s, i, usable)
    ensures FilesOk(Promote(s, i))
  {
    forall a | a in s.turns.inputs[i].request.attachments ensures HeldBy(s.files, a, i) {
      assert Takeable(s.files, a, i, usable);
    }
  }

  /** Withdrawing gives back exactly what the Input holds; nothing of it was dispatched. */
  lemma WithdrawFiles(s: State, i: Id, ok: bool, usable: set<Id>)
    requires FilesOk(s) && RunOnce(s.history.runs, s.turns)
    ensures FilesOk(Withdraw(s, i, ok, usable))
  {
    if QueuedInput(s.turns.inputs, i) && AllTakeable(s, i, usable) {
      var s' := Withdraw(s, i, ok, usable);
      forall a | a in s.turns.inputs[i].request.attachments ensures HeldBy(s.files, a, i) {
        assert Takeable(s.files, a, i, usable);
      }
      forall j, a | QueuedInput(s'.turns.inputs, j) && a in s'.turns.inputs[j].request.attachments
        ensures HeldBy(s'.files, a, j) && s'.files.attachments[a].locator {
        assert QueuedInput(s.turns.inputs, j) && HeldBy(s.files, a, j);
      }
    }
  }

  lemma MoveFiles(s: State, i: Id, before: Option<Id>, ok: bool)
    requires FilesOk(s)
    ensures FilesOk(MoveQueued(s, i, before, ok))
  {
    MoveRemembers(s, i, before, ok);
    hide InputQueue, InsertBefore, Without, MayMove, Renumber;
  }

  lemma CallFiles(s: State, i: Id, ok: bool)
    requires FilesOk(s)
    ensures FilesOk(CallEngine(s, i, ok))
  {
    hide CallEngine;
    CallEngineContinues(s, i, ok);
    CallEngineFiles(s, i, ok);
    CallEngineHistory(s, i, ok);
    if CallEngine(s, i, ok).history == s.history {
      hide Conserved, Quiet, QuietFiles;
      QuietKeepsFiles(s, CallEngine(s, i, ok));
    }
  }

  lemma StageFiles(s: State, a: Id, ok: bool)
    requires FilesOk(s)
    ensures FilesOk(Stage(s, a, ok))
  {
  }

  lemma StepKeepsFiles(s: State, a: Action)
    requires RunOnce(s.history.runs, s.turns) && FilesOk(s)
    ensures FilesOk(Step(s, a))
  {
    hide RunOnce, Conserved, Submit, Drain, MoveQueued, Withdraw, Stage, CallEngine;
    if a.Submitting? {
      SubmitFiles(s, a.id, a.request, a.ok, a.usable);
    } else if a.Draining? {
      DrainFiles(s, a.ok, a.usable);
    } else if a.Moving? {
      MoveFiles(s, a.id, a.before, a.ok);
    } else if a.Withdrawing? {
      WithdrawFiles(s, a.id, a.ok, a.usable);
    } else if a.Staging? {
      StageFiles(s, a.id, a.ok);
    } else if a.CallingEngine? {
      CallFiles(s, a.id, a.ok);
    } else {
      hide Step, Quiet, QuietFiles;
      QuietStepContinues(s, a);
      QuietHistory(s, a);
      LeavesFilesQuiet(s, a);
      QuietKeepsFiles(s, Step(s, a));
    }
  }
}
