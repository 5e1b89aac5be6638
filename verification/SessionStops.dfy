/** Stop requests under any race of receipts, acknowledgements and terminal events. */
module SessionStops {
  import opened Wrappers
  import opened SessionState
  import opened SessionSteps
  import opened SessionQuiet

  /** The same request later on: confirmation with its evidence, delivery, and never having been sent are kept. */
  predicate Later(stop: Stop, after: Stop) {
    && after.execution == stop.execution
    && (stop.status.StopConfirmed? ==> after.status.StopConfirmed? && after.stopEvidence == stop.stopEvidence)
    && (stop.delivery.Delivered? ==> after.delivery.Delivered?)
    && (stop.delivery.NotRequested? <==> after.delivery.NotRequested?)
  }

  /** Requests are only added at the end. */
  ghost predicate StopsLater(before: seq<Stop>, after: seq<Stop>) {
    |before| <= |after| && forall k :: 0 <= k < |before| ==> Later(before[k], after[k])
  }

  predicate StopEvidenced(stop: Stop) {
    && (stop.status.StopConfirmed? ==> stop.stopEvidence == Some(EngineEvidence))
    && (stop.delivery.NotRequested? ==> stop.status.StopConfirmed?)
  }

  /** The runtime sent this request, or may have. */
  predicate Supersedes(later: Stop, stop: Stop) {
    later.execution == stop.execution && !later.delivery.NotRequested?
  }

  /** A request that a later one supersedes is resolved. */
  ghost predicate LatestUnresolved(stops: seq<Stop>) {
    forall j, k :: 0 <= j < k < |stops| && Supersedes(stops[k], stops[j]) ==> !Unresolved(stops[j])
  }

  /** A request whose call is in flight is the latest one sent to its Execution. */
  ghost predicate CallsLatest(stops: Stops) {
    forall e :: e in stops.calls && stops.calls[e].StopCalling? ==>
      var k := stops.calls[e].index;
      && k < |stops.requests| && stops.requests[k].execution == e && !stops.requests[k].delivery.NotRequested?
      && forall j :: k < j < |stops.requests| ==> !Supersedes(stops.requests[j], stops.requests[k])
  }

  ghost predicate StopsEvidenced(stops: seq<Stop>) {
    forall k :: 0 <= k < |stops| ==> StopEvidenced(stops[k])
  }

  ghost predicate StopsOk(stops: Stops) {
    StopsEvidenced(stops.requests) && LatestUnresolved(stops.requests) && CallsLatest(stops)
  }

  /** `StopsOk` says in particular that an Execution has at most one unresolved request. */
  lemma OneUnresolved(stops: Stops, j: nat, k: nat)
    requires StopsOk(stops) && j < |stops.requests| && k < |stops.requests|
    requires Unresolved(stops.requests[j]) && Unresolved(stops.requests[k])
    requires stops.requests[j].execution == stops.requests[k].execution
    ensures j == k
  {
    assert StopEvidenced(stops.requests[j]) && StopEvidenced(stops.requests[k]);
    assert Supersedes(stops.requests[j], stops.requests[k]) && Supersedes(stops.requests[k], stops.requests[j]);
  }

  /** Requests of an Execution that changed were resolved, or were the latest one sent. */
  ghost predicate Settling(before: seq<Stop>, after: seq<Stop>) {
    && StopsLater(before, after)
    && (forall k :: 0 <= k < |before| && Unresolved(after[k]) && !Unresolved(before[k]) ==>
          forall j :: k < j < |after| ==> !Supersedes(after[j], after[k]))
    && (forall k :: |before| <= k < |after| ==> after[k].delivery.NotRequested?)
    && StopsEvidenced(after)
  }

  lemma SettlingKeeps(before: Stops, after: seq<Stop>)
    requires StopsOk(before) && Settling(before.requests, after)
    ensures StopsOk(before.(requests := after))
  {
    forall j, k | 0 <= j < k < |after| && Supersedes(after[k], after[j]) ensures !Unresolved(after[j]) {
      assert Later(before.requests[j], after[j]) && Later(before.requests[k], after[k]);
      assert Supersedes(before.requests[k], before.requests[j]);
    }
    forall e | e in before.calls && before.calls[e].StopCalling?
      ensures var k := before.calls[e].index;
        && k < |after| && after[k].execution == e && !after[k].delivery.NotRequested?
        && forall j :: k < j < |after| ==> !Supersedes(after[j], after[k]) {
      var k := before.calls[e].index;
      assert Later(before.requests[k], after[k]);
      forall j | k < j < |after| ensures !Supersedes(after[j], after[k]) {
        if j < |before.requests| {
          assert Later(before.requests[j], after[j]) && !Supersedes(before.requests[j], before.requests[k]);
        }
      }
    }
  }

  lemma SameStops(stops: seq<Stop>)
    requires StopsEvidenced(stops)
    ensures Settling(stops, stops)
  {
  }

  lemma ConfirmSettles(stops: seq<Stop>, e: Id)
    requires StopsEvidenced(stops)
    ensures Settling(stops, ConfirmStops(stops, e, EngineEvidence))
  {
  }

  lemma LeaveSettles(stops: seq<Stop>, e: Id)
    requires StopsEvidenced(stops)
    ensures Settling(stops, LeaveStopsUnconfirmed(stops, e))
  {
  }

  lemma AcknowledgeSettles(stops: seq<Stop>, e: Id, ack: Acknowledgement, evidence: Option<Evidence>)
    requires StopsEvidenced(stops)
    ensures var k := LatestStop(stops, e);
      k >= 0 ==> Settling(stops, stops[k := Acknowledge(stops[k], ack, evidence)])
  {
  }

  lemma StopsAfterSettles(stops: seq<Stop>, e: Id, payload: Payload)
    requires StopsEvidenced(stops)
    ensures Settling(stops, StopsAfter(stops, e, payload))
  {
    hide Settling, ConfirmStops, LeaveStopsUnconfirmed, Acknowledge;
    SameStops(stops);
    ConfirmSettles(stops, e);
    LeaveSettles(stops, e);
    if payload.InterruptionRequested? {
      AcknowledgeSettles(stops, e, payload.ack, payload.confirmation);
    }
  }

  lemma SettleStopLater(s: State, e: Id, status: StopStatus, delivery: StopDelivery, evidence: Option<Evidence>)
    requires StopsEvidenced(s.stops.requests) && !delivery.NotRequested? && !status.StopConfirmed?
    ensures var after := SettleStop(s, e, status, delivery, evidence).stops.requests;
      StopsEvidenced(after) && StopsLater(s.stops.requests, after)
  {
  }

  lemma SettleStopKeeps(s: State, e: Id, status: StopStatus, delivery: StopDelivery, evidence: Option<Evidence>)
    requires StopsOk(s.stops) && !delivery.NotRequested? && !status.StopConfirmed?
    ensures StopsOk(SettleStop(s, e, status, delivery, evidence).stops)
  {
    var after := SettleStop(s, e, status, delivery, evidence).stops;
    if after != s.stops {
      SettleStopLater(s, e, status, delivery, evidence);
      assert Settling(s.stops.requests, after.requests);
      hide Settling, SettledStop, StopsLater;
      SettlingKeeps(s.stops, after.requests);
    }
  }

  predicate StopAction(a: Action) {
    a.BeginningStop? || a.RecordingStop? || a.ReceivingStop? || a.FailingStop?
  }

  /** Sending another request keeps `StopsOk` exactly when no request of that Execution is unresolved at that moment. */
  lemma RecordStopKeeps(s: State, e: Id, ok: bool)
    requires StopsOk(s.stops)
    ensures var after := RecordStop(s, e, ok).stops;
      && StopsLater(s.stops.requests, after.requests)
      && (StopsOk(after) <==> |after.requests| == |s.stops.requests| || !HasUnresolvedStop(s.stops.requests, e))
  {
    var after := RecordStop(s, e, ok).stops;
    var n := |s.stops.requests|;
    if |after.requests| > n {
      assert forall k :: 0 <= k < n ==> after.requests[k] == s.stops.requests[k];
      if HasUnresolvedStop(s.stops.requests, e) {
        var k :| 0 <= k < n && UnresolvedOf(s.stops.requests[k], e);
        assert Supersedes(after.requests[n], after.requests[k]);
      } else {
        forall j | 0 <= j < n ensures Supersedes(after.requests[n], after.requests[j]) ==> !Unresolved(after.requests[j]) {
          assert !UnresolvedOf(s.stops.requests[j], e);
        }
      }
    }
  }

  lemma BeginStopKeeps(s: State, e: Id, ok: bool)
    requires StopsOk(s.stops)
    ensures var after := BeginStop(s, e, ok).stops; StopsOk(after) && StopsLater(s.stops.requests, after.requests)
  {
    var after := BeginStop(s, e, ok).stops;
    var n := |s.stops.requests|;
    if |after.requests| > n {
      forall j | 0 <= j < n ensures Supersedes(after.requests[n], after.requests[j]) ==> !Unresolved(after.requests[j]) {
        assert !UnresolvedOf(s.stops.requests[j], e);
      }
    }
  }

  // Events, reconciliation and restarts

  lemma DeliverSettles(s: State, i: Id, event: Event, e: Id)
    requires StopsEvidenced(s.stops.requests)
    ensures var after := Deliver(s, i, event, e).stops;
      Settling(s.stops.requests, after.requests) && after.calls == s.stops.calls
  {
    hide Settling, EndStream, TurnsAfter, Settles, LateAnswer, InteractionsAfter, StopsAfter, Ignored, StopsEvidenced;
    SameStops(s.stops.requests);
    EndStreamStops(s, i, true);
    if i in s.turns.streams {
      var found := FindExecution(s.turns.executions, s.turns.streams[i].native);
      if found.Some? {
        StopsAfterSettles(s.stops.requests, found.value, event.payload);
      }
    }
  }

  lemma EndStreamStops(s: State, i: Id, failed: bool)
    ensures EndStream(s, i, failed).stops == s.stops
  {
    hide SetUnknown, RejectInputs, DropLocators;
  }

  lemma ReconcileSettles(s: State, e: Id, status: Status, evidence: Evidence, ok: bool)
    requires StopsEvidenced(s.stops.requests)
    ensures var after := ReconcileExecution(s, e, status, evidence, ok).stops;
      Settling(s.stops.requests, after.requests) && after.calls == s.stops.calls
  {
    hide Settling, ConfirmStops, LeaveStopsUnconfirmed, SetBoth;
    SameStops(s.stops.requests);
    ConfirmSettles(s.stops.requests, e);
    LeaveSettles(s.stops.requests, e);
  }

  lemma QueueActionStops(s: State, a: Action)
    requires !QuietAction(a)
    ensures Step(s, a).stops == s.stops
  {
    hide DropLocators, FailCompactions, Decide, Claim, AllClaimable, NextPosition, Progressing, AllTakeable, Take,
      RejectInputs, PromoteCompact, InputQueue, InsertBefore, Without, Renumber;
  }

  lemma RunActionStops(s: State, a: Action)
    requires RunAction(a) && !a.Delivering? && !a.ReconcilingExecution?
    ensures Step(s, a).stops == s.stops
  {
    hide DropLocators, RejectInputs, FailCompactions, Undispatched, SetUnknown, AttachmentsHeld, FindExecution;
  }

  lemma OtherActionStops(s: State, a: Action)
    requires !StopAction(a) && !a.Delivering? && !a.ReconcilingExecution?
    ensures Step(s, a).stops.requests == s.stops.requests
    ensures Step(s, a).stops.calls == s.stops.calls || (a.Restarting? && Step(s, a).stops.calls == map[])
  {
    if !QuietAction(a) {
      QueueActionStops(s, a);
    } else if RunAction(a) {
      RunActionStops(s, a);
    } else {
      RestStops(s, a);
    }
  }

  lemma RestStops(s: State, a: Action)
    requires QuietAction(a) && !RunAction(a) && !StopAction(a)
    ensures Step(s, a).stops.requests == s.stops.requests
    ensures Step(s, a).stops.calls == s.stops.calls || (a.Restarting? && Step(s, a).stops.calls == map[])
  {
    hide RecoverUpkeep, RecoverTurns, Waiting, RejectInputs, DropLocators, SettleCompact, NextPosition, CancelInput,
      AllTakeable, Release;
  }

  /** Under any race: confirmations, deliveries and evidence are never lost. */
  lemma StepStopsLater(s: State, a: Action)
    requires StopsEvidenced(s.stops.requests)
    ensures var after := Step(s, a).stops.requests; StopsEvidenced(after) && StopsLater(s.stops.requests, after)
  {
    hide Step, Deliver, ReconcileExecution;
    if StopAction(a) {
      StopActionLater(s, a);
    } else if a.Delivering? {
      DeliverSettles(s, a.id, a.event, a.execution);
      RunSteps(s, a);
    } else if a.ReconcilingExecution? {
      ReconcileSettles(s, a.execution, a.status, a.evidence, a.ok);
      RunSteps(s, a);
    } else {
      OtherActionStops(s, a);
    }
  }

  lemma StopActionLater(s: State, a: Action)
    requires StopsEvidenced(s.stops.requests) && StopAction(a)
    ensures var after := Step(s, a).stops.requests; StopsEvidenced(after) && StopsLater(s.stops.requests, after)
  {
    hide StopsEvidenced, StopsLater, BeginStop, RecordStop, SettleStop;
    match a {
      case BeginningStop(e, ok) => BeginStopLater(s, e, ok);
      case RecordingStop(e, ok) => RecordStopLater(s, e, ok);
      case ReceivingStop(e, receipt, evidence) =>
        SettleStopLater(s, e, ReceiptStatus(receipt), ReceiptDelivery(receipt, evidence), evidence);
      case FailingStop(e, receipt, sent) =>
        SettleStopLater(s, e, ReceiptStatus(receipt), if sent then DeliveryUnknown else NotDelivered, None);
    }
  }

  lemma BeginStopLater(s: State, e: Id, ok: bool)
    requires StopsEvidenced(s.stops.requests)
    ensures var after := BeginStop(s, e, ok).stops.requests; StopsEvidenced(after) && StopsLater(s.stops.requests, after)
  {
  }

  lemma RecordStopLater(s: State, e: Id, ok: bool)
    requires StopsEvidenced(s.stops.requests)
    ensures var after := RecordStop(s, e, ok).stops.requests; StopsEvidenced(after) && StopsLater(s.stops.requests, after)
  {
  }

  /** The race that lets a second request be sent: one became unresolved during the capability probe. */
  predicate SendsSecond(s: State, a: Action) {
    && a.RecordingStop? && HasUnresolvedStop(s.stops.requests, a.execution)
    && |RecordStop(s, a.execution, a.ok).stops.requests| > |s.stops.requests|
  }

  lemma StopActionKeeps(s: State, a: Action)
    requires StopsOk(s.stops) && StopAction(a) && !SendsSecond(s, a)
    ensures StopsOk(Step(s, a).stops)
  {
    hide StopsOk, BeginStop, RecordStop, SettleStop;
    match a {
      case BeginningStop(e, ok) => BeginStopKeeps(s, e, ok);
      case RecordingStop(e, ok) => RecordStopKeeps(s, e, ok);
      case ReceivingStop(e, receipt, evidence) =>
        SettleStopKeeps(s, e, ReceiptStatus(receipt), ReceiptDelivery(receipt, evidence), evidence);
      case FailingStop(e, receipt, sent) =>
        SettleStopKeeps(s, e, ReceiptStatus(receipt), if sent then DeliveryUnknown else NotDelivered, None);
    }
  }

  lemma StepKeepsStops(s: State, a: Action)
    requires StopsOk(s.stops) && !SendsSecond(s, a)
    ensures StopsOk(Step(s, a).stops)
  {
    hide LatestUnresolved, Settling, Step, Deliver, ReconcileExecution;
    if StopAction(a) {
      StopActionKeeps(s, a);
    } else if a.Delivering? || a.ReconcilingExecution? {
      EventKeepsStops(s, a);
    } else {
      OtherActionStops(s, a);
    }
  }

  lemma EventKeepsStops(s: State, a: Action)
    requires StopsOk(s.stops) && (a.Delivering? || a.ReconcilingExecution?)
    ensures StopsOk(Step(s, a).stops)
  {
    hide LatestUnresolved, CallsLatest, StopsEvidenced, Settling, Deliver, ReconcileExecution;
    if a.Delivering? {
      DeliverSettles(s, a.id, a.event, a.execution);
    } else {
      ReconcileSettles(s, a.execution, a.status, a.evidence, a.ok);
    }
    SettlingKeeps(s.stops, Step(s, a).stops.requests);
  }

  // Whole runs

  lemma LaterTransitive(a: seq<Stop>, b: seq<Stop>, c: seq<Stop>)
    requires StopsLater(a, b) && StopsLater(b, c)
    ensures StopsLater(a, c)
  {
    forall k | 0 <= k < |a| ensures Later(a[k], c[k]) {
      assert Later(a[k], b[k]) && Later(b[k], c[k]);
    }
  }

  lemma {:induction false} RunStopsLater(s: State, actions: seq<Action>)
    requires StopsEvidenced(s.stops.requests)
    ensures var after := Run(s, actions).stops.requests; StopsEvidenced(after) && StopsLater(s.stops.requests, after)
    decreases |actions|
  {
    if actions != [] {
      var before := Run(s, actions[..|actions| - 1]);
      hide Step, StopsLater, StopsEvidenced;
      RunStopsLater(s, actions[..|actions| - 1]);
      StepStopsLater(before, actions[|actions| - 1]);
      LaterTransitive(s.stops.requests, before.stops.requests, Run(s, actions).stops.requests);
    } else {
      assert StopsLater(s.stops.requests, s.stops.requests);
    }
  }

  /** A confirmed stop stays confirmed, always by the Engine; a delivery, and not having been sent, is never forgotten. */
  lemma {:induction false} ConfirmationIsFinal(actions: seq<Action>, later: seq<Action>, k: nat)
    requires k < |Run(Fresh, actions).stops.requests|
    ensures var stop := Run(Fresh, actions).stops.requests[k];
      var after := Run(Run(Fresh, actions), later).stops.requests;
      && k < |after| && Later(stop, after[k]) && StopEvidenced(stop) && StopEvidenced(after[k])
  {
    RunStopsLater(Fresh, actions);
    RunStopsLater(Run(Fresh, actions), later);
  }

  ghost predicate WithoutRace(s: State, actions: seq<Action>)
    decreases |actions|
  {
    actions == [] ||
    var n := |actions| - 1;
    WithoutRace(s, actions[..n]) && !SendsSecond(Run(s, actions[..n]), actions[n])
  }

  lemma {:induction false} RunKeepsStops(s: State, actions: seq<Action>)
    requires StopsOk(s.stops) && WithoutRace(s, actions)
    ensures StopsOk(Run(s, actions).stops)
    decreases |actions|
  {
    if actions != [] {
      hide Step, StopsOk;
      RunKeepsStops(s, actions[..|actions| - 1]);
      StepKeepsStops(Run(s, actions[..|actions| - 1]), actions[|actions| - 1]);
    }
  }

  /** No Execution has two unresolved stop requests. */
  ghost predicate OneOpen(stops: seq<Stop>) {
    forall j, k :: 0 <= j < k < |stops| && Unresolved(stops[j]) && Unresolved(stops[k]) ==>
      stops[j].execution != stops[k].execution
  }

  lemma OkIsOneOpen(stops: Stops)
    requires StopsOk(stops)
    ensures OneOpen(stops.requests)
  {
    hide StopsOk;
    forall j, k | 0 <= j < k < |stops.requests| && Unresolved(stops.requests[j]) && Unresolved(stops.requests[k])
      ensures stops.requests[j].execution != stops.requests[k].execution {
      if stops.requests[j].execution == stops.requests[k].execution { OneUnresolved(stops, j, k); }
    }
  }

  lemma SecondIsOpen(s: State, a: Action)
    requires SendsSecond(s, a)
    ensures !OneOpen(Step(s, a).stops.requests)
  {
    var stops := RecordStop(s, a.execution, a.ok).stops.requests;
    var j :| 0 <= j < |s.stops.requests| && UnresolvedOf(s.stops.requests[j], a.execution);
    assert stops[j] == s.stops.requests[j] && Unresolved(stops[|stops| - 1]);
  }

  ghost predicate OneOpenThroughout(actions: seq<Action>) {
    forall k :: 0 <= k <= |actions| ==> OneOpen(Run(Fresh, actions[..k]).stops.requests)
  }

  lemma ThroughoutNext(actions: seq<Action>)
    requires actions != []
    ensures OneOpenThroughout(actions) <==>
      OneOpenThroughout(actions[..|actions| - 1]) && OneOpen(Run(Fresh, actions).stops.requests)
  {
    hide OneOpen, Run;
    var n := |actions| - 1;
    var before := actions[..n];
    assert actions[..n + 1] == actions;
    assert forall k :: 0 <= k <= n ==> before[..k] == actions[..k];
    if OneOpenThroughout(actions) {
      assert OneOpen(Run(Fresh, actions[..n + 1]).stops.requests);
      forall k | 0 <= k <= n ensures OneOpen(Run(Fresh, before[..k]).stops.requests) {
        assert OneOpen(Run(Fresh, actions[..k]).stops.requests);
      }
    } else {
      var k :| 0 <= k <= n + 1 && !OneOpen(Run(Fresh, actions[..k]).stops.requests);
      assert k <= n ==> !OneOpen(Run(Fresh, before[..k]).stops.requests);
    }
  }

  /** No Execution has two unresolved stop requests at any moment of a run exactly when the race never happens in it. */
  lemma {:induction false} OneUnresolvedExactlyWhen(actions: seq<Action>)
    ensures OneOpenThroughout(actions) <==> WithoutRace(Fresh, actions)
    decreases |actions|
  {
    hide Step, OneOpen, OneOpenThroughout, StopsOk, SendsSecond;
    FreshStops();
    if actions == [] {
      NothingOpen();
    } else {
      var n := |actions| - 1;
      ThroughoutNext(actions);
      OneUnresolvedExactlyWhen(actions[..n]);
      if WithoutRace(Fresh, actions) {
        RunKeepsStops(Fresh, actions);
        OkIsOneOpen(Run(Fresh, actions).stops);
      } else if WithoutRace(Fresh, actions[..n]) {
        SecondIsOpen(Run(Fresh, actions[..n]), actions[n]);
      }
    }
  }

  lemma NothingOpen()
    ensures OneOpenThroughout([])
  {
    var none: seq<Action> := [];
    assert none[..0] == none;
  }

  lemma FreshStops()
    ensures StopsOk(Fresh.stops)
  {
  }

  // What a run has to avoid

  predicate ProbesStop(s: State, e: Id) {
    e in s.stops.calls && s.stops.calls[e].StopProbing?
  }

  /** The engine acknowledges a stop of an Execution whose next stop request waits for the capability probe. */
  ghost predicate AcknowledgesDuringProbe(s: State, a: Action) {
    && a.Delivering? && a.event.payload.InterruptionRequested? && a.id in s.turns.streams
    && var found := FindExecution(s.turns.executions, s.turns.streams[a.id].native);
       found.Some? && ProbesStop(s, found.value)
  }

  /** No event acknowledges a stop of an Execution while that Execution is probed for another one. */
  ghost predicate ProbesUndisturbed(s: State, actions: seq<Action>)
    decreases |actions|
  {
    actions == [] ||
    var n := |actions| - 1;
    ProbesUndisturbed(s, actions[..n]) && !AcknowledgesDuringProbe(Run(s, actions[..n]), actions[n])
  }

  ghost predicate ProbedResolved(s: State) {
    forall e :: ProbesStop(s, e) ==> !HasUnresolvedStop(s.stops.requests, e)
  }

  lemma SettlingResolves(before: seq<Stop>, after: seq<Stop>, e: Id)
    requires |before| <= |after| && !HasUnresolvedStop(before, e)
    requires forall k :: 0 <= k < |before| && after[k].execution == e && Unresolved(after[k]) ==>
      before[k].execution == e && Unresolved(before[k])
    requires forall k :: |before| <= k < |after| && after[k].execution == e ==> !Unresolved(after[k])
    ensures !HasUnresolvedStop(after, e)
  {
    forall k | 0 <= k < |after| ensures !UnresolvedOf(after[k], e) {
      if k < |before| { assert !UnresolvedOf(before[k], e); }
    }
  }

  lemma StopActionProbes(s: State, a: Action)
    requires StopsOk(s.stops) && ProbedResolved(s) && StopAction(a)
    ensures ProbedResolved(Step(s, a))
  {
    hide LatestUnresolved, StopsEvidenced, SettledStop, HasUnresolvedStop;
    var s' := Step(s, a);
    forall e | ProbesStop(s', e) ensures !HasUnresolvedStop(s'.stops.requests, e) {
      if s'.stops.requests != s.stops.requests {
        hide CallsLatest;
        OtherRequests(s, a, e);
      }
    }
  }

  /** What a stop action does to the requests of an Execution that it leaves probed. */
  lemma OtherRequests(s: State, a: Action, e: Id)
    requires StopsOk(s.stops) && StopAction(a) && ProbesStop(Step(s, a), e)
    requires Step(s, a).stops.requests != s.stops.requests
    ensures ProbesStop(s, e)
    ensures !HasUnresolvedStop(s.stops.requests, e) ==> !HasUnresolvedStop(Step(s, a).stops.requests, e)
  {
    hide LatestUnresolved, StopsEvidenced, HasUnresolvedStop;
    ChangesOthers(s, a, e);
    if !HasUnresolvedStop(s.stops.requests, e) {
      hide Step;
      SettlingResolves(s.stops.requests, Step(s, a).stops.requests, e);
    }
  }

  /** Requests of `e` stay as they are. */
  ghost predicate ChangesElsewhere(before: seq<Stop>, after: seq<Stop>, e: Id) {
    && |before| <= |after|
    && (forall k :: 0 <= k < |before| && after[k].execution == e ==> after[k] == before[k])
    && (forall k :: |before| <= k < |after| ==> after[k].execution != e)
  }

  lemma ChangesOthers(s: State, a: Action, e: Id)
    requires CallsLatest(s.stops) && StopAction(a) && ProbesStop(Step(s, a), e)
    ensures Step(s, a).stops.requests != s.stops.requests ==>
      ProbesStop(s, e) && ChangesElsewhere(s.stops.requests, Step(s, a).stops.requests, e)
  {
    hide ChangesElsewhere, SettleCall, CallsLatest, ProbesStop, BeginStop, RecordStop;
    match a {
      case BeginningStop(x, ok) => BeginsElsewhere(s, x, ok, e);
      case RecordingStop(x, ok) => RecordsElsewhere(s, x, ok, e);
      case ReceivingStop(x, receipt, evidence) =>
        SettlesElsewhere(s, x, ReceiptStatus(receipt), ReceiptDelivery(receipt, evidence), evidence, e);
      case FailingStop(x, receipt, sent) =>
        SettlesElsewhere(s, x, ReceiptStatus(receipt), if sent then DeliveryUnknown else NotDelivered, None, e);
    }
  }

  lemma BeginsElsewhere(s: State, x: Id, ok: bool, e: Id)
    requires ProbesStop(BeginStop(s, x, ok), e)
    ensures BeginStop(s, x, ok).stops.requests != s.stops.requests ==>
      ProbesStop(s, e) && ChangesElsewhere(s.stops.requests, BeginStop(s, x, ok).stops.requests, e)
  {
  }

  lemma RecordsElsewhere(s: State, x: Id, ok: bool, e: Id)
    requires ProbesStop(RecordStop(s, x, ok), e)
    ensures RecordStop(s, x, ok).stops.requests != s.stops.requests ==>
      ProbesStop(s, e) && ChangesElsewhere(s.stops.requests, RecordStop(s, x, ok).stops.requests, e)
  {
  }

  lemma SettlesElsewhere(
      s: State, x: Id, status: StopStatus, delivery: StopDelivery, evidence: Option<Evidence>, e: Id)
    requires CallsLatest(s.stops) && ProbesStop(SettleStop(s, x, status, delivery, evidence), e)
    ensures var after := SettleStop(s, x, status, delivery, evidence).stops.requests;
      after != s.stops.requests ==> ProbesStop(s, e) && ChangesElsewhere(s.stops.requests, after, e)
  {
    hide Supersedes;
  }

  lemma SettledProbes(before: seq<Stop>, after: seq<Stop>, e: Id)
    requires Settling(before, after) && !HasUnresolvedStop(before, e)
    requires forall k :: 0 <= k < |before| && after[k].execution == e && Unresolved(after[k]) ==> Unresolved(before[k])
    ensures !HasUnresolvedStop(after, e)
  {
    forall k | 0 <= k < |before| ensures after[k].execution == before[k].execution {
      assert Later(before[k], after[k]);
    }
    forall k | |before| <= k < |after| ensures !Unresolved(after[k]) {
      assert StopEvidenced(after[k]);
    }
    SettlingResolves(before, after, e);
  }

  /** An event other than an acknowledgement makes no request unresolved again. */
  lemma StopsAfterResolves(stops: seq<Stop>, x: Id, payload: Payload)
    ensures var after := StopsAfter(stops, x, payload);
      |stops| <= |after| && forall k :: 0 <= k < |stops| ==>
        && after[k].execution == stops[k].execution
        && (Unresolved(after[k]) ==> Unresolved(stops[k]) || (payload.InterruptionRequested? && stops[k].execution == x))
  {
  }

  lemma DeliverProbes(s: State, a: Action)
    requires StopsOk(s.stops) && ProbedResolved(s) && a.Delivering? && !AcknowledgesDuringProbe(s, a)
    ensures ProbedResolved(Deliver(s, a.id, a.event, a.execution))
  {
    hide StopsAfter, Settling, LatestUnresolved, CallsLatest, TurnsAfter, Settles, LateAnswer, InteractionsAfter, Ignored,
      EndStream, HasUnresolvedStop, FindExecution;
    var s' := Deliver(s, a.id, a.event, a.execution);
    DeliverSettles(s, a.id, a.event, a.execution);
    EndStreamStops(s, a.id, true);
    forall e | ProbesStop(s', e) ensures !HasUnresolvedStop(s'.stops.requests, e) {
      assert ProbesStop(s, e);
      if s'.stops.requests != s.stops.requests {
        var x := FindExecution(s.turns.executions, s.turns.streams[a.id].native).value;
        StopsAfterResolves(s.stops.requests, x, a.event.payload);
        SettledProbes(s.stops.requests, s'.stops.requests, e);
      }
    }
  }

  lemma ReconcileProbes(s: State, a: Action)
    requires StopsOk(s.stops) && ProbedResolved(s) && a.ReconcilingExecution?
    ensures ProbedResolved(Step(s, a))
  {
    hide LatestUnresolved, CallsLatest, SetBoth, HasUnresolvedStop, Settling;
    var s' := Step(s, a);
    ReconcileSettles(s, a.execution, a.status, a.evidence, a.ok);
    forall e | ProbesStop(s', e) ensures !HasUnresolvedStop(s'.stops.requests, e) {
      assert ProbesStop(s, e);
      SettledProbes(s.stops.requests, s'.stops.requests, e);
    }
  }

  lemma StepProbes(s: State, a: Action)
    requires StopsOk(s.stops) && ProbedResolved(s) && !AcknowledgesDuringProbe(s, a)
    ensures ProbedResolved(Step(s, a)) && !SendsSecond(s, a)
  {
    hide StopsOk, Step, Deliver, HasUnresolvedStop, RecordStop;
    if StopAction(a) {
      StopActionProbes(s, a);
      if a.RecordingStop? { UnprobedSendsNothing(s, a.execution, a.ok); }
    } else if a.Delivering? {
      RunSteps(s, a);
      DeliverProbes(s, a);
    } else if a.ReconcilingExecution? {
      ReconcileProbes(s, a);
    } else {
      OtherActionStops(s, a);
    }
  }

  lemma UnprobedSendsNothing(s: State, e: Id, ok: bool)
    ensures !ProbesStop(s, e) ==> RecordStop(s, e, ok) == s
  {
  }

  /** A run in which no probe is disturbed has no race. */
  lemma {:induction false} UndisturbedRun(actions: seq<Action>)
    requires ProbesUndisturbed(Fresh, actions)
    ensures WithoutRace(Fresh, actions) && ProbedResolved(Run(Fresh, actions))
    decreases |actions|
  {
    if actions != [] {
      var n := |actions| - 1;
      hide Step, StopsOk, ProbedResolved, SendsSecond, AcknowledgesDuringProbe;
      UndisturbedRun(actions[..n]);
      FreshStops();
      RunKeepsStops(Fresh, actions[..n]);
      StepProbes(Run(Fresh, actions[..n]), actions[n]);
    }
  }

  /**
   As long as no event acknowledges a stop of an Execution that is being probed, no Execution ever has two unresolved
   stop requests.
   */
  lemma {:induction false} OneUnresolvedAlways(actions: seq<Action>)
    requires ProbesUndisturbed(Fresh, actions)
    ensures OneOpen(Run(Fresh, actions).stops.requests)
  {
    hide OneOpen, Run, ProbedResolved, StopsOk;
    UndisturbedRun(actions);
    FreshStops();
    RunKeepsStops(Fresh, actions);
    OkIsOneOpen(Run(Fresh, actions).stops);
  }
}
