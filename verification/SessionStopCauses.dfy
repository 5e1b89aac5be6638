/** Why a stop request changes: what every step does to every request, told by what the engine said. */
module SessionStopCauses {
  import opened Wrappers
  import opened SessionState
  import opened SessionSteps
  import opened SessionStops
  import opened SessionResults
  import opened SessionReports

  /** The call of `engine.interrupt` for this request has come back, or has thrown. */
  predicate Returns(s: State, a: Action, k: nat) {
    && (a.ReceivingStop? || a.FailingStop?) && k < |s.stops.requests|
    && a.execution in s.stops.calls && s.stops.calls[a.execution] == StopCalling(k)
  }

  /** A stop that nobody may be waiting for: there is neither an unresolved nor a confirmed request. */
  ghost predicate Unawaited(stops: seq<Stop>, e: Id) {
    forall k :: 0 <= k < |stops| && stops[k].execution == e ==> !Unresolved(stops[k]) && !stops[k].status.StopConfirmed?
  }

  /** The step adds a request of `e`: one to be sent, one that cannot be sent, or a stop that was never requested. */
  ghost predicate Adds(s: State, a: Action, e: Id) {
    || (a.RecordingStop? && a.execution == e && a.ok && OpenExecution(s.turns, e)
        && e in s.stops.calls && s.stops.calls[e].StopProbing?)
    || (a.BeginningStop? && a.execution == e && a.ok && OpenExecution(s.turns, e) && !s.attached && e !in s.stops.calls
        && forall k :: 0 <= k < |s.stops.requests| && s.stops.requests[k].execution == e ==> !Unresolved(s.stops.requests[k]))
    || (Ends(s, a, e, Stopped) && Unawaited(s.stops.requests, e))
  }

  // What the step does, kind by kind

  lemma ReconcilingEffect(s: State, a: Action, e: Id)
    requires Reconciling(s, a, e)
    ensures Step(s, a).stops.requests
         == if a.status.Stopped? then ConfirmStops(s.stops.requests, e, EngineEvidence)
            else LeaveStopsUnconfirmed(s.stops.requests, e)
  {
    hide Step, ConfirmStops, LeaveStopsUnconfirmed;
    RunSteps(s, a);
  }

  lemma UnaffectedStops(s: State, a: Action)
    requires Evidenced(s.turns.executions)
    requires !StopAction(a) && forall e :: !Hears(s, a, e) && !Reconciling(s, a, e)
    ensures Step(s, a).stops.requests == s.stops.requests
  {
    hide Step, Evidenced, Hears, ConfirmStops, LeaveStopsUnconfirmed;
    if a.Delivering? {
      UnheardEffect(s, a);
    } else if a.ReconcilingExecution? {
      RunSteps(s, a);
      assert !Reconciling(s, a, a.execution);
    } else {
      OtherActionStops(s, a);
    }
  }

  /** What the engine says about the end of `e` does to the requests: nothing else that it says ends them. */
  lemma EndsEffect(s: State, a: Action, e: Id, status: Status)
    requires Evidenced(s.turns.executions) && Ends(s, a, e, status)
    ensures Step(s, a).stops.requests
         == if status.Stopped? then ConfirmStops(s.stops.requests, e, EngineEvidence)
            else LeaveStopsUnconfirmed(s.stops.requests, e)
  {
    hide Step, Evidenced, Counts, ConfirmStops, LeaveStopsUnconfirmed;
    if Hears(s, a, e) {
      HearsEffect(s, a, e);
    } else {
      ReconcilingEffect(s, a, e);
    }
  }

  /** An event that ends nothing changes the latest request only, when it acknowledges a stop. */
  lemma HeardEffect(s: State, a: Action, e: Id)
    requires Evidenced(s.turns.executions) && Hears(s, a, e)
    requires !Ends(s, a, e, Completed) && !Ends(s, a, e, Failed) && !Ends(s, a, e, Stopped) && !Ends(s, a, e, Unknown)
    ensures var after := Step(s, a).stops.requests; var k := LatestStop(s.stops.requests, e);
      after == if a.event.payload.InterruptionRequested? && k >= 0
               then s.stops.requests[k := Acknowledge(s.stops.requests[k], a.event.payload.ack, a.event.payload.confirmation)]
               else s.stops.requests
  {
    hide Step, Evidenced, LatestStop, Acknowledge;
    HearsEffect(s, a, e);
  }

  /** The engine speaks of one Execution at a time, and says one thing. */
  lemma OneEnd(s: State, a: Action, e: Id, f: Id, status: Status, other: Status)
    requires Evidenced(s.turns.executions) && Ends(s, a, e, status) && Ends(s, a, f, other)
    ensures e == f && status == other
  {
    assert e in s.turns.executions && f in s.turns.executions;
  }

  /** The step ends no Execution: then it changes this request only for an acknowledgement or a receipt. */
  lemma WithoutEnd(s: State, a: Action, k: nat)
    requires Evidenced(s.turns.executions) && k < |s.stops.requests|
    requires forall e, status :: !Ends(s, a, e, status)
    ensures var stop, after := s.stops.requests[k], Step(s, a).stops.requests;
      && k < |after|
      && (after[k] != stop ==> Hears(s, a, stop.execution) || Returns(s, a, k))
      && (after[k].status.StopConfirmed? ==> stop.status.StopConfirmed?)
  {
    hide Step, Evidenced, Hears, Ends;
    if StopAction(a) {
      StopActionEffect(s, a, k);
    } else if e :| Hears(s, a, e) {
      assert forall status :: !Ends(s, a, e, status);
      HeardEffect(s, a, e);
    } else {
      assert forall e :: !Reconciling(s, a, e) by {
        forall e ensures !Reconciling(s, a, e) {
          if Reconciling(s, a, e) { ReconcilingEnds(s, a, e); }
        }
      }
      UnaffectedStops(s, a);
    }
  }

  lemma ReconcilingEnds(s: State, a: Action, e: Id)
    requires Reconciling(s, a, e)
    ensures Ends(s, a, e, a.status)
  {
  }

  lemma StopActionEffect(s: State, a: Action, k: nat)
    requires StopAction(a) && k < |s.stops.requests|
    ensures var stop, after := s.stops.requests[k], Step(s, a).stops.requests;
      && k < |after| && (after[k] != stop ==> Returns(s, a, k))
      && (after[k].status.StopConfirmed? ==> stop.status.StopConfirmed?)
  {
    hide Step, HasUnresolvedStop, MergeDelivery, KeepEngineEvidence;
    StopSteps(s, a);
  }

  // Every request, in every step

  /**
   A request is confirmed exactly by a step in which the engine says that its open Execution stopped, and only if it was
   unresolved; the evidence is the engine's.
   */
  lemma ConfirmedExactlyWhen(s: State, a: Action, k: nat)
    requires Evidenced(s.turns.executions) && k < |s.stops.requests|
    ensures var stop, after := s.stops.requests[k], Step(s, a).stops.requests;
      && k < |after|
      && (!stop.status.StopConfirmed? && after[k].status.StopConfirmed? <==>
            Ends(s, a, stop.execution, Stopped) && Unresolved(stop))
      && (!stop.status.StopConfirmed? && after[k].status.StopConfirmed? ==> after[k].stopEvidence == Some(EngineEvidence))
  {
    hide Step, Evidenced, Hears, Ends;
    var stop := s.stops.requests[k];
    if e, status :| Ends(s, a, e, status) {
      EndsEffect(s, a, e, status);
      if Ends(s, a, stop.execution, Stopped) {
        OneEnd(s, a, e, stop.execution, status, Stopped);
        if Unresolved(stop) { AwaitedHere(s.stops.requests, k); }
      }
    } else {
      WithoutEnd(s, a, k);
    }
  }

  lemma AwaitedHere(stops: seq<Stop>, k: nat)
    requires k < |stops| && Unresolved(stops[k])
    ensures AwaitsConfirmation(stops, stops[k].execution)
  {
  }

  /** When an Execution stopped, none of its requests is left unresolved, and one of them is confirmed. */
  lemma StoppedSettlesAll(s: State, a: Action, e: Id)
    requires Evidenced(s.turns.executions) && Ends(s, a, e, Stopped)
    ensures var after := Step(s, a).stops.requests;
      && (forall k :: 0 <= k < |after| && after[k].execution == e ==> !Unresolved(after[k]))
      && (exists k :: 0 <= k < |after| && after[k].execution == e && after[k].status.StopConfirmed?)
  {
    hide Step, Evidenced, Ends;
    EndsEffect(s, a, e, Stopped);
    var after := Step(s, a).stops.requests;
    if AwaitsConfirmation(s.stops.requests, e) {
      var k :| 0 <= k < |s.stops.requests| && s.stops.requests[k].execution == e
               && (Unresolved(s.stops.requests[k]) || s.stops.requests[k].status.StopConfirmed?);
      assert after[k].execution == e && after[k].status.StopConfirmed?;
    } else {
      assert after[|after| - 1].execution == e && after[|after| - 1].status.StopConfirmed?;
      forall k | 0 <= k < |s.stops.requests| && s.stops.requests[k].execution == e ensures !Unresolved(after[k]) {
      }
    }
  }

  /** When it completed, failed or got lost, its unresolved requests are unknown, a delivery that was pending too. */
  lemma EndLeavesUnknown(s: State, a: Action, e: Id, status: Status, k: nat)
    requires Evidenced(s.turns.executions) && Ends(s, a, e, status) && !status.Stopped?
    requires k < |s.stops.requests| && s.stops.requests[k].execution == e
    ensures var stop, after := s.stops.requests[k], Step(s, a).stops.requests;
      && |after| == |s.stops.requests|
      && (Unresolved(stop) ==>
            && after[k].status.StopUnknown?
            && after[k].delivery == (if stop.delivery.Pending? then DeliveryUnknown else stop.delivery)
            && after[k].deliveryEvidence == stop.deliveryEvidence && after[k].stopEvidence == stop.stopEvidence)
      && (!Unresolved(stop) ==> after[k] == stop)
  {
    hide Step, Evidenced, Ends;
    EndsEffect(s, a, e, status);
  }

  /** A request changes only when the engine ends or acknowledges its own Execution, or its own call comes back. */
  lemma OthersStay(s: State, a: Action, k: nat)
    requires Evidenced(s.turns.executions) && k < |s.stops.requests|
    ensures var stop, after := s.stops.requests[k], Step(s, a).stops.requests;
      k < |after| && (after[k] != stop ==>
                        Hears(s, a, stop.execution) || Reconciling(s, a, stop.execution) || Returns(s, a, k))
  {
    hide Step, Evidenced, Hears;
    if e, status :| Ends(s, a, e, status) {
      EndsEffect(s, a, e, status);
    } else {
      WithoutEnd(s, a, k);
    }
  }

  /** What an acknowledgement makes of a request that was sent. */
  predicate Acknowledged(stop: Stop, after: Stop, ack: Acknowledgement, confirmation: Option<Evidence>) {
    && after.execution == stop.execution && after.stopEvidence == stop.stopEvidence
    && after.status == (if stop.status.StopConfirmed? then StopConfirmed
                        else match ack
                          case AckRequested => StopRequested
                          case AckUnsupported => StopUnsupported
                          case AckUnavailable => StopUnavailable
                          case AckUnknown => StopUnknown)
    && after.delivery == (if stop.delivery.Delivered? || (ack.AckRequested? && confirmation == Some(EngineEvidence))
                          then Delivered
                          else if ack.AckRequested? || ack.AckUnknown? then DeliveryUnknown else NotDelivered)
    && after.deliveryEvidence
       == if confirmation == Some(EngineEvidence) then Some(EngineEvidence) else stop.deliveryEvidence
  }

  lemma AcknowledgesAs(stop: Stop, ack: Acknowledgement, confirmation: Option<Evidence>)
    requires !stop.delivery.NotRequested?
    ensures Acknowledged(stop, Acknowledge(stop, ack, confirmation), ack, confirmation)
  {
  }

  /** An acknowledgement goes to the latest request, unless that one stands for a stop that nobody requested. */
  lemma AcknowledgesLatest(s: State, a: Action, e: Id, k: nat)
    requires Evidenced(s.turns.executions) && Hears(s, a, e) && a.event.payload.InterruptionRequested?
    requires k < |s.stops.requests| && s.stops.requests[k].execution == e
    ensures var stop, after := s.stops.requests[k], Step(s, a).stops.requests;
      && |after| == |s.stops.requests|
      && if (exists j :: k < j < |s.stops.requests| && s.stops.requests[j].execution == e) || stop.delivery.NotRequested?
         then after[k] == stop
         else Acknowledged(stop, after[k], a.event.payload.ack, a.event.payload.confirmation)
  {
    hide Step, Evidenced, Counts, Acknowledged;
    HearsEffect(s, a, e);
    var latest := LatestStop(s.stops.requests, e);
    var stop := s.stops.requests[k];
    assert latest >= k;
    if !stop.delivery.NotRequested? {
      AcknowledgesAs(stop, a.event.payload.ack, a.event.payload.confirmation);
    }
    if exists j :: k < j < |s.stops.requests| && s.stops.requests[j].execution == e {
      assert latest > k;
    } else {
      assert latest == k;
    }
  }

  /** A receipt, or a failure, decides its own request, unless the Execution ended meanwhile or the stop was confirmed. */
  lemma ReturnDecides(s: State, a: Action, k: nat)
    requires Returns(s, a, k)
    ensures var stop, after, receipt := s.stops.requests[k], Step(s, a).stops.requests, a.receipt;
      && |after| == |s.stops.requests| && after[k].stopEvidence == stop.stopEvidence
      && after[k].status == (if stop.status.StopConfirmed? then StopConfirmed
                             else if !OpenExecution(s.turns, a.execution) then StopUnknown
                             else match receipt
                               case ReceiptRequested => StopRequested
                               case ReceiptClosed => StopUnknown
                               case ReceiptUnsupported => StopUnsupported
                               case ReceiptUnavailable => StopUnavailable
                               case ReceiptUnauthorized => StopUnauthorized
                               case ReceiptUnknown => StopUnknown)
      && (stop.delivery.NotRequested? ==> after[k].delivery.NotRequested?)
      && (!stop.delivery.NotRequested? ==>
            (after[k].delivery.Delivered? <==>
               stop.delivery.Delivered?
               || (a.ReceivingStop? && receipt.ReceiptRequested? && a.confirmation == Some(EngineEvidence))))
      && (!stop.delivery.NotRequested? && !after[k].delivery.Delivered? ==>
            after[k].delivery
            == if a.FailingStop? then (if a.sent then DeliveryUnknown else NotDelivered)
               else if receipt.ReceiptRequested? || receipt.ReceiptUnknown? then DeliveryUnknown else NotDelivered)
  {
    hide Step;
    StopSteps(s, a);
  }

  /** A request is added exactly when one is sent, when it cannot be sent, or when an Execution stopped unrequested. */
  lemma AddedExactlyWhen(s: State, a: Action)
    requires Evidenced(s.turns.executions)
    ensures var before, after := s.stops.requests, Step(s, a).stops.requests;
      && |before| <= |after| <= |before| + 1
      && (forall e :: Adds(s, a, e) <==> |after| > |before| && after[|before|].execution == e)
      && (|after| > |before| ==>
            after[|before|] == if a.RecordingStop? then Stop(a.execution, StopRequested, Pending, None, None)
                               else if a.BeginningStop? then Stop(a.execution, StopUnknown, NotDelivered, None, None)
                               else Stop(after[|before|].execution, StopConfirmed, NotRequested, None, Some(EngineEvidence)))
  {
    hide Step, Evidenced, Hears, Ends;
    if StopAction(a) {
      NoEndInStop(s, a);
      StopSteps(s, a);
    } else if e, status :| Ends(s, a, e, status) {
      EndsEffect(s, a, e, status);
      UnawaitedIff(s.stops.requests, e);
      forall f | Ends(s, a, f, Stopped) ensures f == e && status == Stopped {
        OneEnd(s, a, e, f, status, Stopped);
      }
    } else if e :| Hears(s, a, e) {
      assert forall status :: !Ends(s, a, e, status);
      HeardEffect(s, a, e);
    } else {
      forall e ensures !Reconciling(s, a, e) {
        if Reconciling(s, a, e) { ReconcilingEnds(s, a, e); }
      }
      UnaffectedStops(s, a);
    }
  }

  lemma UnawaitedIff(stops: seq<Stop>, e: Id)
    ensures Unawaited(stops, e) <==> !AwaitsConfirmation(stops, e)
  {
  }

  lemma NoEndInStop(s: State, a: Action)
    requires StopAction(a)
    ensures forall e, status :: !Ends(s, a, e, status)
  {
  }

  /** A stop may be asked for: the Execution is open, no call for it is in flight, and no request of it is unresolved. */
  ghost predicate MayStop(s: State, e: Id) {
    && e in s.turns.executions && s.turns.executions[e].status !in {Completed, Failed, Stopped}
    && e !in s.stops.calls
    && forall k :: 0 <= k < |s.stops.requests| && s.stops.requests[k].execution == e ==>
         s.stops.requests[k].status !in {StopRequested, StopUnknown}
  }

  /** A call begins with a probe, sends one request while the Execution is open, and is over when an answer comes. */
  lemma CallsBeginAndEnd(s: State, a: Action, e: Id)
    requires (a.BeginningStop? || a.RecordingStop? || a.ReceivingStop? || a.FailingStop?) && a.execution == e
    ensures var before, after := s.stops.calls, Step(s, a).stops.calls;
      && (a.BeginningStop? ==>
            after == if a.ok && s.attached && MayStop(s, e) then before[e := StopProbing] else before)
      && (a.RecordingStop? ==>
            after == if e in before && before[e] == StopProbing
                     then if a.ok && OpenExecution(s.turns, e) then before[e := StopCalling(|s.stops.requests|)] else before - {e}
                     else before)
      && (a.ReceivingStop? || a.FailingStop? ==>
            after == if e in before && before[e].StopCalling? && before[e].index < |s.stops.requests| then before - {e}
                     else before)
  {
    hide Step;
    StopSteps(s, a);
  }
}
