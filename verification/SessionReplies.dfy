/** What becomes of approvals and user-input requests: opened, answered, and rejected when their Execution ends. */
module SessionReplies {
  import opened Wrappers
  import opened SessionState
  import opened SessionSteps
  import opened SessionQuiet
  import opened SessionResults
  import opened SessionReports

  /** The first request of `e` of that kind under the control handle. */
  ghost predicate First(xs: seq<Interaction>, k: nat, kind: InteractionKind, e: Id, control: NativeId) {
    && k < |xs| && xs[k].kind == kind && xs[k].execution == e && xs[k].control == control
    && forall j :: 0 <= j < k ==> !(xs[j].kind == kind && xs[j].execution == e && xs[j].control == control)
  }

  lemma FindsFirst(xs: seq<Interaction>, kind: InteractionKind, e: Id, control: NativeId)
    ensures var k := FindInteraction(xs, kind, e, control);
      (k < |xs| ==> First(xs, k, kind, e, control)) && forall j :: First(xs, j, kind, e, control) ==> j == k
  {
    NoneEarlier(xs, kind, e, control);
  }

  lemma {:induction false} NoneEarlier(xs: seq<Interaction>, kind: InteractionKind, e: Id, control: NativeId)
    ensures forall j :: 0 <= j < FindInteraction(xs, kind, e, control) ==> !Answers(xs[j], kind, e, control)
  {
    if xs != [] && !Answers(xs[0], kind, e, control) {
      NoneEarlier(xs[1..], kind, e, control);
      forall j | 0 <= j < FindInteraction(xs, kind, e, control) ensures !Answers(xs[j], kind, e, control) {
        if j > 0 { assert xs[1..][j - 1] == xs[j]; }
      }
    }
  }

  /** The pending requests of `e` are rejected. */
  ghost predicate PendingRejected(xs: seq<Interaction>, ys: seq<Interaction>, e: Id) {
    && |ys| == |xs|
    && forall k :: 0 <= k < |xs| ==>
         ys[k] == if xs[k].execution == e && xs[k].status == ReplyPending then xs[k].(status := ReplyRejected) else xs[k]
  }

  /** The first such request gets the answer, if there is one; a reply without text keeps the earlier text. */
  ghost predicate Answered(
      xs: seq<Interaction>, ys: seq<Interaction>, e: Id, kind: InteractionKind, control: NativeId, reply: ReplyStatus,
      answer: Option<string>) {
    && |ys| == |xs|
    && forall k :: 0 <= k < |xs| ==>
         ys[k] == if First(xs, k, kind, e, control)
                  then xs[k].(status := reply, reply := if answer.Some? then answer else xs[k].reply)
                  else xs[k]
  }

  lemma AnswersFirst(
      xs: seq<Interaction>, e: Id, kind: InteractionKind, control: NativeId, reply: ReplyStatus, answer: Option<string>)
    ensures var k := FindInteraction(xs, kind, e, control);
      Answered(xs, if k == |xs| then xs else xs[k := Answer(xs[k], reply, answer)], e, kind, control, reply, answer)
  {
    FindsFirst(xs, kind, e, control);
  }

  /** An event that reaches the open Execution `e`: the requests that it opens, answers or ends. */
  lemma HeardReplies(s: State, a: Action, e: Id)
    requires Evidenced(s.turns.executions) && Hears(s, a, e)
    ensures var xs, ys := s.journal.interactions, Step(s, a).journal.interactions;
      match a.event.payload
      case InteractionRequested(kind, control) => ys == xs + [Interaction(kind, e, control, ReplyPending, None)]
      case InteractionResponse(kind, control, reply, answer, _) => Answered(xs, ys, e, kind, control, reply, answer)
      case _ =>
        if a.event.payload in
             {ExecutionCompleted(EngineEvidence), ExecutionFailed(EngineEvidence), ExecutionStopped(EngineEvidence)}
        then PendingRejected(xs, ys, e) else ys == xs
  {
    hide Step, Evidenced, Counts, Answered, First, FindInteraction;
    HearsEffect(s, a, e);
    match a.event.payload {
      case InteractionResponse(kind, control, reply, answer, _) =>
        AnswersFirst(s.journal.interactions, e, kind, control, reply, answer);
      case _ =>
    }
  }

  /** A confirmed answer to a user-input request arrives after its Execution `e` ended. */
  ghost predicate AnswersLate(s: State, a: Action, e: Id, control: NativeId, answer: string) {
    && a.Delivering? && a.id in s.turns.streams && a.id in s.turns.inputs && a.execution !in s.turns.executions
    && e in s.turns.executions && s.turns.executions[e].native == s.turns.streams[a.id].native
    && s.turns.executions[e].status in {Completed, Failed, Stopped}
    && Counts(s.journal.events, s.turns.streams[a.id].native, a.event) && a.event.source == AdapterEvidence
    && a.event.payload == InteractionResponse(UserInput, control, Forwarded, Some(answer), Some(EngineEvidence))
  }

  /** It is recorded unless the request was answered already. */
  lemma LateReplies(s: State, a: Action, e: Id, control: NativeId, answer: string)
    requires Evidenced(s.turns.executions) && AnswersLate(s, a, e, control, answer)
    ensures var xs, ys := s.journal.interactions, Step(s, a).journal.interactions;
      && |ys| == |xs|
      && forall k :: 0 <= k < |xs| ==>
           ys[k] == if First(xs, k, UserInput, e, control) && xs[k].reply == None
                    then xs[k].(status := Forwarded, reply := Some(answer)) else xs[k]
  {
    hide Step, Evidenced, Counts, Ignored, TurnsAfter, Settles, MarkTerminal, StopsAfter, InteractionsAfter, FindExecution,
      First, FindInteraction;
    RunSteps(s, a);
    FindsOnly(s.turns.executions, e);
    CountsUnlessIgnored(s.journal.events, s.turns.streams[a.id].native, a.event);
    FindsFirst(s.journal.interactions, UserInput, e, control);
  }

  /** Every other step leaves approvals and user-input requests alone. */
  lemma RepliesStay(s: State, a: Action)
    requires Evidenced(s.turns.executions)
    requires (forall e :: !Hears(s, a, e)) && forall e, control, answer :: !AnswersLate(s, a, e, control, answer)
    ensures Step(s, a).journal.interactions == s.journal.interactions
  {
    hide Step, Evidenced, Hears, AnswersLate;
    if a.Delivering? {
      UnheardReplies(s, a);
    } else {
      JournalStays(s, a);
    }
  }

  lemma UnheardReplies(s: State, a: Action)
    requires Evidenced(s.turns.executions) && a.Delivering?
    requires (forall e :: !Hears(s, a, e)) && forall e, control, answer :: !AnswersLate(s, a, e, control, answer)
    ensures Step(s, a).journal.interactions == s.journal.interactions
  {
    hide Step, Evidenced, Counts, Ignored, TurnsAfter, Settles, MarkTerminal, StopsAfter, InteractionsAfter, SetUnknown,
      RejectInputs, DropLocators, FindInteraction;
    RunSteps(s, a);
    if a.id in s.turns.streams && a.id in s.turns.inputs {
      CountsUnlessIgnored(s.journal.events, s.turns.streams[a.id].native, a.event);
      var found := FindExecution(s.turns.executions, s.turns.streams[a.id].native);
      if found.Some? {
        assert !Hears(s, a, found.value);
        if a.event.payload.InteractionResponse? && a.event.payload.answer.Some? {
          assert !AnswersLate(s, a, found.value, a.event.payload.control, a.event.payload.answer.value);
        }
      }
    }
  }

  lemma JournalStays(s: State, a: Action)
    requires !a.Delivering?
    ensures Step(s, a).journal == s.journal
  {
    hide Step, Submit, Drain;
    if RunAction(a) {
      RunJournal(s, a);
    } else {
      OtherJournal(s, a);
    }
  }

  lemma RunJournal(s: State, a: Action)
    requires RunAction(a) && !a.Delivering?
    ensures Step(s, a).journal == s.journal
  {
    hide Step, DropLocators, RejectInputs, FailCompactions, ConfirmStops, LeaveStopsUnconfirmed, Undispatched, SetUnknown,
      AttachmentsHeld;
    DispatchSteps(s, a);
    RunSteps(s, a);
  }

  lemma OtherJournal(s: State, a: Action)
    requires !RunAction(a)
    ensures Step(s, a).journal == s.journal
  {
    hide Step, Decide, Progressing, PromoteCompact, AllTakeable, Claim, NextPosition, InputQueue, InsertBefore, Without,
      Renumber, MayMove, DropLocators, RejectInputs, FailCompactions, Take, Release, SettledStop, SettleCompact, Waiting,
      RecoverTurns, RecoverUpkeep;
    QueueSteps(s, a);
    UpkeepSteps(s, a);
    StopSteps(s, a);
    LifeSteps(s, a);
  }
}
