/**
 The refresh loop of the provider registry service, cut at its awaits. A round reads the configuration and the account;
 it publishes them together unless they disagree about the built-in configuration, are published already, or a newer
 request arrived.
 */
module RegistryRefresh {
  import opened Wrappers
  import opened RefreshWaiters
  import A = AccountRefresh

  type Revision = A.Revision
  type Account = A.Account

  /** A configuration; its revision is the pair of its parts, which are read one after the other. */
  datatype Config = Config(builtin: Revision, personal: Revision)

  /** What the registry publishes, with the revisions that it was made from. */
  datatype Snapshot = Snapshot(config: Config, account: Account)

  datatype Phase =
    | Idle
    | Reading(generation: nat, builtin: Option<Revision>, personal: Option<Revision>, account: Option<Account>)
    | Returning

  /** `last`: what the last round that completed had read; nothing after a failure. */
  datatype Service = Service(
    started: bool, disposed: bool, snapshot: Option<Snapshot>, requested: nat, completed: nat, phase: Phase,
    desk: Desk<Snapshot>, last: Option<Snapshot>)

  const Initial := Service(false, false, None, 0, 0, Idle, Desk([], []), None)

  function Settle(s: Service, generation: nat, answer: Answer<Snapshot>): Service {
    s.(desk := s.desk.Settle(generation, answer))
  }

  /** The head of the loop. */
  function Loop(s: Service): Service {
    s.(phase := if s.completed < s.requested then Reading(s.requested, None, None, None) else Returning)
  }

  function Request(s: Service): Service {
    var s' := s.(requested := s.requested + 1, desk := s.desk.Ask(s.requested + 1));
    if s.phase.Idle? && !s.disposed then Loop(s') else s'
  }

  /** Starting asks for a round, unless a snapshot is there already. */
  function Start(s: Service): Service {
    if s.disposed then s
    else if !s.started || s.snapshot.None? then Request(s.(started := true))
    else s
  }

  /** A refresh is refused before the start and after disposal, and source notifications are dropped after disposal. */
  function Refresh(s: Service): Service {
    if s.disposed || !s.started then s else Request(s)
  }

  function BuiltinRead(s: Service, b: Revision): Service {
    if s.phase.Reading? && s.phase.builtin.None? then s.(phase := s.phase.(builtin := Some(b))) else s
  }

  function PersonalRead(s: Service, p: Revision): Service {
    if s.phase.Reading? && s.phase.personal.None? then s.(phase := s.phase.(personal := Some(p))) else s
  }

  function AccountRead(s: Service, a: Account): Service {
    if s.phase.Reading? && s.phase.account.None? then s.(phase := s.phase.(account := Some(a))) else s
  }

  function Complete(s: Service, answer: Answer<Snapshot>): Service
    requires s.phase.Reading?
  {
    Settle(s, s.phase.generation, answer).(completed := s.phase.generation)
  }

  /** A source could not be read, or the resolver failed. */
  function FailRound(s: Service): Service
    requires s.phase.Reading?
  {
    Complete(s, Refused(s.phase.generation)).(phase := Returning, last := None)
  }

  function ReadFailed(s: Service): Service {
    if !s.phase.Reading? then s
    else if s.phase.generation < s.requested then Loop(s)
    else FailRound(s)
  }

  predicate HasRead(s: Service) {
    s.phase.Reading? && s.phase.builtin.Some? && s.phase.personal.Some? && s.phase.account.Some?
  }

  function Found(s: Service): Snapshot
    requires HasRead(s)
  {
    Snapshot(Config(s.phase.builtin.value, s.phase.personal.value), s.phase.account.value)
  }

  predicate Consistent(x: Snapshot) {
    x.account.basedOn == x.config.builtin
  }

  /** The loop ends with an exception: every waiter is refused. */
  function Thrown(s: Service): Service {
    Settle(s, s.requested, Refused(s.requested)).(phase := Returning)
  }

  /** `resolves`: the resolver and the registry accept the combination. */
  function Conclude(s: Service, resolves: bool): Service {
    if !HasRead(s) then s
    else if s.phase.generation < s.requested then Loop(s)
    else if s.disposed then Thrown(s)
    else
      var found := Found(s);
      var g := s.phase.generation;
      if !Consistent(found) then
        Loop((if s.snapshot.Some? then Complete(s, Delivered(g, s.snapshot.value)) else s.(completed := g)).(
          last := Some(found)))
      else if s.snapshot == Some(found) then Loop(Complete(s, Delivered(g, found)).(last := Some(found)))
      else if !resolves then FailRound(s)
      else Loop(Complete(s.(snapshot := Some(found)), Delivered(g, found)).(last := Some(found)))
  }

  function Finish(s: Service): Service {
    if !s.phase.Returning? then s
    else if s.completed < s.requested && !s.disposed then Loop(s)
    else s.(phase := Idle)
  }

  function Dispose(s: Service): Service {
    if s.disposed then s
    else s.(disposed := true, desk := s.desk.Abandon())
  }

  datatype Event =
    | Started
    | Refreshed
    | BuiltinWasRead(builtin: Revision)
    | PersonalWasRead(personal: Revision)
    | AccountWasRead(account: Account)
    | ReadHasFailed
    | Concluded(resolves: bool)
    | Finished
    | Disposed

  function Next(s: Service, event: Event): Service {
    match event
    case Started => Start(s)
    case Refreshed => Refresh(s)
    case BuiltinWasRead(b) => BuiltinRead(s, b)
    case PersonalWasRead(p) => PersonalRead(s, p)
    case AccountWasRead(a) => AccountRead(s, a)
    case ReadHasFailed => ReadFailed(s)
    case Concluded(resolves) => Conclude(s, resolves)
    case Finished => Finish(s)
    case Disposed => Dispose(s)
  }

  // What every step keeps

  /** Generations never get ahead of the requests; an open request has a loop in flight, or the service is disposed. */
  ghost predicate Bookkeeping(s: Service) {
    && s.completed <= s.requested
    && (s.phase.Reading? ==> s.completed < s.phase.generation <= s.requested)
    && (s.completed < s.requested && s.phase.Idle? ==> s.disposed)
  }

  /** Once there is a snapshot, nobody waits for a round that is over. */
  ghost predicate WaitersOk(s: Service) {
    && InTime(s.desk, s.requested)
    && (s.snapshot.Some? ==> forall w :: w in s.desk.waiters ==> w > s.completed)
    && (s.disposed ==> s.desk.waiters == [])
  }

  /** No published snapshot mixes two built-in revisions. */
  ghost predicate PublishedOk(s: Service) {
    && (s.snapshot.Some? ==> Consistent(s.snapshot.value))
    && (forall x :: x in s.desk.settled && x.answer.Delivered? ==> Consistent(x.answer.value))
    && (s.last.Some? && Consistent(s.last.value) ==> s.snapshot == s.last)
  }

  ghost predicate ServiceOk(s: Service) {
    Bookkeeping(s) && WaitersOk(s) && PublishedOk(s)
  }

  lemma LoopKeeps(s: Service)
    requires s.completed <= s.requested && WaitersOk(s) && PublishedOk(s)
    ensures ServiceOk(Loop(s))
  {
    hide InTime;
  }

  lemma CompleteKeeps(s: Service, answer: Answer<Snapshot>)
    requires ServiceOk(s) && s.phase.Reading? && !answer.Abandoned? && answer.round == s.phase.generation
    requires answer.Delivered? ==> Consistent(answer.value)
    ensures var s' := Complete(s, answer); s'.completed <= s'.requested && WaitersOk(s') && PublishedOk(s')
  {
    SettleKeeps(s.desk, s.requested, s.phase.generation, answer);
    hide InTime;
  }

  lemma FailRoundKeeps(s: Service)
    requires ServiceOk(s) && s.phase.Reading?
    ensures ServiceOk(FailRound(s))
  {
    CompleteKeeps(s, Refused(s.phase.generation));
    hide InTime, Complete;
  }

  lemma ThrownKeeps(s: Service)
    requires ServiceOk(s) && s.disposed
    ensures ServiceOk(Thrown(s))
  {
    SettleKeeps(s.desk, s.requested, s.requested, Refused(s.requested));
    hide InTime;
  }

  lemma MismatchKeeps(s: Service)
    requires ServiceOk(s) && HasRead(s) && !Consistent(Found(s))
    ensures var g := s.phase.generation;
      ServiceOk(Loop((if s.snapshot.Some? then Complete(s, Delivered(g, s.snapshot.value)) else s.(completed := g)).(
        last := Some(Found(s)))))
  {
    hide InTime, Complete, Loop;
    if s.snapshot.Some? {
      CompleteKeeps(s, Delivered(s.phase.generation, s.snapshot.value));
      LoopKeeps(Complete(s, Delivered(s.phase.generation, s.snapshot.value)).(last := Some(Found(s))));
    } else {
      LoopKeeps(s.(completed := s.phase.generation, last := Some(Found(s))));
    }
  }

  lemma PublishKeeps(s: Service)
    requires ServiceOk(s) && HasRead(s) && Consistent(Found(s))
    ensures ServiceOk(Loop(Complete(s.(snapshot := Some(Found(s))), Delivered(s.phase.generation, Found(s))).(
      last := Some(Found(s)))))
  {
    SettleKeeps(s.desk, s.requested, s.phase.generation, Delivered(s.phase.generation, Found(s)));
    hide InTime, Loop;
    LoopKeeps(Complete(s.(snapshot := Some(Found(s))), Delivered(s.phase.generation, Found(s))).(last := Some(Found(s))));
  }

  lemma ConcludeKeeps(s: Service, resolves: bool)
    requires ServiceOk(s)
    ensures ServiceOk(Conclude(s, resolves))
  {
    hide WaitersOk, PublishedOk, Complete, FailRound, Thrown, Loop;
    if HasRead(s) {
      if s.phase.generation < s.requested {
        LoopKeeps(s);
      } else if s.disposed {
        ThrownKeeps(s);
      } else if !Consistent(Found(s)) {
        MismatchKeeps(s);
      } else {
        PublishKeeps(s);
        FailRoundKeeps(s);
        assert s.snapshot == Some(Found(s)) ==> s.(snapshot := Some(Found(s))) == s;
      }
    }
  }

  lemma RequestKeeps(s: Service)
    requires ServiceOk(s) && !s.disposed
    ensures ServiceOk(Request(s))
  {
    AskKeeps(s.desk, s.requested);
    hide InTime;
  }

  lemma OtherKeeps(s: Service, event: Event)
    requires ServiceOk(s) && (event.BuiltinWasRead? || event.PersonalWasRead? || event.AccountWasRead? || event.Finished?)
    ensures ServiceOk(Next(s, event))
  {
    hide InTime;
  }

  lemma DisposeKeeps(s: Service)
    requires ServiceOk(s)
    ensures ServiceOk(Dispose(s))
  {
    AbandonKeeps(s.desk, s.requested);
    hide InTime;
  }

  /** Every step keeps the bookkeeping, the waiters and what is published. */
  lemma NextKeeps(s: Service, event: Event)
    requires ServiceOk(s)
    ensures ServiceOk(Next(s, event))
  {
    hide WaitersOk, PublishedOk, Conclude, Dispose, FailRound, Loop;
    match event
    case Started => if !s.disposed { StartedKeeps(s); }
    case Refreshed => if !s.disposed { RequestKeeps(s); }
    case ReadHasFailed => if s.phase.Reading? { LoopKeeps(s); FailRoundKeeps(s); }
    case Concluded(resolves) => ConcludeKeeps(s, resolves);
    case Disposed => DisposeKeeps(s);
    case _ => OtherKeeps(s, event);
  }

  lemma StartedKeeps(s: Service)
    requires ServiceOk(s) && !s.disposed
    ensures ServiceOk(Start(s))
  {
    hide WaitersOk, PublishedOk, Request;
    assert ServiceOk(s.(started := true)) by { StartedIrrelevant(s); }
    RequestKeeps(s.(started := true));
  }

  lemma StartedIrrelevant(s: Service)
    requires ServiceOk(s)
    ensures ServiceOk(s.(started := true))
  {
  }

  /** All was read for the latest request, and the service was not disposed meanwhile. */
  predicate Decides(s: Service, event: Event) {
    event.Concluded? && HasRead(s) && s.phase.generation == s.requested && !s.disposed
  }

  /** The registry changes exactly when configuration and account agree, can be resolved, and are not published yet. */
  lemma PublishesExactlyWhen(s: Service, event: Event)
    requires Bookkeeping(s)
    ensures Next(s, event).snapshot ==
      if Decides(s, event) && event.resolves && Consistent(Found(s)) then Some(Found(s)) else s.snapshot
  {
    hide Remaining, Answers;
  }

  /** What the waiters of a round are told: the new snapshot, the old one when the parts disagree, or the failure. */
  lemma RoundsAnswer(s: Service, event: Event)
    requires Decides(s, event)
    ensures var s', g, found := Next(s, event), s.phase.generation, Found(s);
      && s'.completed == g
      && if !Consistent(found) && s.snapshot.None? then s'.desk == s.desk
         else AnsweredWith(s.desk, s'.desk, g,
                if !Consistent(found) then Delivered(g, s.snapshot.value)
                else if event.resolves || s.snapshot == Some(found) then Delivered(g, found)
                else Refused(g))
  {
    hide Remaining, Answers;
  }

  /** A failed read refuses the waiters, unless a newer request starts the round again. */
  lemma FailedReads(s: Service)
    requires s.phase.Reading? && Bookkeeping(s)
    ensures var s', g := Next(s, ReadHasFailed), s.phase.generation;
      && s'.snapshot == s.snapshot
      && if g < s.requested then s'.desk == s.desk && s'.phase == Reading(s.requested, None, None, None)
         else AnsweredWith(s.desk, s'.desk, g, Refused(g)) && s'.completed == g
  {
    hide Remaining, Answers;
  }

  /** A round is asked for: by the first start, a start without a snapshot, or a refresh after the start. */
  predicate Asks(s: Service, event: Event) {
    !s.disposed && ((event.Started? && (!s.started || s.snapshot.None?)) || (event.Refreshed? && s.started))
  }

  /** Every such call, and nothing else, is numbered and waits. */
  lemma AsksExactlyWhen(s: Service, event: Event)
    ensures var s' := Next(s, event);
      && s'.requested == s.requested + (if Asks(s, event) then 1 else 0)
      && (Asks(s, event) ==> s'.desk.waiters == s.desk.waiters + [s'.requested] && s'.desk.settled == s.desk.settled)
      && (Asks(s, event) && s.completed <= s.requested ==> s'.phase != Idle)
      && s'.started == (s.started || (!s.disposed && event.Started?))
      && s'.disposed == (s.disposed || event.Disposed?)
  {
    hide Remaining, Answers;
  }
}
