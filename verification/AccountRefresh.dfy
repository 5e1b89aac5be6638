/**
 The refresh loop of the account provider service, cut at its awaits. A round reads the configuration, resolves the
 account against its built-in part, reads the configuration again, and publishes unless something changed meanwhile.
 */
module AccountRefresh {
  import opened Wrappers
  import opened RefreshWaiters

  /** Identities of the built-in configuration and of the resolved content of an account. */
  type Revision = nat

  /** An account overlay; its revision is the pair of both parts. */
  datatype Account = Account(basedOn: Revision, content: Content)

  datatype Content = Resolved(id: nat) | FailClosed

  /** What the running round waits for. */
  datatype Round =
    | Reading
    | Resolving(builtin: Revision)
    | Checking(builtin: Revision, content: Content, again: Option<Revision>)

  /** `Returning`: the loop is over, its promise not yet released. */
  datatype Phase = Idle | Running(generation: nat, round: Round) | Returning

  /**
   `failed` tells whether the last finished round failed.
   */
  datatype Service = Service(
    started: bool, disposed: bool, snapshot: Option<Account>, requested: nat, pending: set<string>, phase: Phase,
    desk: Desk<Account>, failed: bool)

  const Initial := Service(false, false, None, 0, {}, Idle, Desk([], []), false)

  /** Answers every waiter up to a generation. */
  function Settle(s: Service, generation: nat, answer: Answer<Account>): Service {
    s.(desk := s.desk.Settle(generation, answer))
  }

  function BeginRound(s: Service): Service {
    s.(phase := Running(s.requested, Reading), pending := {})
  }

  /** The head of the loop. */
  function Loop(s: Service): Service {
    if s.pending != {} then BeginRound(s) else s.(phase := Returning)
  }

  function Request(s: Service, reason: string): Service {
    if s.disposed then s
    else
      var s' := s.(started := true, requested := s.requested + 1, pending := s.pending + {reason},
                   desk := s.desk.Ask(s.requested + 1));
      if s.phase.Idle? then BeginRound(s') else s'
  }

  /** Reading without a snapshot while nothing runs asks for the first round. */
  function Read(s: Service): Service {
    if s.disposed then s
    else if s.snapshot.Some? || !s.phase.Idle? then s.(started := true)
    else Request(s, "start")
  }

  function ConfigRead(s: Service, builtin: Revision): Service {
    if s.phase.Running? && s.phase.round.Reading?
    then s.(phase := Running(s.phase.generation, Resolving(builtin))) else s
  }

  /** The round fails: without any snapshot it publishes a closed one, otherwise the last good one stays. */
  function Fail(s: Service): Service {
    if !s.phase.Running? then s
    else if s.snapshot.None? && !s.phase.round.Reading? then
      var closed := Account(s.phase.round.builtin, FailClosed);
      Loop(Settle(s.(snapshot := Some(closed), failed := false), s.phase.generation,
                  Delivered(s.phase.generation, closed)))
    else
      Settle(s, s.phase.generation, Refused(s.phase.generation)).(phase := Returning, failed := true)
  }

  function AccountResolved(s: Service, content: nat): Service {
    if !(s.phase.Running? && s.phase.round.Resolving?) then s
    else if s.disposed then Fail(s)
    else s.(phase := Running(s.phase.generation, Checking(s.phase.round.builtin, Resolved(content), None)))
  }

  function ConfigReadAgain(s: Service, builtin: Revision): Service {
    if s.phase.Running? && s.phase.round.Checking? && s.phase.round.again.None?
    then s.(phase := Running(s.phase.generation, s.phase.round.(again := Some(builtin)))) else s
  }

  predicate Concluding(s: Service) {
    s.phase.Running? && s.phase.round.Checking? && s.phase.round.again.Some?
  }

  predicate Superseded(s: Service)
    requires Concluding(s)
  {
    s.pending != {} || s.phase.round.again.value != s.phase.round.builtin
  }

  function Found(s: Service): Account
    requires Concluding(s)
  {
    Account(s.phase.round.builtin, s.phase.round.content)
  }

  /** The round publishes something that replaces an earlier snapshot, so that listeners are told. */
  predicate Tells(s: Service) {
    Concluding(s) && !s.disposed && !Superseded(s) && s.snapshot.Some? && s.snapshot.value != Found(s)
  }

  function Conclude(s: Service): Service {
    if !Concluding(s) then s
    else if s.disposed then Fail(s)
    else if Superseded(s) then Loop(s.(pending := s.pending + {"superseded-resolution"}))
    else
      Loop(Settle(s.(snapshot := Some(Found(s)), failed := false), s.phase.generation,
                  Delivered(s.phase.generation, Found(s))))
  }

  /** The promise of the loop is released; what was asked for in between starts the next loop. */
  function Finish(s: Service): Service {
    if !s.phase.Returning? then s
    else if s.disposed || s.pending == {} then s.(phase := Idle)
    else BeginRound(s)
  }

  function Dispose(s: Service): Service {
    if s.disposed then s
    else s.(disposed := true, desk := s.desk.Abandon())
  }

  datatype Event =
    | Requested(reason: string)
    | WasRead
    | ConfigWasRead(builtin: Revision)
    | WasResolved(content: nat)
    | ConfigWasReadAgain(builtin: Revision)
    | Concluded
    | Failed
    | Finished
    | Disposed

  function Next(s: Service, event: Event): Service {
    match event
    case Requested(reason) => Request(s, reason)
    case WasRead => Read(s)
    case ConfigWasRead(b) => ConfigRead(s, b)
    case WasResolved(c) => AccountResolved(s, c)
    case ConfigWasReadAgain(b) => ConfigReadAgain(s, b)
    case Concluded => Conclude(s)
    case Failed => Fail(s)
    case Finished => Finish(s)
    case Disposed => Dispose(s)
  }

  // What every step keeps

  /** Who still waits is covered by the running round, or a queued reason will start another one. */
  ghost predicate Covered(s: Service) {
    && (s.phase.Running? ==> s.phase.generation <= s.requested)
    && (forall w :: w in s.desk.waiters ==> s.pending != {} || (s.phase.Running? && w <= s.phase.generation))
    && (s.pending != {} && s.phase.Idle? ==> s.disposed)
    && (s.disposed ==> s.desk.waiters == [])
  }

  ghost predicate ServiceOk(s: Service) {
    InTime(s.desk, s.requested) && Covered(s)
  }

  /** A round answers everybody who asked before it began; who is left has a queued reason. */
  lemma SettleLeaves(s: Service, answer: Answer<Account>)
    requires ServiceOk(s) && s.phase.Running? && !answer.Abandoned? && answer.round == s.phase.generation
    ensures var desk := s.desk.Settle(s.phase.generation, answer);
      && InTime(desk, s.requested) && (forall w :: w in desk.waiters ==> s.pending != {})
      && (s.disposed ==> desk.waiters == [])
  {
    SettleKeeps(s.desk, s.requested, s.phase.generation, answer);
  }

  lemma LoopKeeps(s: Service)
    requires InTime(s.desk, s.requested) && (forall w :: w in s.desk.waiters ==> s.pending != {})
    requires s.disposed ==> s.desk.waiters == []
    ensures ServiceOk(Loop(s))
  {
  }

  lemma FailKeeps(s: Service)
    requires ServiceOk(s)
    ensures ServiceOk(Fail(s))
  {
    hide Remaining, Answers, InTime;
    if s.phase.Running? {
      SettleLeaves(s, Refused(s.phase.generation));
      if s.snapshot.None? && !s.phase.round.Reading? {
        var closed := Account(s.phase.round.builtin, FailClosed);
        PublishKeeps(s, closed);
      } else {
        RefuseKeeps(s);
      }
    }
  }

  lemma RefuseKeeps(s: Service)
    requires ServiceOk(s) && s.phase.Running?
    ensures ServiceOk(Settle(s, s.phase.generation, Refused(s.phase.generation)).(phase := Returning, failed := true))
  {
    SettleLeaves(s, Refused(s.phase.generation));
    hide Remaining, Answers;
  }

  /** Publishing answers the waiters of the round and goes on. */
  lemma PublishKeeps(s: Service, account: Account)
    requires ServiceOk(s) && s.phase.Running?
    ensures ServiceOk(Loop(Settle(s.(snapshot := Some(account), failed := false), s.phase.generation,
                                  Delivered(s.phase.generation, account))))
  {
    SettleLeaves(s.(snapshot := Some(account), failed := false), Delivered(s.phase.generation, account));
    hide Remaining, Answers, Loop;
    LoopKeeps(Settle(s.(snapshot := Some(account), failed := false), s.phase.generation,
                     Delivered(s.phase.generation, account)));
  }

  lemma ConcludeKeeps(s: Service)
    requires ServiceOk(s)
    ensures ServiceOk(Conclude(s))
  {
    hide InTime, Fail, Settle;
    FailKeeps(s);
    if Concluding(s) && !s.disposed {
      if Superseded(s) {
        SupersedeKeeps(s);
      } else {
        PublishKeeps(s, Found(s));
      }
    }
  }

  lemma SupersedeKeeps(s: Service)
    requires ServiceOk(s) && s.phase.Running?
    ensures ServiceOk(Loop(s.(pending := s.pending + {"superseded-resolution"})))
  {
    assert "superseded-resolution" in s.pending + {"superseded-resolution"};
    LoopKeeps(s.(pending := s.pending + {"superseded-resolution"}));
  }

  lemma DisposeKeeps(s: Service)
    requires ServiceOk(s)
    ensures ServiceOk(Dispose(s))
  {
    AbandonKeeps(s.desk, s.requested);
  }

  lemma RequestKeeps(s: Service, reason: string)
    requires ServiceOk(s)
    ensures ServiceOk(Request(s, reason))
  {
    assert reason in s.pending + {reason};
    AskKeeps(s.desk, s.requested);
  }

  /** Every step keeps the answers in time and the waiters covered. */
  lemma NextKeeps(s: Service, event: Event)
    requires ServiceOk(s)
    ensures ServiceOk(Next(s, event))
  {
    hide ServiceOk, Request, Conclude, Fail, Dispose;
    match event
    case Requested(reason) => RequestKeeps(s, reason);
    case WasRead => ReadKeeps(s);
    case Concluded => ConcludeKeeps(s);
    case Failed => FailKeeps(s);
    case Disposed => DisposeKeeps(s);
    case WasResolved(c) => ResolvedKeeps(s, c);
    case ConfigWasRead(b) => SamplesKeep(s, b);
    case ConfigWasReadAgain(b) => SamplesKeep(s, b);
    case Finished => FinishKeeps(s);
  }

  lemma ReadKeeps(s: Service)
    requires ServiceOk(s)
    ensures ServiceOk(Read(s))
  {
    RequestKeeps(s, "start");
  }

  lemma SamplesKeep(s: Service, b: Revision)
    requires ServiceOk(s)
    ensures ServiceOk(ConfigRead(s, b)) && ServiceOk(ConfigReadAgain(s, b))
  {
  }

  lemma ResolvedKeeps(s: Service, content: nat)
    requires ServiceOk(s)
    ensures ServiceOk(AccountResolved(s, content))
  {
    FailKeeps(s);
  }

  lemma FinishKeeps(s: Service)
    requires ServiceOk(s)
    ensures ServiceOk(Finish(s))
  {
  }

  /** A round that fails after a snapshot was published leaves the snapshot as it is. */
  lemma FailureKeepsSnapshot(s: Service, event: Event)
    requires s.snapshot.Some? && Next(s, event).snapshot != s.snapshot
    ensures event.Concluded? && Tells(s) && Next(s, event).snapshot == Some(Found(s)) && !Next(s, event).failed
  {
  }

  /** The round has all its samples, nothing changed meanwhile, and nobody asked again. */
  predicate Publishes(s: Service, event: Event) {
    && event.Concluded? && !s.disposed && s.pending == {} && s.phase.Running?
    && s.phase.round.Checking? && s.phase.round.again == Some(s.phase.round.builtin)
  }

  /** The round fails: an exception, or a sample that arrives after disposal. */
  predicate Breaks(s: Service, event: Event) {
    && s.phase.Running?
    && (|| event.Failed?
        || (s.disposed && event.WasResolved? && s.phase.round.Resolving?)
        || (s.disposed && event.Concluded? && s.phase.round.Checking? && s.phase.round.again.Some?))
  }

  /** A closed overlay is published only by the failure of a round that had read the configuration, and only first. */
  lemma PublishesExactlyWhen(s: Service, event: Event)
    ensures Next(s, event).snapshot ==
      if Publishes(s, event) then Some(Account(s.phase.round.builtin, s.phase.round.content))
      else if Breaks(s, event) && s.snapshot.None? && !s.phase.round.Reading?
      then Some(Account(s.phase.round.builtin, FailClosed))
      else s.snapshot
  {
  }

  /** A round that publishes or fails answers exactly who asked before it began, and all of them alike. */
  lemma RoundsAnswer(s: Service, event: Event)
    requires Publishes(s, event) || Breaks(s, event)
    ensures var s', g := Next(s, event), s.phase.generation;
      AnsweredWith(s.desk, s'.desk, g,
        if Publishes(s, event) || (s.snapshot.None? && !s.phase.round.Reading?) then Delivered(g, s'.snapshot.value)
        else Refused(g))
  {
    hide Remaining, Answers;
  }

  /** Listeners are told exactly of what replaces an earlier snapshot by a different one. */
  lemma TellsExactlyWhen(s: Service)
    ensures Tells(s) <==> Publishes(s, Concluded) && s.snapshot.Some? && Next(s, Concluded).snapshot != s.snapshot
  {
    hide Remaining, Answers;
  }

  /** A caller asks for a round: explicitly, or by reading while there is neither a snapshot nor a loop. */
  predicate Asks(s: Service, event: Event) {
    !s.disposed && (event.Requested? || (event.WasRead? && s.snapshot.None? && s.phase.Idle?))
  }

  /** Every such call, and nothing else, is numbered and waits; the first call of any kind starts the service. */
  lemma AsksExactlyWhen(s: Service, event: Event)
    ensures var s' := Next(s, event);
      && s'.requested == s.requested + (if Asks(s, event) then 1 else 0)
      && (Asks(s, event) ==> s'.desk.waiters == s.desk.waiters + [s'.requested] && s'.phase != Idle)
      && s'.started == (s.started || (!s.disposed && (event.Requested? || event.WasRead?)))
      && s'.disposed == (s.disposed || event.Disposed?)
  {
    hide Remaining, Answers;
  }
}
