/**
 Account service and registry service together, over a configuration that anyone may change at any time. A change is
 noticed by each service some time later; what a service reads is what holds at some moment of its read.
 */
module RefreshComposition {
  import opened Wrappers
  import opened RefreshWaiters
  import A = AccountRefresh
  import R = RegistryRefresh

  /** `notices`: changes of the configuration that a subscribed service has not been told yet. */
  datatype World = World(
    config: R.Config, accountNotices: nat, registryNotices: nat, account: A.Service, registry: R.Service)

  function InitialWorld(config: R.Config): World {
    World(config, 0, 0, A.Initial, R.Initial)
  }

  datatype Action =
    | ChangingBuiltin(builtin: R.Revision)
    | ChangingPersonal(personal: R.Revision)
    | NotifyingAccount(reason: string)
    | NotifyingRegistry
    | AskingAccount(reason: string)
    | ReadingAccount
    | AccountReadsConfig
    | AccountResolves(content: nat)
    | AccountRereadsConfig
    | AccountConcludes
    | AccountFails
    | AccountFinishes
    | DisposingAccount
    | StartingRegistry
    | AskingRegistry
    | RegistryReadsBuiltin
    | RegistryReadsPersonal
    | RegistryReadsAccount
    | RegistryReadFails
    | RegistryConcludes(resolves: bool)
    | RegistryFinishes
    | DisposingRegistry

  /** The registry takes a step; beginning a round, it reads the account, which may start the account service. */
  function RegistryStep(w: World, event: R.Event): World {
    var r := R.Next(w.registry, event);
    var begins := r.phase.Reading?
      && !(w.registry.phase.Reading? && w.registry.phase.generation == r.phase.generation);
    w.(registry := r, account := if begins then A.Read(w.account) else w.account)
  }

  /** The account service takes a step; a replaced snapshot is told to the registry at once. */
  function AccountStep(w: World, event: A.Event): World {
    var w' := w.(account := A.Next(w.account, event));
    if event.Concluded? && A.Tells(w.account) then RegistryStep(w', R.Refreshed) else w'
  }

  function Changed(w: World, config: R.Config): World {
    w.(config := config,
       accountNotices := w.accountNotices + if w.account.started && !w.account.disposed then 1 else 0,
       registryNotices := w.registryNotices + if w.registry.started && !w.registry.disposed then 1 else 0)
  }

  function Step(w: World, action: Action): World {
    match action
    case ChangingBuiltin(b) => Changed(w, w.config.(builtin := b))
    case ChangingPersonal(p) => Changed(w, w.config.(personal := p))
    case NotifyingAccount(reason) =>
      if w.accountNotices == 0 then w
      else AccountStep(w.(accountNotices := w.accountNotices - 1), A.Requested(reason))
    case NotifyingRegistry =>
      if w.registryNotices == 0 then w
      else RegistryStep(w.(registryNotices := w.registryNotices - 1), R.Refreshed)
    case AskingAccount(reason) => AccountStep(w, A.Requested(reason))
    case ReadingAccount => AccountStep(w, A.WasRead)
    case AccountReadsConfig => AccountStep(w, A.ConfigWasRead(w.config.builtin))
    case AccountResolves(content) => AccountStep(w, A.WasResolved(content))
    case AccountRereadsConfig => AccountStep(w, A.ConfigWasReadAgain(w.config.builtin))
    case AccountConcludes => AccountStep(w, A.Concluded)
    case AccountFails => AccountStep(w, A.Failed)
    case AccountFinishes => AccountStep(w, A.Finished)
    case DisposingAccount => AccountStep(w, A.Disposed)
    case StartingRegistry => RegistryStep(w, R.Started)
    case AskingRegistry => RegistryStep(w, R.Refreshed)
    case RegistryReadsBuiltin => RegistryStep(w, R.BuiltinWasRead(w.config.builtin))
    case RegistryReadsPersonal => RegistryStep(w, R.PersonalWasRead(w.config.personal))
    case RegistryReadsAccount =>
      if w.account.snapshot.None? then w else RegistryStep(w, R.AccountWasRead(w.account.snapshot.value))
    case RegistryReadFails => RegistryStep(w, R.ReadHasFailed)
    case RegistryConcludes(resolves) => RegistryStep(w, R.Concluded(resolves))
    case RegistryFinishes => RegistryStep(w, R.Finished)
    case DisposingRegistry => RegistryStep(w, R.Disposed)
  }

  function Run(w: World, actions: seq<Action>): World
    decreases |actions|
  {
    if actions == [] then w else Step(Run(w, actions[..|actions| - 1]), actions[|actions| - 1])
  }

  // What was read is current, or a newer request is on its way

  /** The account service will look again. */
  predicate AccountWillLook(w: World) {
    w.account.pending != {} || w.accountNotices > 0 || w.account.disposed
  }

  ghost predicate AccountCurrent(w: World) {
    && (w.account.phase.Running? && !w.account.phase.round.Reading? ==>
          w.account.phase.round.builtin == w.config.builtin || AccountWillLook(w))
    && (!w.account.phase.Running? && w.account.snapshot.Some? && !w.account.failed ==>
          w.account.snapshot.value.basedOn == w.config.builtin || AccountWillLook(w))
    && (!w.account.started ==> w.account.snapshot.None? && w.account.phase.Idle? && w.account.pending == {})
  }

  /** The registry service will look again after the round of a generation. */
  predicate RegistryWillLook(w: World, generation: nat) {
    w.registry.requested > generation || w.registryNotices > 0 || w.registry.disposed
  }

  ghost predicate RoundCurrent(w: World) {
    w.registry.phase.Reading? ==>
      var p := w.registry.phase;
      && (p.builtin.Some? ==> p.builtin.value == w.config.builtin || RegistryWillLook(w, p.generation))
      && (p.personal.Some? ==> p.personal.value == w.config.personal || RegistryWillLook(w, p.generation))
      && (p.account.Some? ==> p.account == w.account.snapshot || RegistryWillLook(w, p.generation))
      && (p.account.Some? ==> w.account.snapshot.Some?)
  }

  ghost predicate LastCurrent(w: World) {
    w.registry.last.Some? ==>
      var x := w.registry.last.value;
      && ((x.config == w.config && w.account.snapshot == Some(x.account)) || RegistryWillLook(w, w.registry.completed))
      && w.account.snapshot.Some?
  }

  ghost predicate WorldOk(w: World) {
    && A.ServiceOk(w.account) && R.ServiceOk(w.registry)
    && AccountCurrent(w) && RoundCurrent(w) && LastCurrent(w)
    && (!w.registry.started ==> w.registry.phase.Idle? && w.registry.last.None?)
  }

  // The registry's steps

  /** Beginning a round reads the account, which only starts it if it never was. */
  lemma ReadKeepsCurrent(w: World)
    requires WorldOk(w)
    ensures WorldOk(w.(account := A.Read(w.account)))
  {
    hide A.ServiceOk, R.ServiceOk;
    A.ReadKeeps(w.account);
  }

  lemma RegistryKeepsCurrent(w: World, event: R.Event)
    requires WorldOk(w)
    requires event.BuiltinWasRead? ==> event.builtin == w.config.builtin
    requires event.PersonalWasRead? ==> event.personal == w.config.personal
    requires event.AccountWasRead? ==> w.account.snapshot == Some(event.account)
    ensures WorldOk(w.(registry := R.Next(w.registry, event)))
  {
    hide A.ServiceOk, A.Next, InTime, R.PublishedOk;
    R.NextKeeps(w.registry, event);
  }

  lemma RegistryStepKeeps(w: World, event: R.Event)
    requires WorldOk(w)
    requires event.BuiltinWasRead? ==> event.builtin == w.config.builtin
    requires event.PersonalWasRead? ==> event.personal == w.config.personal
    requires event.AccountWasRead? ==> w.account.snapshot == Some(event.account)
    ensures WorldOk(RegistryStep(w, event))
  {
    hide WorldOk, R.Next, A.Read;
    RegistryKeepsCurrent(w, event);
    ReadKeepsCurrent(w.(registry := R.Next(w.registry, event)));
  }

  // The account service's steps

  /** A step that publishes nothing that replaces a snapshot. */
  lemma AccountKeepsCurrent(w: World, event: A.Event)
    requires WorldOk(w) && !(event.Concluded? && A.Tells(w.account))
    requires event.ConfigWasRead? ==> event.builtin == w.config.builtin
    requires event.ConfigWasReadAgain? ==> event.builtin == w.config.builtin
    ensures WorldOk(w.(account := A.Next(w.account, event)))
  {
    hide R.ServiceOk, R.Next, InTime;
    A.NextKeeps(w.account, event);
  }

  /** A replaced snapshot makes the registry look again, which keeps everything it has read so far excused. */
  lemma TellingKeeps(w: World)
    requires WorldOk(w) && A.Tells(w.account)
    ensures WorldOk(w.(account := A.Conclude(w.account), registry := R.Refresh(w.registry)))
  {
    A.ConcludeKeeps(w.account);
    R.NextKeeps(w.registry, R.Refreshed);
    hide InTime, R.PublishedOk, Remaining, Answers;
  }

  lemma AccountStepKeeps(w: World, event: A.Event)
    requires WorldOk(w)
    requires event.ConfigWasRead? ==> event.builtin == w.config.builtin
    requires event.ConfigWasReadAgain? ==> event.builtin == w.config.builtin
    ensures WorldOk(AccountStep(w, event))
  {
    hide WorldOk, R.Refresh, A.Conclude, A.Read;
    if event.Concluded? && A.Tells(w.account) {
      TellingKeeps(w);
      ReadKeepsCurrent(w.(account := A.Conclude(w.account), registry := R.Refresh(w.registry)));
    } else {
      hide A.Next;
      AccountKeepsCurrent(w, event);
    }
  }

  lemma ChangedKeeps(w: World, config: R.Config)
    requires WorldOk(w)
    ensures WorldOk(Changed(w, config))
  {
    hide A.ServiceOk, R.PublishedOk, R.WaitersOk;
  }

  lemma AccountNoticeKeeps(w: World, reason: string)
    requires WorldOk(w) && w.accountNotices > 0
    ensures WorldOk(Step(w, NotifyingAccount(reason)))
  {
    A.RequestKeeps(w.account, reason);
    hide R.ServiceOk, R.Next, InTime;
  }

  lemma RegistryNoticeKeeps(w: World)
    requires WorldOk(w) && w.registryNotices > 0
    ensures WorldOk(Step(w, NotifyingRegistry))
  {
    R.NextKeeps(w.registry, R.Refreshed);
    A.ReadKeeps(w.account);
    hide InTime, R.PublishedOk;
  }

  lemma StepKeeps(w: World, action: Action)
    requires WorldOk(w)
    ensures WorldOk(Step(w, action))
  {
    hide WorldOk, RegistryStep, AccountStep, Changed;
    match action
    case ChangingBuiltin(b) => ChangedKeeps(w, w.config.(builtin := b));
    case ChangingPersonal(p) => ChangedKeeps(w, w.config.(personal := p));
    case NotifyingAccount(reason) => if w.accountNotices > 0 { AccountNoticeKeeps(w, reason); }
    case NotifyingRegistry => if w.registryNotices > 0 { RegistryNoticeKeeps(w); }
    case AskingAccount(reason) => AccountStepKeeps(w, A.Requested(reason));
    case ReadingAccount => AccountStepKeeps(w, A.WasRead);
    case AccountReadsConfig => AccountStepKeeps(w, A.ConfigWasRead(w.config.builtin));
    case AccountResolves(content) => AccountStepKeeps(w, A.WasResolved(content));
    case AccountRereadsConfig => AccountStepKeeps(w, A.ConfigWasReadAgain(w.config.builtin));
    case AccountConcludes => AccountStepKeeps(w, A.Concluded);
    case AccountFails => AccountStepKeeps(w, A.Failed);
    case AccountFinishes => AccountStepKeeps(w, A.Finished);
    case DisposingAccount => AccountStepKeeps(w, A.Disposed);
    case StartingRegistry => RegistryStepKeeps(w, R.Started);
    case AskingRegistry => RegistryStepKeeps(w, R.Refreshed);
    case RegistryReadsBuiltin => RegistryStepKeeps(w, R.BuiltinWasRead(w.config.builtin));
    case RegistryReadsPersonal => RegistryStepKeeps(w, R.PersonalWasRead(w.config.personal));
    case RegistryReadsAccount =>
      if w.account.snapshot.Some? { RegistryStepKeeps(w, R.AccountWasRead(w.account.snapshot.value)); }
    case RegistryReadFails => RegistryStepKeeps(w, R.ReadHasFailed);
    case RegistryConcludes(resolves) => RegistryStepKeeps(w, R.Concluded(resolves));
    case RegistryFinishes => RegistryStepKeeps(w, R.Finished);
    case DisposingRegistry => RegistryStepKeeps(w, R.Disposed);
  }

  lemma {:induction false} RunKeeps(w: World, actions: seq<Action>)
    requires WorldOk(w)
    ensures WorldOk(Run(w, actions))
    decreases |actions|
  {
    if actions != [] {
      hide Step, WorldOk;
      RunKeeps(w, actions[..|actions| - 1]);
      StepKeeps(Run(w, actions[..|actions| - 1]), actions[|actions| - 1]);
    }
  }

  // The guarantees over whole runs

  /** Nothing runs, nothing is left to be told, and the last rounds succeeded. */
  predicate AtRest(w: World) {
    && w.account.phase.Idle? && w.registry.phase.Idle? && w.accountNotices == 0 && w.registryNotices == 0
    && !w.account.disposed && !w.registry.disposed && !w.account.failed && w.registry.last.Some?
  }

  /**
   At rest, the registry shows exactly the current configuration and the current account, and the account is based on
   the current built-in configuration, whatever the interleaving was.
   */
  lemma {:induction false} RestIsCurrent(config: R.Config, actions: seq<Action>)
    requires AtRest(Run(InitialWorld(config), actions))
    ensures var w := Run(InitialWorld(config), actions);
      && w.account.snapshot.Some? && w.account.snapshot.value.basedOn == w.config.builtin
      && w.registry.snapshot == Some(R.Snapshot(w.config, w.account.snapshot.value))
  {
    RunKeeps(InitialWorld(config), actions);
  }

  /** The registry never publishes, and never hands to a waiter, a combination of two built-in revisions. */
  lemma {:induction false} NeverMixed(config: R.Config, actions: seq<Action>)
    ensures var r := Run(InitialWorld(config), actions).registry;
      && (r.snapshot.Some? ==> R.Consistent(r.snapshot.value))
      && forall x :: x in r.desk.settled && x.answer.Delivered? ==> R.Consistent(x.answer.value)
  {
    RunKeeps(InitialWorld(config), actions);
    hide Run;
  }

  /**
   Every request to either service is answered at most once, and by a round that began after it. Who still waits for
   the account is covered by the running round or by a queued reason, which is never left without a loop.
   */
  lemma {:induction false} AnswersComeInTime(config: R.Config, actions: seq<Action>)
    ensures var w := Run(InitialWorld(config), actions);
      && InTime(w.account.desk, w.account.requested) && InTime(w.registry.desk, w.registry.requested)
      && A.Covered(w.account) && R.Bookkeeping(w.registry)
      && (w.registry.snapshot.Some? ==> forall x :: x in w.registry.desk.waiters ==> x > w.registry.completed)
  {
    RunKeeps(InitialWorld(config), actions);
    hide Run;
  }
}
