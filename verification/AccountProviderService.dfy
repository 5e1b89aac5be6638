/** The account provider service as an object: one method per piece of code between two awaits. */
module AccountProviderService {
  import opened Wrappers
  import opened RefreshWaiters
  import opened AccountRefresh

  class AccountProviderService {
    var started: bool
    var disposed: bool
    var snapshot: Option<Account>
    var requestedGeneration: nat
    var pendingReasons: set<string>
    var inFlight: Phase
    var refreshWaiters: Desk<Account>
    ghost var failed: bool

    constructor ()
      ensures View() == Initial && Valid()
    {
      started, disposed, snapshot, requestedGeneration := false, false, None, 0;
      pendingReasons, inFlight, refreshWaiters, failed := {}, Idle, Desk([], []), false;
    }

    ghost function View(): Service
      reads this
    {
      Service(started, disposed, snapshot, requestedGeneration, pendingReasons, inFlight, refreshWaiters, failed)
    }

    ghost predicate Valid()
      reads this
    {
      ServiceOk(View())
    }

    /** The answer is at hand when there is a snapshot. */
    method Read() returns (found: Option<Account>)
      requires Valid()
      modifies this
      ensures View() == AccountRefresh.Read(old(View())) && Valid()
      ensures found == if old(disposed) then None else old(snapshot)
    {
      ReadKeeps(View());
      if disposed {
        return None;
      }
      started := true;
      if snapshot.Some? {
        return snapshot;
      }
      if inFlight.Idle? {
        RequestRefresh("start");
      }
      return None;
    }

    method Refresh(reason: string) returns (accepted: bool)
      requires Valid()
      modifies this
      ensures View() == Request(old(View()), reason) && Valid() && accepted == !old(disposed)
    {
      if disposed {
        return false;
      }
      started := true;
      RequestRefresh(reason);
      return true;
    }

    method RequestRefresh(reason: string)
      requires ServiceOk(View()) && !disposed && started
      modifies this
      ensures View() == Request(old(View()), reason) && Valid()
    {
      RequestKeeps(View(), reason);
      var generation := requestedGeneration + 1;
      requestedGeneration := generation;
      pendingReasons := pendingReasons + {reason};
      refreshWaiters := Desk(refreshWaiters.waiters + [generation], refreshWaiters.settled);
      if inFlight.Idle? {
        RunRefreshLoop();
      }
    }

    /** The head of the loop, up to the first await of a round or to the end. */
    method RunRefreshLoop()
      modifies `inFlight, `pendingReasons
      ensures View() == Loop(old(View()))
    {
      if pendingReasons != {} {
        inFlight := Running(requestedGeneration, Reading);
        pendingReasons := {};
      } else {
        inFlight := Returning;
      }
    }

    /** `config` arrived; the account is resolved next. */
    method ConfigArrives(builtin: Revision)
      requires Valid() && inFlight.Running? && inFlight.round.Reading?
      modifies `inFlight
      ensures View() == ConfigRead(old(View()), builtin) && Valid()
    {
      SamplesKeep(View(), builtin);
      inFlight := Running(inFlight.generation, Resolving(builtin));
    }

    /** The resolver answered; the configuration is read once more. */
    method ResolverAnswers(content: nat)
      requires Valid() && inFlight.Running? && inFlight.round.Resolving?
      modifies this
      ensures View() == AccountResolved(old(View()), content) && Valid()
    {
      ResolvedKeeps(View(), content);
      if disposed {
        Throw();
        return;
      }
      inFlight := Running(inFlight.generation, Checking(inFlight.round.builtin, Resolved(content), None));
    }

    method ConfigArrivesAgain(builtin: Revision)
      requires Valid() && inFlight.Running? && inFlight.round.Checking? && inFlight.round.again.None?
      modifies `inFlight
      ensures View() == ConfigReadAgain(old(View()), builtin) && Valid()
    {
      SamplesKeep(View(), builtin);
      inFlight := Running(inFlight.generation, inFlight.round.(again := Some(builtin)));
    }

    /** The end of a round: superseded, unchanged, or published. `changed`: listeners are to be told. */
    method ConcludeRound() returns (changed: bool)
      requires Valid() && Concluding(View())
      modifies this
      ensures View() == Conclude(old(View())) && Valid() && changed == old(Tells(View()))
    {
      ConcludeKeeps(View());
      if disposed {
        Throw();
        return false;
      }
      var round := inFlight.round;
      if pendingReasons != {} || round.again.value != round.builtin {
        pendingReasons := pendingReasons + {"superseded-resolution"};
        RunRefreshLoop();
        return false;
      }
      var next := Account(round.builtin, round.content);
      changed := snapshot.Some? && snapshot.value != next;
      snapshot := Some(next);
      failed := false;
      refreshWaiters := SettleWaiters(refreshWaiters, inFlight.generation, Delivered(inFlight.generation, next));
      RunRefreshLoop();
    }

    /** The catch block of the loop. */
    method Throw()
      requires Valid() && inFlight.Running?
      modifies this
      ensures View() == Fail(old(View())) && Valid()
    {
      FailKeeps(View());
      var generation := inFlight.generation;
      if snapshot.None? && !inFlight.round.Reading? {
        var closed := Account(inFlight.round.builtin, FailClosed);
        snapshot := Some(closed);
        failed := false;
        refreshWaiters := SettleWaiters(refreshWaiters, generation, Delivered(generation, closed));
        RunRefreshLoop();
        return;
      }
      refreshWaiters := SettleWaiters(refreshWaiters, generation, Refused(generation));
      inFlight := Returning;
      failed := true;
    }

    method FinishRefresh()
      requires Valid() && inFlight.Returning?
      modifies `inFlight, `pendingReasons
      ensures View() == Finish(old(View())) && Valid()
    {
      FinishKeeps(View());
      inFlight := Idle;
      if disposed || pendingReasons == {} {
        return;
      }
      RunRefreshLoop();
    }

    method DisposeService()
      requires Valid()
      modifies this
      ensures View() == Dispose(old(View())) && Valid()
    {
      DisposeKeeps(View());
      if disposed {
        return;
      }
      disposed := true;
      refreshWaiters := AbandonWaiters(refreshWaiters);
    }
  }
}
