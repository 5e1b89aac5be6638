/** The provider registry service as an object: one method per piece of code between two awaits. */
module ProviderRegistryService {
  import opened Wrappers
  import opened RefreshWaiters
  import opened RegistryRefresh

  class ProviderRegistryService {
    var started: bool
    var disposed: bool
    var snapshot: Option<Snapshot>
    var requestedGeneration: nat
    var completedGeneration: nat
    var inFlight: Phase
    var refreshWaiters: Desk<Snapshot>
    ghost var last: Option<Snapshot>

    constructor ()
      ensures View() == Initial && Valid()
    {
      started, disposed, snapshot, requestedGeneration, completedGeneration := false, false, None, 0, 0;
      inFlight, refreshWaiters, last := Idle, Desk([], []), None;
    }

    ghost function View(): Service
      reads this
    {
      Service(started, disposed, snapshot, requestedGeneration, completedGeneration, inFlight, refreshWaiters, last)
    }

    ghost predicate Valid()
      reads this
    {
      ServiceOk(View())
    }

    method StartService() returns (accepted: bool)
      requires Valid()
      modifies this
      ensures View() == Start(old(View())) && Valid() && accepted == !old(disposed)
    {
      NextKeeps(View(), Started);
      if disposed {
        return false;
      }
      if !started {
        started := true;
        RequestRefresh();
        return true;
      }
      if snapshot.None? {
        RequestRefresh();
      }
      return true;
    }

    /** A refresh by a caller, or because a source changed. */
    method RefreshFrom() returns (accepted: bool)
      requires Valid()
      modifies this
      ensures View() == Refresh(old(View())) && Valid() && accepted == old(started && !disposed)
    {
      NextKeeps(View(), Refreshed);
      if disposed || !started {
        return false;
      }
      RequestRefresh();
      return true;
    }

    method RequestRefresh()
      requires !disposed
      modifies this
      ensures View() == Request(old(View()))
    {
      var generation := requestedGeneration + 1;
      requestedGeneration := generation;
      refreshWaiters := Desk(refreshWaiters.waiters + [generation], refreshWaiters.settled);
      EnsureRefreshLoop();
    }

    method EnsureRefreshLoop()
      modifies `inFlight
      ensures View() == if old(inFlight.Idle? && !disposed) then Loop(old(View())) else old(View())
    {
      if !inFlight.Idle? || disposed {
        return;
      }
      RunRefreshLoop();
    }

    /** The head of the loop, up to the reads of a round or to the end. */
    method RunRefreshLoop()
      modifies `inFlight
      ensures View() == Loop(old(View()))
    {
      if completedGeneration < requestedGeneration {
        inFlight := Reading(requestedGeneration, None, None, None);
      } else {
        inFlight := Returning;
      }
    }

    /** A read failed: a newer request makes the loop go round, otherwise the round fails. */
    method ReadFails()
      requires Valid() && inFlight.Reading?
      modifies this
      ensures View() == ReadFailed(old(View())) && Valid()
    {
      NextKeeps(View(), ReadHasFailed);
      var generation := inFlight.generation;
      if generation < requestedGeneration {
        RunRefreshLoop();
        return;
      }
      refreshWaiters := SettleWaiters(refreshWaiters, generation, Refused(generation));
      completedGeneration := generation;
      inFlight := Returning;
      last := None;
    }

    /** Both sources were read. `resolves`: the resolver and the registry accept the combination. */
    method ConcludeRound(resolves: bool) returns (changed: bool)
      requires Valid() && HasRead(View())
      modifies this
      ensures View() == Conclude(old(View()), resolves) && Valid()
      ensures changed <==> snapshot != old(snapshot)
    {
      hide ServiceOk, Remaining, Answers;
      ConcludeKeeps(View(), resolves);
      var generation := inFlight.generation;
      changed := false;
      if generation < requestedGeneration {
        RunRefreshLoop();
        return;
      }
      if disposed {
        refreshWaiters := SettleWaiters(refreshWaiters, requestedGeneration, Refused(requestedGeneration));
        inFlight := Returning;
        return;
      }
      var config := Config(inFlight.builtin.value, inFlight.personal.value);
      var account := inFlight.account.value;
      if account.basedOn != config.builtin {
        completedGeneration := generation;
        if snapshot.Some? {
          refreshWaiters := SettleWaiters(refreshWaiters, generation, Delivered(generation, snapshot.value));
        }
        last := Some(Snapshot(config, account));
        RunRefreshLoop();
        return;
      }
      if HasSameSourceRevisions(config, account) {
        completedGeneration := generation;
        refreshWaiters := SettleWaiters(refreshWaiters, generation, Delivered(generation, snapshot.value));
        last := snapshot;
        RunRefreshLoop();
        return;
      }
      completedGeneration := generation;
      if !resolves {
        refreshWaiters := SettleWaiters(refreshWaiters, generation, Refused(generation));
        inFlight := Returning;
        last := None;
        return;
      }
      changed := true;
      snapshot := Some(Snapshot(config, account));
      refreshWaiters := SettleWaiters(refreshWaiters, generation, Delivered(generation, snapshot.value));
      last := snapshot;
      RunRefreshLoop();
    }

    predicate HasSameSourceRevisions(config: Config, account: Account)
      reads this
    {
      snapshot.Some? && snapshot.value.config == config && snapshot.value.account == account
    }

    method FinishRefresh()
      requires Valid() && inFlight.Returning?
      modifies `inFlight
      ensures View() == Finish(old(View())) && Valid()
    {
      NextKeeps(View(), Finished);
      inFlight := Idle;
      if completedGeneration < requestedGeneration {
        EnsureRefreshLoop();
      }
    }

    method DisposeService()
      requires Valid()
      modifies this
      ensures View() == Dispose(old(View())) && Valid()
    {
      NextKeeps(View(), Disposed);
      if disposed {
        return;
      }
      disposed := true;
      refreshWaiters := AbandonWaiters(refreshWaiters);
    }
  }
}
