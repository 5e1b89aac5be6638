/** When the queue moves: what draining does, in every case. */
module SessionDraining {
  import opened Wrappers
  import opened PositionOrder
  import opened SessionState
  import opened SessionSteps
  import opened SessionQueue
  import opened SessionAdmission

  /** It waits, and nothing that waits comes before it. */
  ghost predicate Next(s: State, w: Work) {
    Waits(s, w) && forall v :: Waits(s, v) ==> Position(s, w) <= Position(s, v)
  }

  /** The engine may be executing a compaction that comes first. */
  ghost predicate Blocked(s: State, w: Work)
    requires Waits(s, w)
  {
    exists c :: c in s.upkeep.compactions && s.upkeep.compactions[c].status in {CompactRequested, CompactAccepted}
      && (s.upkeep.compactions[c].position.Some? ==> s.upkeep.compactions[c].position.value <= Position(s, w))
  }

  ghost predicate Lost(s: State) {
    SomeInput(s, Unknown) || SomeCompaction(s, CompactUnknown)
  }

  /** Something waits for good: the Task or Session is not active, or an outcome is unknown. */
  ghost predicate Hopeless(s: State) {
    && !s.draining && (exists w :: Waits(s, w))
    && (s.task != TaskActive || s.session != SessionActive || (!s.paused && Lost(s)))
  }

  ghost predicate Due(s: State, w: Work) {
    && !s.draining && s.task == TaskActive && s.session == SessionActive && !s.paused && !Lost(s) && !Running(s)
    && Next(s, w) && !Blocked(s, w)
  }

  /** Held by the Input, unexpired, with a locator. */
  ghost predicate AtHand(s: State, i: Id, usable: set<Id>) {
    && i in s.turns.inputs
    && forall k :: 0 <= k < |s.turns.inputs[i].request.attachments| ==>
         var a := s.turns.inputs[i].request.attachments[k];
         && a in usable && a in s.files.attachments
         && s.files.attachments[a].holder == Some(i) && s.files.attachments[a].locator
  }

  /** The attachments of waiting Inputs lose their locators. */
  ghost predicate LocatorsDropped(s: State, s': State) {
    && s'.files == s.files.(attachments := s'.files.attachments)
    && s'.files.attachments.Keys == s.files.attachments.Keys
    && forall a :: a in s.files.attachments ==>
         s'.files.attachments[a] == if HeldWaiting(s, a) then s.files.attachments[a].(locator := false)
                                    else s.files.attachments[a]
  }

  predicate HeldWaiting(s: State, a: Id)
    requires a in s.files.attachments
  {
    match s.files.attachments[a].holder
    case None => false
    case Some(i) => i in s.turns.inputs && s.turns.inputs[i].status == Queued && a in s.turns.inputs[i].request.attachments
  }

  /** Every queued Input is rejected, and no other Input changes. */
  ghost predicate InputsRejected(s: State, s': State) {
    && s'.turns == s.turns.(inputs := s'.turns.inputs) && s'.turns.inputs.Keys == s.turns.inputs.Keys
    && LocatorsDropped(s, s')
    && forall i :: i in s.turns.inputs ==>
         s'.turns.inputs[i] == if s.turns.inputs[i].status == Queued then s.turns.inputs[i].(status := Rejected)
                               else s.turns.inputs[i]
  }

  ghost predicate CompactionsFailed(s: State, s': State) {
    && s'.upkeep == s.upkeep.(compactions := s'.upkeep.compactions)
    && s'.upkeep.compactions.Keys == s.upkeep.compactions.Keys
    && forall c :: c in s.upkeep.compactions ==>
         s'.upkeep.compactions[c] == if s.upkeep.compactions[c].status == CompactQueued then Compaction(CompactFailed, None)
                                     else s.upkeep.compactions[c]
  }

  ghost predicate InputStarts(s: State, s': State, i: Id) {
    && i in s.turns.inputs && s'.upkeep == s.upkeep
    && s'.turns.inputs == s.turns.inputs[i := s.turns.inputs[i].(status := Received, position := None)]
    && s'.turns.dispatching == s.turns.dispatching[i := Probing(true)]
    && s'.files == s.files.(attachments := s'.files.attachments)
    && s'.files.attachments.Keys == s.files.attachments.Keys
    && forall a :: a in s.files.attachments ==>
         s'.files.attachments[a] == if a in s.turns.inputs[i].request.attachments
                                    then s.files.attachments[a].(locator := false) else s.files.attachments[a]
  }

  ghost predicate CompactionStarts(s: State, s': State, c: Id) {
    && c in s.upkeep.compactions && s'.turns == s.turns
    && s'.upkeep == s.upkeep.(
         compactions := s.upkeep.compactions[c := s.upkeep.compactions[c].(status := CompactRequested)],
         compacting := s.upkeep.compacting[c := CompactProbing(false)])
  }

  lemma Starts(s: State, i: Id)
    requires i in s.turns.inputs
    ensures InputStarts(s, Promote(s, i), i)
  {
  }

  lemma CompactStarts(s: State, c: Id)
    requires c in s.upkeep.compactions
    ensures CompactionStarts(s, s.(upkeep := PromoteCompact(s.upkeep, c)), c)
  {
  }

  lemma GivenUp(s: State)
    ensures InputsRejected(s, RejectQueuedInputs(s)) && RejectQueuedInputs(s).upkeep == s.upkeep
    ensures InputsRejected(s, StopQueue(s)) && CompactionsFailed(s, StopQueue(s))
  {
    hide DropLocators, LocatorsDropped;
    DropsLocators(s, RejectQueuedInputs(s));
    DropsLocators(s, StopQueue(s));
  }

  lemma DropsLocators(s: State, s': State)
    requires s'.files == DropLocators(s.files, s.turns.inputs)
    ensures LocatorsDropped(s, s')
  {
  }

  lemma NextIsHead(s: State, w: Work)
    requires QueueOk(s)
    ensures Next(s, w) <==> QueueOf(s) != [] && QueueOf(s)[0] == w
  {
    hide QueueOk, QueueOf, DistinctPositions;
    QueueLists(s);
    if Next(s, w) {
      PlacesDistinct(s);
      SamePlace(s, QueueOf(s)[0], w);
    }
  }

  lemma SamePlace(s: State, v: Work, w: Work)
    requires DistinctPositions(Places(s)) && Waits(s, v) && Waits(s, w) && Position(s, v) == Position(s, w)
    ensures v == w
  {
    WaitingIff(s, v);
    WaitingIff(s, w);
    assert Places(s)[v] == Places(s)[w];
  }

  lemma BlockedIff(s: State, w: Work)
    requires Waits(s, w)
    ensures Blocked(s, w) <==> BehindBarrier(s.upkeep, Position(s, w))
  {
    hide Position, Waits;
    if c :| c in s.upkeep.compactions && CompactBarrier(s.upkeep.compactions[c], Position(s, w)) {
      assert Blocked(s, w);
    }
  }

  lemma AtHandIff(s: State, i: Id, usable: set<Id>)
    requires i in s.turns.inputs
    ensures AtHand(s, i, usable) <==> AllTakeable(s, i, usable)
  {
    var wanted := s.turns.inputs[i].request.attachments;
    if AtHand(s, i, usable) {
      forall a | a in wanted ensures Takeable(s.files, a, i, usable) {
        var k :| 0 <= k < |wanted| && wanted[k] == a;
      }
    } else {
      forall k | 0 <= k < |wanted| && Takeable(s.files, wanted[k], i, usable)
        ensures wanted[k] in s.files.attachments && s.files.attachments[wanted[k]].holder == Some(i) {
      }
    }
  }

  lemma HopelessIff(s: State)
    requires QueueOk(s)
    ensures Hopeless(s) <==> Progressing(s).GiveUp?
  {
    hide QueueOk, QueueOf, HasInput, HasCompact, HasDriving, BehindBarrier, SomeInput, SomeCompaction, Waits, Position;
    Questions(s);
    QueueLists(s);
  }

  lemma DueIff(s: State, w: Work)
    requires QueueOk(s)
    ensures Due(s, w) <==> Progressing(s) == Advance(w)
  {
    hide QueueOk, QueueOf, HasInput, HasCompact, HasDriving, BehindBarrier, SomeInput, SomeCompaction, Running, Waits,
      Next, Blocked, Position;
    Questions(s);
    QueueLists(s);
    NextIsHead(s, w);
    if Waits(s, w) {
      BlockedIff(s, w);
    }
  }

  /** What becomes of the queue when it is drained, in every case. */
  lemma DrainsExactlyWhen(s: State, ok: bool, usable: set<Id>)
    requires QueueOk(s)
    ensures var s' := Step(s, Draining(ok, usable));
      && (Hopeless(s) ==> InputsRejected(s, s') && CompactionsFailed(s, s'))
      && (forall i :: Due(s, InputWork(i)) ==>
            if ok && AtHand(s, i, usable) && !RewindPending(s) then InputStarts(s, s', i)
            else InputsRejected(s, s') && s'.upkeep == s.upkeep)
      && (forall c :: Due(s, CompactWork(c)) ==>
            if ok then CompactionStarts(s, s', c)
            else InputsRejected(s, s') && CompactionsFailed(s, s'))
      && (!Hopeless(s) && (forall w :: !Due(s, w)) ==> s' == s)
  {
    hide Step, Progressing, Due, Hopeless, InputStarts, CompactionStarts, AtHand, AllTakeable, StopQueue,
      RejectQueuedInputs, Promote, PromoteCompact, InputsRejected, CompactionsFailed, QueueOk, RewindPending;
    QueueSteps(s, Draining(ok, usable));
    GivenUp(s);
    assert HasRewind(s.upkeep, RewindRequested) == RewindPending(s) by { Questions(s); }
    HopelessIff(s);
    forall w ensures Due(s, w) <==> Progressing(s) == Advance(w) {
      DueIff(s, w);
    }
    match Progressing(s)
    case Hold =>
    case GiveUp =>
    case Advance(next) =>
      assert Due(s, next);
      match next {
        case InputWork(i) =>
          AtHandIff(s, i, usable);
          Starts(s, i);
        case CompactWork(c) =>
          CompactStarts(s, c);
      }
  }
}
