/**
 The queue that Inputs and compactions of a Session share, and the exclusion between Inputs, compactions and file
 rewinds.
 */
module SessionQueue {
  import opened Wrappers
  import opened PositionOrder
  import opened SessionState
  import opened SessionSteps
  import opened SessionQuiet

  ghost predicate OneCompaction(compactions: map<Id, Compaction>) {
    forall c, d {:trigger compactions[c], compactions[d]} ::
      c in compactions && d in compactions && ActiveCompact(compactions[c].status) && ActiveCompact(compactions[d].status)
      ==> c == d
  }

  /** A requested file rewind is alone: no other one, no queued Input, no active compaction. */
  ghost predicate RewindAlone(inputs: map<Id, Input>, u: Upkeep) {
    forall r :: r in u.rewinds && u.rewinds[r].status.RewindRequested? ==>
      && (forall i :: i in inputs ==> !inputs[i].status.Queued?)
      && (forall c :: c in u.compactions ==> !ActiveCompact(u.compactions[c].status))
      && (forall x :: x in u.rewinds && u.rewinds[x].status.RewindRequested? ==> x == r)
  }

  /** Waiting work has pairwise distinct positions. */
  ghost predicate DistinctPlaces(inputs: map<Id, Input>, compactions: map<Id, Compaction>) {
    && (forall i :: QueuedInput(inputs, i) ==> inputs[i].position.Some?)
    && (forall i, j {:trigger inputs[i], inputs[j]} ::
          QueuedInput(inputs, i) && QueuedInput(inputs, j) && inputs[i].position == inputs[j].position ==> i == j)
    && (forall i, c {:trigger inputs[i], compactions[c]} ::
          QueuedInput(inputs, i) && QueuedCompaction(compactions, c) ==> inputs[i].position != compactions[c].position)
  }

  predicate NativeCompact(c: Compaction) {
    c.status.CompactRequested? || c.status.CompactAccepted?
  }

  /** Inputs are queued behind a compaction that the engine may be executing. */
  ghost predicate Barrier(inputs: map<Id, Input>, compactions: map<Id, Compaction>) {
    forall i, c {:trigger inputs[i], compactions[c]} ::
      QueuedInput(inputs, i) && c in compactions && NativeCompact(compactions[c]) && compactions[c].position.Some?
      ==> compactions[c].position.value < inputs[i].position.GetOr(0)
  }

  ghost predicate InQueue(inputs: map<Id, Input>, u: Upkeep) {
    && OneCompaction(u.compactions) && RewindAlone(inputs, u)
    && DistinctPlaces(inputs, u.compactions) && Barrier(inputs, u.compactions)
    && (forall c :: c in u.compactions && u.compactions[c].status.CompactQueued? ==> u.compactions[c].position.Some?)
    && (forall c :: c in u.compacting ==> c in u.compactions && NativeCompact(u.compactions[c]))
  }

  ghost predicate QueueOk(s: State) {
    InQueue(s.turns.inputs, s.upkeep)
  }

  /** Compactions and rewinds only moved on. */
  ghost predicate QuietUpkeep(u: Upkeep, v: Upkeep) {
    && (forall c :: c in v.compactions && ActiveCompact(v.compactions[c].status) ==>
          && c in u.compactions && ActiveCompact(u.compactions[c].status)
          && (v.compactions[c].status.CompactQueued? ==> v.compactions[c] == u.compactions[c])
          && (NativeCompact(v.compactions[c]) ==>
                NativeCompact(u.compactions[c]) && v.compactions[c].position == u.compactions[c].position))
    && (forall r :: r in v.rewinds && v.rewinds[r].status.RewindRequested? ==>
          r in u.rewinds && u.rewinds[r].status.RewindRequested?)
    && (forall c :: c in v.compacting && c in u.compactions && NativeCompact(u.compactions[c]) ==>
          c in u.compacting && c in v.compactions && NativeCompact(v.compactions[c]))
    && v.compacting.Keys <= u.compacting.Keys
  }

  lemma QuietKeepsQueue(inputs: map<Id, Input>, after: map<Id, Input>, u: Upkeep, v: Upkeep)
    requires InQueue(inputs, u) && Quiet(inputs, after) && QuietUpkeep(u, v)
    ensures InQueue(after, v)
  {
  }

  /** Steps that neither queue nor start anything. */
  predicate StillAction(a: Action) {
    QuietAction(a) && !a.RequestingCompact? && !a.RequestingRewind?
  }

  lemma FailCompactionsQuiet(u: Upkeep)
    ensures QuietUpkeep(u, FailCompactions(u)) && QuietUpkeep(u, u)
  {
  }

  lemma SettleQuiet(u: Upkeep, c: Id, status: CompactStatus)
    requires CompactResult(status) && c in u.compactions && NativeCompact(u.compactions[c])
    ensures QuietUpkeep(u, SettleCompact(u, c, status))
  {
  }

  lemma AcceptQuiet(s: State, c: Id)
    ensures QuietUpkeep(s.upkeep, AcceptCompact(s, c).upkeep)
  {
  }

  lemma FinishRewindQuiet(s: State, r: Id, status: RewindStatus)
    ensures QuietUpkeep(s.upkeep, FinishRewind(s, r, status).upkeep)
  {
  }

  lemma RecoverQuiet(u: Upkeep)
    ensures QuietUpkeep(u, RecoverUpkeep(u)) && QuietUpkeep(u, LoseCalls(u))
  {
  }

  predicate UpkeepAction(a: Action) {
    a.CallingCompact? || a.AcceptingCompact? || a.FinishingCompact? || a.FinishingRewind?
  }

  lemma CompactingIsNative(s: State, c: Id)
    requires QueueOk(s)
    ensures c in s.upkeep.compacting ==> c in s.upkeep.compactions && NativeCompact(s.upkeep.compactions[c])
  {
  }

  lemma UpkeepActionQuiet(s: State, a: Action)
    requires QueueOk(s) && UpkeepAction(a)
    ensures QuietUpkeep(s.upkeep, Step(s, a).upkeep)
  {
    hide QueueOk, QuietUpkeep, AcceptCompact, FinishRewind, CallCompact, FinishCompact;
    CompactingIsNative(s, a.id);
    match a {
      case CallingCompact(c, ok) => CallQuiet(s, c, ok);
      case AcceptingCompact(c) => AcceptQuiet(s, c);
      case FinishingCompact(c, status) => FinishQuiet(s, c, status);
      case FinishingRewind(r, status) => FinishRewindQuiet(s, r, status);
    }
  }

  lemma FinishQuiet(s: State, c: Id, status: CompactStatus)
    requires c in s.upkeep.compacting ==> c in s.upkeep.compactions && NativeCompact(s.upkeep.compactions[c])
    ensures QuietUpkeep(s.upkeep, FinishCompact(s, c, status).upkeep)
  {
    if c in s.upkeep.compacting && CompactResult(status) {
      SettleQuiet(s.upkeep, c, status);
    }
  }

  lemma StillUpkeep(s: State, a: Action)
    requires StillAction(a) && !UpkeepAction(a)
    ensures QuietUpkeep(s.upkeep, Step(s, a).upkeep)
  {
    hide QuietUpkeep, RecoverUpkeep, FailCompactions, SetUnknown, RejectInputs, DropLocators, RecoverTurns, Deliver,
      Undispatched, SettledStop, Waiting, AllTakeable, CancelInput, Release, ConfirmStops, LeaveStopsUnconfirmed;
    FailCompactionsQuiet(s.upkeep);
    RecoverQuiet(s.upkeep);
    if a.Delivering? {
      DeliverUpkeep(s, a.id, a.event, a.execution);
    }
  }

  lemma CallQuiet(s: State, c: Id, ok: bool)
    requires c in s.upkeep.compacting ==> c in s.upkeep.compactions && NativeCompact(s.upkeep.compactions[c])
    ensures QuietUpkeep(s.upkeep, CallCompact(s, c, ok).upkeep)
  {
  }

  lemma DeliverUpkeep(s: State, i: Id, event: Event, e: Id)
    ensures Deliver(s, i, event, e).upkeep == s.upkeep
  {
    hide SetUnknown, RejectInputs, DropLocators, TurnsAfter, Settles, MarkTerminal, LateAnswer, InteractionsAfter,
      StopsAfter, Ignored;
  }

  lemma StillStepKeeps(s: State, a: Action)
    requires QueueOk(s) && StillAction(a)
    ensures QueueOk(Step(s, a))
  {
    hide InQueue, Quiet, QuietUpkeep, Step;
    QuietStepContinues(s, a);
    if UpkeepAction(a) {
      UpkeepActionQuiet(s, a);
    } else {
      StillUpkeep(s, a);
    }
    QuietKeepsQueue(s.turns.inputs, Step(s, a).turns.inputs, s.upkeep, Step(s, a).upkeep);
  }

  // Steps that queue or start something

  /** Everything that waits or is an active compaction has a smaller position. */
  ghost predicate BehindAll(inputs: map<Id, Input>, compactions: map<Id, Compaction>, p: nat) {
    && (forall i :: QueuedInput(inputs, i) ==> inputs[i].position.GetOr(0) < p)
    && (forall c :: c in compactions && ActiveCompact(compactions[c].status) ==> compactions[c].position.GetOr(0) < p)
  }

  lemma NextIsBehind(s: State)
    ensures BehindAll(s.turns.inputs, s.upkeep.compactions, NextPosition(s))
  {
    forall i | QueuedInput(s.turns.inputs, i) ensures s.turns.inputs[i].position.GetOr(0) < NextPosition(s) {
      assert InputWork(i) in Waiting(s) && Position(s, InputWork(i)) in TakenPositions(s);
    }
    forall c | c in s.upkeep.compactions && ActiveCompact(s.upkeep.compactions[c].status)
      ensures s.upkeep.compactions[c].position.GetOr(0) < NextPosition(s) {
      assert s.upkeep.compactions[c].position.GetOr(0) in TakenPositions(s);
    }
  }

  lemma QueueUp(inputs: map<Id, Input>, u: Upkeep, id: Id, input: Input, p: nat)
    requires InQueue(inputs, u) && id !in inputs && !HasRewind(u, RewindRequested)
    requires BehindAll(inputs, u.compactions, p) && input.status.Queued? && input.position == Some(p)
    ensures InQueue(inputs[id := input], u)
  {
    var after := inputs[id := input];
    assert RewindAlone(after, u);
    assert DistinctPlaces(after, u.compactions);
    assert Barrier(after, u.compactions);
  }

  lemma EnqueueKeeps(s: State, id: Id, request: Request)
    requires QueueOk(s) && id !in s.turns.inputs && !HasRewind(s.upkeep, RewindRequested)
    ensures QueueOk(EnqueueInput(s, id, request))
  {
    hide InQueue, BehindAll, NextPosition;
    NextIsBehind(s);
    QueueUp(s.turns.inputs, s.upkeep, id, Input(Queued, request, Some(NextPosition(s)), None), NextPosition(s));
  }

  lemma StartKeeps(s: State, id: Id, request: Request)
    requires QueueOk(s) && id !in s.turns.inputs && Idle(s)
    ensures QueueOk(StartInput(s, id, request)) && QueueOk(RefuseInput(s, id, request))
  {
  }

  lemma SubmitKeepsQueue(s: State, id: Id, request: Request, ok: bool, usable: set<Id>)
    requires QueueOk(s)
    ensures QueueOk(Submit(s, id, request, ok, usable))
  {
    hide InQueue, Decide, AllClaimable, EnqueueInput, StartInput, RefuseInput;
    match Decide(s, id, request, ok, usable) {
      case Enqueue => EnqueueKeeps(s, id, request);
      case Start => StartKeeps(s, id, request);
      case _ =>
    }
  }

  lemma RequestRewindKeeps(s: State, r: Id, e: Id, ok: bool)
    requires QueueOk(s)
    ensures QueueOk(RequestRewind(s, r, e, ok))
  {
  }

  lemma AddCompact(inputs: map<Id, Input>, u: Upkeep, c: Id, record: Compaction, compacting: map<Id, CompactCall>, p: nat)
    requires InQueue(inputs, u) && c !in u.compactions && !HasActiveCompact(u) && !HasRewind(u, RewindRequested)
    requires BehindAll(inputs, u.compactions, p)
    requires compacting == u.compacting || (record.status.CompactRequested? && compacting.Keys == u.compacting.Keys + {c})
    requires if record.status.CompactRequested? then forall i :: i in inputs ==> !inputs[i].status.Queued?
             else record == Compaction(CompactQueued, Some(p))
    ensures InQueue(inputs, u.(compactions := u.compactions[c := record], compacting := compacting))
  {
  }

  lemma RequestCompactKeeps(s: State, c: Id, instructions: bool, ok: bool)
    requires QueueOk(s)
    ensures QueueOk(RequestCompact(s, c, instructions, ok))
  {
    var after := RequestCompact(s, c, instructions, ok);
    NextIsBehind(s);
    hide InQueue, BehindAll, NextPosition;
    if after != s {
      AddCompact(s.turns.inputs, s.upkeep, c, after.upkeep.compactions[c], after.upkeep.compacting, NextPosition(s));
    }
  }

  // Draining

  lemma PromoteKeepsQueue(s: State, i: Id)
    requires QueueOk(s) && QueuedInput(s.turns.inputs, i) && !HasRewind(s.upkeep, RewindRequested)
    ensures QueueOk(Promote(s, i))
  {
  }

  /** A compaction at the head of the queue becomes a barrier for everything behind it. */
  lemma PromoteCompactKeeps(s: State, c: Id)
    requires QueueOk(s) && QueuedCompaction(s.upkeep.compactions, c)
    requires forall i :: QueuedInput(s.turns.inputs, i) ==>
      s.upkeep.compactions[c].position.value <= s.turns.inputs[i].position.GetOr(0)
    ensures InQueue(s.turns.inputs, PromoteCompact(s.upkeep, c))
  {
  }

  lemma WaitingIff(s: State, w: Work)
    ensures w in Places(s) <==> Waits(s, w)
  {
  }

  lemma PlacesDistinct(s: State)
    requires QueueOk(s)
    ensures DistinctPositions(Places(s))
  {
    var m := Places(s);
    forall x, y | x in m && y in m && m[x] == m[y] ensures x == y {
      WaitingIff(s, x);
      WaitingIff(s, y);
      assert x.CompactWork? && y.CompactWork? ==> x.id == y.id by {
        assert OneCompaction(s.upkeep.compactions);
      }
    }
  }

  /** The queue lists exactly the waiting work, by ascending position. */
  lemma QueueLists(s: State)
    requires QueueOk(s)
    ensures Lists(QueueOf(s), Places(s))
    ensures QueueOf(s) != [] ==> Waits(s, QueueOf(s)[0])
    ensures forall w :: Waits(s, w) ==> QueueOf(s) != [] && Position(s, QueueOf(s)[0]) <= Position(s, w)
  {
    PlacesDistinct(s);
    OrderLists(Places(s));
    HeadIsLeast(QueueOf(s), Places(s));
    forall w ensures w in Places(s) <==> Waits(s, w) {
      WaitingIff(s, w);
    }
  }

  lemma DrainKeepsQueue(s: State, ok: bool, usable: set<Id>)
    requires QueueOk(s)
    ensures QueueOk(Drain(s, ok, usable))
  {
    RejectKeepsQueue(s);
    if QueueOf(s) != [] {
      QueueLists(s);
      var next := QueueOf(s)[0];
      hide InQueue, QueueOf, Progressing, RejectQueuedInputs, StopQueue, Promote, PromoteCompact;
      match next {
        case CompactWork(c) =>
          forall i | QueuedInput(s.turns.inputs, i)
            ensures s.upkeep.compactions[c].position.value <= s.turns.inputs[i].position.GetOr(0) {
            assert Waits(s, InputWork(i));
          }
          PromoteCompactKeeps(s, c);
        case InputWork(i) =>
          if !HasRewind(s.upkeep, RewindRequested) { PromoteKeepsQueue(s, i); }
      }
    }
  }

  lemma RejectKeepsQueue(s: State)
    requires QueueOk(s)
    ensures QueueOk(RejectQueuedInputs(s)) && QueueOk(StopQueue(s))
  {
    FailCompactionsQuiet(s.upkeep);
    assert Quiet(s.turns.inputs, RejectInputs(s.turns.inputs));
    hide InQueue, QuietUpkeep, Quiet;
    QuietKeepsQueue(s.turns.inputs, RejectInputs(s.turns.inputs), s.upkeep, s.upkeep);
    QuietKeepsQueue(s.turns.inputs, RejectInputs(s.turns.inputs), s.upkeep, FailCompactions(s.upkeep));
  }

  // Moving

  /** Positions that follow a list of all queued Inputs are distinct, and no compaction has a place among them. */
  lemma RenumberKeepsQueue(inputs: map<Id, Input>, u: Upkeep, order: seq<Id>)
    requires InQueue(inputs, u) && forall i :: i in order <==> QueuedInput(inputs, i)
    requires forall c :: c in u.compactions && ActiveCompact(u.compactions[c].status) ==> u.compactions[c].position.None?
    ensures InQueue(Renumber(inputs, order), u)
  {
    var after := Renumber(inputs, order);
    assert DistinctPlaces(after, u.compactions) by {
      assert forall i :: QueuedInput(after, i) ==> after[i].position == Some(IndexOf(order, i));
    }
  }

  lemma MoveKeepsQueue(s: State, i: Id, before: Option<Id>, ok: bool)
    requires QueueOk(s)
    ensures QueueOk(MoveQueued(s, i, before, ok))
  {
    if MayMove(s, i, before, ok) && before != Some(i) {
      var rest := Without(InputQueue(s.turns.inputs), i);
      InputQueueLists(s.turns.inputs, s.upkeep);
      WithoutMembers(InputQueue(s.turns.inputs), i);
      InsertMembers(rest, i, before);
      hide InQueue, InsertBefore, Without, InputQueue, Renumber;
      RenumberKeepsQueue(s.turns.inputs, s.upkeep, InsertBefore(rest, i, before));
    }
  }

  lemma InputQueueLists(inputs: map<Id, Input>, u: Upkeep)
    requires InQueue(inputs, u)
    ensures DistinctPositions(InputPositions(inputs))
    ensures Lists(InputQueue(inputs), InputPositions(inputs))
    ensures forall i :: i in InputQueue(inputs) <==> QueuedInput(inputs, i)
  {
    var m := InputPositions(inputs);
    forall i, j | i in m && j in m && m[i] == m[j] ensures i == j {
      assert inputs[i].position == inputs[j].position;
    }
    OrderLists(m);
  }

  lemma {:induction false} WithoutMembers(q: seq<Id>, x: Id)
    ensures forall y :: y in Without(q, x) <==> y in q && y != x
  {
    if q != [] {
      WithoutMembers(q[1..], x);
      assert forall y :: y in q <==> y == q[0] || y in q[1..];
    }
  }

  lemma {:induction false} InsertMembers(q: seq<Id>, i: Id, before: Option<Id>)
    ensures forall y :: y in InsertBefore(q, i, before) <==> y in q || y == i
  {
    if q != [] {
      InsertMembers(q[1..], i, before);
      assert forall y :: y in q <==> y == q[0] || y in q[1..];
    }
  }

  lemma QueueingStepKeeps(s: State, a: Action)
    requires QueueOk(s) && !StillAction(a)
    ensures QueueOk(Step(s, a))
  {
    hide InQueue, Submit, Drain, MoveQueued, RequestCompact, RequestRewind;
    match a {
      case Submitting(i, request, ok, usable) => SubmitKeepsQueue(s, i, request, ok, usable);
      case Draining(ok, usable) => DrainKeepsQueue(s, ok, usable);
      case Moving(i, before, ok) => MoveKeepsQueue(s, i, before, ok);
      case RequestingCompact(c, instructions, ok) => RequestCompactKeeps(s, c, instructions, ok);
      case RequestingRewind(r, e, ok) => RequestRewindKeeps(s, r, e, ok);
    }
  }

  /** Every step keeps the queue and the exclusions, whatever the engine answers. */
  lemma StepKeepsQueue(s: State, a: Action)
    requires QueueOk(s)
    ensures QueueOk(Step(s, a))
  {
    hide Step, QueueOk;
    if StillAction(a) {
      StillStepKeeps(s, a);
    } else {
      QueueingStepKeeps(s, a);
    }
  }
}
