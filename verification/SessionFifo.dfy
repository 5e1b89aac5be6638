/** The order of the queue: what each step does to it, and first-in-first-out promotion over whole runs. */
module SessionFifo {
  import opened Wrappers
  import opened PositionOrder
  import opened Sequences
  import opened SessionState
  import opened SessionSteps
  import opened SessionQuiet
  import opened SessionQueue

  /** The Input starts a turn in this step. */
  predicate StartsTurn(s: State, s': State, i: Id) {
    && i in s'.turns.inputs && s'.turns.inputs[i].status.Received?
    && !(i in s.turns.inputs && s.turns.inputs[i].status.Received?)
  }

  // Queueing goes to the end, promotion takes the head

  lemma PlacesBehind(s: State)
    ensures forall w :: w in Places(s) ==> Places(s)[w] < NextPosition(s)
  {
    NextIsBehind(s);
    hide NextPosition;
    forall w | w in Places(s) ensures Places(s)[w] < NextPosition(s) {
      WaitingIff(s, w);
    }
  }

  lemma EnqueuePlaces(s: State, id: Id, request: Request)
    requires id !in s.turns.inputs
    ensures Places(EnqueueInput(s, id, request)) == Places(s)[InputWork(id) := NextPosition(s)]
  {
    hide NextPosition, Claim;
    var s' := EnqueueInput(s, id, request);
    forall w ensures w in Places(s') <==> w == InputWork(id) || w in Places(s) {
      WaitingIff(s, w);
      WaitingIff(s', w);
    }
    assert InputWork(id) !in Places(s) by { WaitingIff(s, InputWork(id)); }
  }

  lemma EnqueueAppends(s: State, id: Id, request: Request)
    requires QueueOk(s) && id !in s.turns.inputs
    ensures QueueOf(EnqueueInput(s, id, request)) == QueueOf(s) + [InputWork(id)]
  {
    hide QueueOk, NextPosition, Places, Order, EnqueueInput;
    PlacesBehind(s);
    PlacesDistinct(s);
    EnqueuePlaces(s, id, request);
    WaitingIff(s, InputWork(id));
    OrderAppends(Places(s), InputWork(id), NextPosition(s));
  }

  lemma EnqueueAppendsInput(s: State, id: Id, request: Request)
    requires QueueOk(s) && id !in s.turns.inputs
    ensures InputQueue(EnqueueInput(s, id, request).turns.inputs) == InputQueue(s.turns.inputs) + [id]
  {
    NextIsBehind(s);
    InputQueueLists(s.turns.inputs, s.upkeep);
    hide NextPosition, InQueue, Order;
    var m := InputPositions(s.turns.inputs);
    forall j | j in m ensures m[j] < NextPosition(s) {
      assert QueuedInput(s.turns.inputs, j);
    }
    assert InputPositions(EnqueueInput(s, id, request).turns.inputs) == m[id := NextPosition(s)];
    OrderAppends(m, id, NextPosition(s));
  }

  lemma QueuedCompactPlaces(s: State, c: Id, instructions: bool, ok: bool)
    requires RequestCompact(s, c, instructions, ok) != s
    ensures c in RequestCompact(s, c, instructions, ok).upkeep.compactions && CompactWork(c) !in Places(s)
    ensures var s' := RequestCompact(s, c, instructions, ok);
      Places(s') == if s'.upkeep.compactions[c].status.CompactQueued?
                    then Places(s)[CompactWork(c) := NextPosition(s)] else Places(s)
  {
    hide NextPosition, HasActiveCompact, ManyDispatched, HasDispatched;
    var s' := RequestCompact(s, c, instructions, ok);
    forall w ensures w in Places(s') <==>
      w in Places(s) || (w == CompactWork(c) && s'.upkeep.compactions[c].status.CompactQueued?) {
      WaitingIff(s, w);
      WaitingIff(s', w);
    }
    WaitingIff(s, CompactWork(c));
  }

  lemma QueuedCompactAppends(s: State, c: Id, instructions: bool, ok: bool)
    requires QueueOk(s) && RequestCompact(s, c, instructions, ok) != s
    ensures var s' := RequestCompact(s, c, instructions, ok);
      && c in s'.upkeep.compactions
      && QueueOf(s') == QueueOf(s) + if s'.upkeep.compactions[c].status.CompactQueued? then [CompactWork(c)] else []
  {
    hide QueueOk, NextPosition, Places, Order, RequestCompact;
    PlacesBehind(s);
    PlacesDistinct(s);
    QueuedCompactPlaces(s, c, instructions, ok);
    OrderAppends(Places(s), CompactWork(c), NextPosition(s));
  }

  /** When draining promotes an Input, that Input was the head of the queue. */
  lemma DrainPromotes(s: State, ok: bool, usable: set<Id>, i: Id)
    requires QueueOk(s) && StartsTurn(s, Drain(s, ok, usable), i)
    ensures QueueOf(s) != [] && QueueOf(s)[0] == InputWork(i) && Waits(s, InputWork(i))
    ensures Drain(s, ok, usable) == Promote(s, i) && !HasDriving(s.turns)
    ensures !BehindBarrier(s.upkeep, Position(s, InputWork(i)))
    ensures !HasCompact(s.upkeep, CompactUnknown) && !HasRewind(s.upkeep, RewindRequested)
  {
    hide QueueOk, QueueOf, Progressing, DropLocators, AllTakeable, Take, FailCompactions, BehindBarrier, HasCompact,
      HasRewind, HasDriving, PromoteCompact;
  }

  lemma PromotePlaces(s: State, i: Id)
    requires Waits(s, InputWork(i))
    ensures Places(Promote(s, i)) == Places(s) - {InputWork(i)}
  {
    hide Take;
    forall w ensures w in Places(Promote(s, i)) <==> w != InputWork(i) && w in Places(s) {
      WaitingIff(s, w);
      WaitingIff(Promote(s, i), w);
    }
  }

  /** Draining promotes only the head, and leaves the rest of the queue as it was. */
  lemma PromotionTakesHead(s: State, ok: bool, usable: set<Id>, i: Id)
    requires QueueOk(s) && StartsTurn(s, Drain(s, ok, usable), i)
    ensures QueueOf(s) != [] && QueueOf(s)[0] == InputWork(i)
    ensures QueueOf(Drain(s, ok, usable)) == QueueOf(s)[1..]
    ensures InputQueue(s.turns.inputs) == [i] + InputQueue(Drain(s, ok, usable).turns.inputs)
  {
    hide QueueOk, Drain, Promote, Places, Order, InputQueue, StartsTurn;
    DrainPromotes(s, ok, usable, i);
    QueueLists(s);
    PlacesDistinct(s);
    PromotePlaces(s, i);
    OrderDropsHead(Places(s));
    HeadOfInputs(s, i);
  }

  lemma InputHeadLeast(s: State, i: Id)
    requires QueueOk(s) && QueueOf(s) != [] && QueueOf(s)[0] == InputWork(i) && Waits(s, InputWork(i))
    ensures Least(InputPositions(s.turns.inputs), i)
  {
    QueueLists(s);
    hide InQueue, QueueOf;
    var m := InputPositions(s.turns.inputs);
    forall j | j in m ensures m[i] <= m[j] {
      assert Waits(s, InputWork(j));
    }
  }

  lemma HeadOfInputs(s: State, i: Id)
    requires QueueOk(s) && QueueOf(s) != [] && QueueOf(s)[0] == InputWork(i) && Waits(s, InputWork(i))
    ensures InputQueue(s.turns.inputs) == [i] + InputQueue(Promote(s, i).turns.inputs)
  {
    hide InQueue, QueueOf, Promote, InputPositions, Order, Least, DistinctPositions;
    InputHeadLeast(s, i);
    InputQueueLists(s.turns.inputs, s.upkeep);
    PromotedPositions(s, i);
    OrderStartsWith(InputPositions(s.turns.inputs), i);
  }

  lemma PromotedPositions(s: State, i: Id)
    requires QueuedInput(s.turns.inputs, i)
    ensures InputPositions(Promote(s, i).turns.inputs) == InputPositions(s.turns.inputs) - {i}
  {
    hide Take;
  }

  // Moving

  lemma {:induction false} IndexOfAt(q: seq<Id>, k: nat)
    requires Distinct(q) && k < |q|
    ensures IndexOf(q, q[k]) == k
  {
    var n := IndexOf(q, q[k]);
    assert q[n] == q[k];
  }

  lemma {:induction false} WithoutDistinct(q: seq<Id>, x: Id)
    requires Distinct(q)
    ensures Distinct(Without(q, x))
  {
    if q != [] {
      HeadDiffers(q);
      WithoutDistinct(q[1..], x);
      WithoutMembers(q[1..], x);
      DistinctCons(q[0], Without(q[1..], x));
    }
  }

  lemma {:induction false} InsertDistinct(q: seq<Id>, i: Id, before: Option<Id>)
    requires Distinct(q) && i !in q
    ensures Distinct(InsertBefore(q, i, before))
  {
    if q != [] && before != Some(q[0]) {
      HeadDiffers(q);
      InsertDistinct(q[1..], i, before);
      InsertMembers(q[1..], i, before);
      DistinctCons(q[0], InsertBefore(q[1..], i, before));
    } else {
      DistinctCons(i, q);
    }
  }

  /** Taking the moved Input out again gives back the others in their old order. */
  lemma {:induction false} InsertThenWithout(q: seq<Id>, i: Id, before: Option<Id>)
    requires i !in q
    ensures Without(InsertBefore(q, i, before), i) == q
  {
    if q == [] {
    } else if before == Some(q[0]) {
      assert ([i] + q)[1..] == q;
      WithoutAbsent(q, i);
    } else {
      var rest := InsertBefore(q[1..], i, before);
      assert ([q[0]] + rest)[1..] == rest;
      InsertThenWithout(q[1..], i, before);
    }
  }

  lemma {:induction false} WithoutAbsent(q: seq<Id>, x: Id)
    requires x !in q
    ensures Without(q, x) == q
  {
    if q != [] {
      WithoutAbsent(q[1..], x);
    }
  }

  /** The moved Input comes directly before its anchor, or last. */
  ghost predicate Placed(q: seq<Id>, i: Id, before: Option<Id>) {
    match before
    case None => q != [] && q[|q| - 1] == i
    case Some(b) => exists k :: 0 <= k < |q| - 1 && q[k] == i && q[k + 1] == b
  }

  lemma {:induction false} InsertPlaces(q: seq<Id>, i: Id, before: Option<Id>)
    requires before.Some? ==> before.value in q
    ensures Placed(InsertBefore(q, i, before), i, before)
  {
    var r := InsertBefore(q, i, before);
    if q != [] {
      if before == Some(q[0]) {
        assert r[0] == i && r[1] == q[0];
      } else {
        InsertPlaces(q[1..], i, before);
        var rest := InsertBefore(q[1..], i, before);
        if before.Some? {
          var k :| 0 <= k < |rest| - 1 && rest[k] == i && rest[k + 1] == before.value;
          assert r[k + 1] == i && r[k + 2] == before.value;
        }
      }
    }
  }

  lemma ListsDistinct(q: seq<Id>, m: map<Id, nat>)
    requires Lists(q, m)
    ensures Distinct(q)
  {
    forall j, k | 0 <= j < k < |q| ensures q[j] != q[k] {
      assert m[q[j]] < m[q[k]];
    }
  }

  lemma RenumberOrders(inputs: map<Id, Input>, order: seq<Id>)
    requires Distinct(order) && forall i :: i in order <==> QueuedInput(inputs, i)
    ensures InputQueue(Renumber(inputs, order)) == order
  {
    var m := InputPositions(Renumber(inputs, order));
    assert forall i :: i in m <==> i in order;
    forall k | 0 <= k < |order| ensures m[order[k]] == k {
      IndexOfAt(order, k);
    }
    assert Lists(order, m);
    assert DistinctPositions(m) by {
      forall i, j | i in m && j in m && m[i] == m[j] ensures i == j {
        assert order[m[i]] == i && order[m[j]] == j;
      }
    }
    OrderLists(m);
    ListsOnce(order, InputQueue(Renumber(inputs, order)), m);
  }

  /** A move puts one Input where it was asked to go; the others keep their relative order. */
  lemma MovePermutes(s: State, i: Id, before: Option<Id>, ok: bool)
    requires QueueOk(s) && MayMove(s, i, before, ok) && before != Some(i)
    ensures var q, r := InputQueue(s.turns.inputs), InputQueue(MoveQueued(s, i, before, ok).turns.inputs);
      && (forall j :: j in r <==> j in q) && Distinct(r)
      && Without(r, i) == Without(q, i) && Placed(r, i, before)
  {
    var q := InputQueue(s.turns.inputs);
    var rest := Without(q, i);
    InputQueueLists(s.turns.inputs, s.upkeep);
    ListsDistinct(q, InputPositions(s.turns.inputs));
    WithoutMembers(q, i);
    WithoutDistinct(q, i);
    InsertMembers(rest, i, before);
    InsertDistinct(rest, i, before);
    InsertThenWithout(rest, i, before);
    InsertPlaces(rest, i, before);
    hide InQueue;
    RenumberOrders(s.turns.inputs, InsertBefore(rest, i, before));
  }

  // Barriers

  /** No Input starts a turn while the engine may be executing a compaction, or while a file rewind is requested. */
  lemma TurnsStartUnbarred(s: State, a: Action, i: Id)
    requires QueueOk(s) && StartsTurn(s, Step(s, a), i)
    ensures a.Submitting? || a.Draining?
    ensures !HasNativeCompact(s.upkeep) && !HasRewind(s.upkeep, RewindRequested) && !HasDriving(s.turns)
    ensures Step(s, a).upkeep == s.upkeep
  {
    if QuietAction(a) {
      hide Step;
      QuietStepContinues(s, a);
    } else if a.Draining? {
      DrainUnbarred(s, a.ok, a.usable, i);
    } else if a.Submitting? {
      SubmitUnbarred(s, a.id, a.request, a.ok, a.usable, i);
    }
  }

  lemma SubmitUnbarred(s: State, id: Id, request: Request, ok: bool, usable: set<Id>, i: Id)
    requires StartsTurn(s, Submit(s, id, request, ok, usable), i)
    ensures Idle(s) && Submit(s, id, request, ok, usable).upkeep == s.upkeep
  {
    hide Decide, AllClaimable, NextPosition, Claim, Idle;
  }

  lemma DrainUnbarred(s: State, ok: bool, usable: set<Id>, i: Id)
    requires QueueOk(s) && StartsTurn(s, Drain(s, ok, usable), i)
    ensures !HasNativeCompact(s.upkeep) && !HasRewind(s.upkeep, RewindRequested) && !HasDriving(s.turns)
    ensures Drain(s, ok, usable).upkeep == s.upkeep
  {
    DrainPromotes(s, ok, usable, i);
    hide Drain, QueueOf;
    forall c | c in s.upkeep.compactions ensures !NativeCompact(s.upkeep.compactions[c]) {
      assert !CompactBarrier(s.upkeep.compactions[c], Position(s, InputWork(i)));
    }
  }

  predicate MayPromote(s: State, i: Id, ok: bool, usable: set<Id>) {
    && ok && Active(s) && !s.paused && !s.draining && QueuedInput(s.turns.inputs, i) && AllTakeable(s, i, usable)
    && !HasDriving(s.turns) && !HasNativeCompact(s.upkeep) && !HasRewind(s.upkeep, RewindRequested)
  }

  /** Draining starts the turn of an Input exactly when it is the head of the queue and nothing stands in its way. */
  lemma PromotesExactlyWhen(s: State, i: Id, ok: bool, usable: set<Id>)
    requires QueueOk(s)
    ensures StartsTurn(s, Drain(s, ok, usable), i) <==>
      QueueOf(s) != [] && QueueOf(s)[0] == InputWork(i) && MayPromote(s, i, ok, usable)
  {
    if StartsTurn(s, Drain(s, ok, usable), i) {
      DrainUnbarred(s, ok, usable, i);
      PromotedWhen(s, i, ok, usable);
    } else if QueueOf(s) != [] && QueueOf(s)[0] == InputWork(i) && MayPromote(s, i, ok, usable) {
      PromotesHead(s, i, ok, usable);
    }
  }

  lemma PromotedWhen(s: State, i: Id, ok: bool, usable: set<Id>)
    requires QueueOk(s) && StartsTurn(s, Drain(s, ok, usable), i)
    ensures QueueOf(s) != [] && QueueOf(s)[0] == InputWork(i) && QueuedInput(s.turns.inputs, i)
    ensures ok && Active(s) && !s.paused && !s.draining && AllTakeable(s, i, usable)
  {
    hide QueueOk, QueueOf, DropLocators, AllTakeable, Take, FailCompactions, BehindBarrier, HasCompact, HasRewind,
      HasDriving, PromoteCompact;
  }

  lemma PromotesHead(s: State, i: Id, ok: bool, usable: set<Id>)
    requires QueueOf(s) != [] && QueueOf(s)[0] == InputWork(i) && MayPromote(s, i, ok, usable)
    ensures StartsTurn(s, Drain(s, ok, usable), i)
  {
    hide QueueOf, Take;
    assert !BehindBarrier(s.upkeep, Position(s, InputWork(i)));
  }
}
