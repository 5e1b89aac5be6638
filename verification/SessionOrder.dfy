/** First in, first out: over a whole run without explicit moves, Inputs are promoted in the order they were queued. */
module SessionOrder {
  import opened PositionOrder
  import opened Sequences
  import opened SessionState
  import opened SessionSteps
  import opened SessionQuiet
  import opened SessionQueue
  import opened SessionFifo
  import opened SessionSafety
  import opened SessionFiles

  ghost predicate Before(q: seq<Id>, x: Id, y: Id) {
    exists j, k :: 0 <= j < k < |q| && q[j] == x && q[k] == y
  }

  /** What was promoted, and then what still waits, is in the order of queueing. */
  ghost predicate InOrder(enqueued: seq<Id>, served: seq<Id>) {
    && (forall x :: x in served ==> x in enqueued)
    && (forall x, y :: Before(served, x, y) ==> Before(enqueued, x, y))
  }

  ghost function Served(s: State): seq<Id> {
    s.history.promoted + InputQueue(s.turns.inputs)
  }

  ghost predicate Fifo(s: State) {
    && Distinct(s.history.enqueued) && (forall x :: x in s.history.enqueued ==> x in s.turns.inputs)
    && InOrder(s.history.enqueued, Served(s))
  }

  lemma ListedBefore(q: seq<Id>, m: map<Id, nat>, x: Id, y: Id)
    requires Lists(q, m)
    ensures Before(q, x, y) <==> x in m && y in m && m[x] < m[y]
  {
    if x in m && y in m && m[x] < m[y] {
      var j :| 0 <= j < |q| && q[j] == x;
      var k :| 0 <= k < |q| && q[k] == y;
      assert j < k;
    }
    if Before(q, x, y) {
      assert x in q && y in q;
    }
  }

  lemma BeforeJoined(p: seq<Id>, q: seq<Id>, x: Id, y: Id)
    ensures Before(p + q, x, y) <==> Before(p, x, y) || Before(q, x, y) || (x in p && y in q)
  {
    var r := p + q;
    if Before(r, x, y) {
      var j, k :| 0 <= j < k < |r| && r[j] == x && r[k] == y;
      if |p| <= j {
        assert q[j - |p|] == x && q[k - |p|] == y;
      }
    }
    if Before(p, x, y) {
      var j, k :| 0 <= j < k < |p| && p[j] == x && p[k] == y;
      assert r[j] == x && r[k] == y;
    }
    if Before(q, x, y) {
      var j, k :| 0 <= j < k < |q| && q[j] == x && q[k] == y;
      assert r[|p| + j] == x && r[|p| + k] == y;
    }
    if x in p && y in q {
      var j :| 0 <= j < |p| && p[j] == x;
      var k :| 0 <= k < |q| && q[k] == y;
      assert r[j] == x && r[|p| + k] == y;
    }
  }

  lemma OneDirection(q: seq<Id>, x: Id, y: Id)
    requires Distinct(q) && Before(q, x, y)
    ensures !Before(q, y, x)
  {
    var j, k :| 0 <= j < k < |q| && q[j] == x && q[k] == y;
    forall l, m | 0 <= l < m < |q| && q[l] == y ensures q[m] != x {
      assert l == k && q[j] != q[m];
    }
  }

  /** Inputs leaving the queue do not change the order of the others. */
  lemma ShrinkingKeepsOrder(
      enqueued: seq<Id>, p: seq<Id>, inputs: map<Id, Input>, after: map<Id, Input>, u: Upkeep, v: Upkeep)
    requires InQueue(inputs, u) && InQueue(after, v) && Quiet(inputs, after)
    requires InOrder(enqueued, p + InputQueue(inputs))
    ensures InOrder(enqueued, p + InputQueue(after))
  {
    var q, r := InputQueue(inputs), InputQueue(after);
    InputQueueLists(inputs, u);
    InputQueueLists(after, v);
    hide InQueue, InputQueue;
    forall x, y | Before(p + r, x, y) ensures Before(enqueued, x, y) {
      BeforeJoined(p, r, x, y);
      BeforeJoined(p, q, x, y);
      ListedBefore(q, InputPositions(inputs), x, y);
      ListedBefore(r, InputPositions(after), x, y);
    }
  }

  lemma AppendKeepsOrder(enqueued: seq<Id>, served: seq<Id>, id: Id)
    requires InOrder(enqueued, served)
    ensures InOrder(enqueued + [id], served + [id])
  {
    forall x, y | Before(served + [id], x, y) ensures Before(enqueued + [id], x, y) {
      BeforeJoined(served, [id], x, y);
      BeforeJoined(enqueued, [id], x, y);
    }
  }

  lemma SubmitKeepsOrder(s: State, id: Id, request: Request, ok: bool, usable: set<Id>)
    requires QueueOk(s) && Fifo(s)
    ensures Fifo(Submit(s, id, request, ok, usable))
  {
    hide Decide, QueueOk, InOrder, AllClaimable, EnqueueInput;
    match Decide(s, id, request, ok, usable) {
      case Enqueue => EnqueueKeepsOrder(s, id, request);
      case Start =>
        assert InputPositions(StartInput(s, id, request).turns.inputs) == InputPositions(s.turns.inputs);
        assert InputPositions(RefuseInput(s, id, request).turns.inputs) == InputPositions(s.turns.inputs);
      case _ =>
    }
  }

  lemma EnqueueKeepsOrder(s: State, id: Id, request: Request)
    requires QueueOk(s) && Fifo(s) && id !in s.turns.inputs
    ensures Fifo(EnqueueInput(s, id, request))
  {
    var s' := EnqueueInput(s, id, request);
    EnqueueAppendsInput(s, id, request);
    AppendKeepsOrder(s.history.enqueued, Served(s), id);
    hide QueueOk, InOrder, InputQueue;
    assert Served(s') == Served(s) + [id];
  }

  lemma ShrinkingKeepsFifo(s: State, s': State)
    requires QueueOk(s) && QueueOk(s') && Fifo(s) && Quiet(s.turns.inputs, s'.turns.inputs)
    requires s'.history.(runs := []) == s.history.(runs := [])
    ensures Fifo(s')
  {
    hide InQueue, InOrder, InputQueue;
    ShrinkingKeepsOrder(s.history.enqueued, s.history.promoted, s.turns.inputs, s'.turns.inputs, s.upkeep, s'.upkeep);
  }

  lemma PromotionKeepsOrder(s: State, ok: bool, usable: set<Id>, i: Id)
    requires QueueOk(s) && Fifo(s) && StartsTurn(s, Drain(s, ok, usable), i)
    requires Drain(s, ok, usable).history == s.history.(promoted := s.history.promoted + [i])
    ensures Fifo(Drain(s, ok, usable))
  {
    hide QueueOk, QueueOf, Drain, InOrder, InputQueue, StartsTurn;
    PromotionTakesHead(s, ok, usable, i);
    assert InputQueue(s.turns.inputs) == [i] + InputQueue(Drain(s, ok, usable).turns.inputs);
    DrainRemembers(s, ok, usable);
    assert Served(Drain(s, ok, usable)) == Served(s);
  }

  lemma DrainKeepsOrder(s: State, ok: bool, usable: set<Id>)
    requires QueueOk(s) && Fifo(s)
    ensures Fifo(Drain(s, ok, usable))
  {
    var s' := Drain(s, ok, usable);
    DrainKeepsQueue(s, ok, usable);
    DrainKinds(s, ok, usable);
    hide QueueOk, Drain, Fifo, Quiet, StartsTurn;
    if s'.history == s.history && Quiet(s.turns.inputs, s'.turns.inputs) {
      ShrinkingKeepsFifo(s, s');
    } else {
      var i :| StartsTurn(s, s', i) && s'.history == s.history.(promoted := s.history.promoted + [i]);
      PromotionKeepsOrder(s, ok, usable, i);
    }
  }

  lemma DrainKinds(s: State, ok: bool, usable: set<Id>)
    ensures var s' := Drain(s, ok, usable);
      || (s'.history == s.history && Quiet(s.turns.inputs, s'.turns.inputs))
      || exists i :: StartsTurn(s, s', i) && s'.history == s.history.(promoted := s.history.promoted + [i])
  {
    var s' := Drain(s, ok, usable);
    RejectQuiet(s.turns.inputs);
    DrainStates(s, ok, usable);
    hide Drain, Take, RejectInputs, DropLocators, FailCompactions;
    if s'.history != s.history {
      var i :| QueuedInput(s.turns.inputs, i) && AllTakeable(s, i, usable) && s' == Promote(s, i);
      assert s'.turns.inputs[i].status.Received?;
      assert StartsTurn(s, s', i);
    }
  }

  lemma StepKeepsOrder(s: State, a: Action)
    requires QueueOk(s) && Fifo(s) && !a.Moving?
    ensures Fifo(Step(s, a))
  {
    hide InQueue, Fifo, Submit, Drain;
    if a.Submitting? {
      SubmitKeepsOrder(s, a.id, a.request, a.ok, a.usable);
    } else if a.Draining? {
      DrainKeepsOrder(s, a.ok, a.usable);
    } else {
      hide Step;
      QuietStepOrder(s, a);
    }
  }

  lemma QuietStepOrder(s: State, a: Action)
    requires QueueOk(s) && Fifo(s) && QuietAction(a)
    ensures Fifo(Step(s, a))
  {
    hide InQueue, Step, Fifo, Quiet;
    StepKeepsQueue(s, a);
    QuietStepContinues(s, a);
    QuietOrders(s, a);
    ShrinkingKeepsFifo(s, Step(s, a));
  }

  lemma QuietOrders(s: State, a: Action)
    requires QuietAction(a)
    ensures Step(s, a).history.(runs := []) == s.history.(runs := [])
  {
    if a.CallingEngine? {
      CallEngineHistory(s, a.id, a.ok);
    } else {
      hide Step;
      QuietHistory(s, a);
    }
  }
}
