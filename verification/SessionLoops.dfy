/** The loops of `TaskRuntime` over its records, each proved against the function that it computes. */
module SessionLoops {
  import opened Wrappers
  import opened PositionOrder
  import opened SessionState
  import opened SessionSteps

  method Pick<T(==)>(s: set<T>) returns (x: T)
    requires s != {}
    ensures x in s
  {
    x :| x in s;
  }

  /** Goes through the records of one kind, and stores each one changed. */
  method UpdateAll<K(==), V>(records: map<K, V>, change: (K, V) -> V) returns (r: map<K, V>)
    ensures r.Keys == records.Keys && forall k :: k in records ==> r[k] == change(k, records[k])
  {
    r := records;
    var left := records.Keys;
    while left != {}
      invariant left <= records.Keys && r.Keys == records.Keys
      invariant forall k :: k in records ==> r[k] == if k in left then records[k] else change(k, records[k])
      decreases left
    {
      var k := Pick(left);
      r := r[k := change(k, records[k])];
      left := left - {k};
    }
  }

  method FindKeyOwner(inputs: map<Id, Input>, key: Option<string>) returns (r: Option<Id>)
    ensures r.Some? ==> OwnsKey(inputs, key, r.value)
    ensures r.None? ==> forall i :: !OwnsKey(inputs, key, i)
  {
    if key.None? {
      return None;
    }
    var left := inputs.Keys;
    while left != {}
      invariant left <= inputs.Keys && forall i :: OwnsKey(inputs, key, i) ==> i in left
      decreases left
    {
      var i := Pick(left);
      if inputs[i].request.key == key {
        return Some(i);
      }
      left := left - {i};
    }
    return None;
  }

  method FindByNativeKey(executions: map<Id, Execution>, native: NativeId) returns (r: Option<Id>)
    ensures r.Some? ==> ExecutionOf(executions, native, r.value)
    ensures r.None? ==> forall e :: !ExecutionOf(executions, native, e)
  {
    var left := executions.Keys;
    while left != {}
      invariant left <= executions.Keys && forall e :: ExecutionOf(executions, native, e) ==> e in left
      decreases left
    {
      var e := Pick(left);
      if executions[e].native == native {
        return Some(e);
      }
      left := left - {e};
    }
    return None;
  }

  // The queue

  method FindLeast<T(!new, ==)>(m: map<T, nat>) returns (x: T)
    requires m != map[]
    ensures Least(m, x)
  {
    var left := m.Keys;
    x :| x in m;
    while left != {}
      invariant left <= m.Keys && x in m && forall y :: y in m && y !in left ==> m[x] <= m[y]
      decreases left
    {
      var y := Pick(left);
      if m[y] < m[x] {
        x := y;
      }
      left := left - {y};
    }
  }

  /** Sorts waiting work by position. */
  method SortByPosition<T(!new, ==)>(m: map<T, nat>) returns (q: seq<T>)
    requires DistinctPositions(m)
    ensures q == Order(m)
  {
    q := [];
    var rest := m;
    while rest != map[]
      invariant DistinctPositions(rest) && q + Order(rest) == Order(m)
      decreases rest.Keys
    {
      var x := FindLeast(rest);
      OrderStartsWith(rest, x);
      assert q + ([x] + Order(rest - {x})) == (q + [x]) + Order(rest - {x});
      q := q + [x];
      rest := rest - {x};
    }
  }

  method AbovePositions(taken: set<nat>) returns (n: nat)
    ensures n == Above(taken)
  {
    n := 0;
    var left := taken;
    while left != {}
      invariant left <= taken && (forall p :: p in taken && p !in left ==> p < n) && (n == 0 || n - 1 in taken)
      decreases left
    {
      var p := Pick(left);
      if p >= n {
        n := p + 1;
      }
      left := left - {p};
    }
  }

  method TakeOut(q: seq<Id>, i: Id) returns (rest: seq<Id>)
    ensures rest == Without(q, i)
  {
    rest := [];
    var k := 0;
    while k < |q|
      invariant k <= |q| && rest + Without(q[k..], i) == Without(q, i)
    {
      TakenNext(rest, q, k, i);
      if q[k] != i {
        rest := rest + [q[k]];
      }
      k := k + 1;
    }
    assert q[k..] == [];
  }

  lemma TakenNext(rest: seq<Id>, q: seq<Id>, k: nat, i: Id)
    requires k < |q|
    ensures rest + Without(q[k..], i) == (rest + if q[k] == i then [] else [q[k]]) + Without(q[k + 1..], i)
  {
    assert q[k..][1..] == q[k + 1..];
  }

  /** In front of another Input, or at the end. */
  method PutBefore(rest: seq<Id>, i: Id, before: Option<Id>) returns (order: seq<Id>)
    ensures order == InsertBefore(rest, i, before)
  {
    order := [];
    var k := 0;
    while k < |rest| && before != Some(rest[k])
      invariant k <= |rest| && order + InsertBefore(rest[k..], i, before) == InsertBefore(rest, i, before)
    {
      PutNext(order, rest, k, i, before);
      order := order + [rest[k]];
      k := k + 1;
    }
    PutHere(rest[k..], i, before);
    order := order + ([i] + rest[k..]);
  }

  lemma PutNext(order: seq<Id>, rest: seq<Id>, k: nat, i: Id, before: Option<Id>)
    requires k < |rest| && before != Some(rest[k])
    ensures order + InsertBefore(rest[k..], i, before) == (order + [rest[k]]) + InsertBefore(rest[k + 1..], i, before)
  {
    assert rest[k..][1..] == rest[k + 1..];
  }

  lemma PutHere(rest: seq<Id>, i: Id, before: Option<Id>)
    requires rest == [] || before == Some(rest[0])
    ensures InsertBefore(rest, i, before) == [i] + rest
  {
  }

  /** Gives the listed Inputs their index as position; every listed Input is queued and listed once. */
  method RenumberInputs(inputs: map<Id, Input>, order: seq<Id>) returns (r: map<Id, Input>)
    requires forall k :: 0 <= k < |order| ==> QueuedInput(inputs, order[k])
    requires forall j, k :: 0 <= j < k < |order| ==> order[j] != order[k]
    ensures r == Renumber(inputs, order)
  {
    r := inputs;
    var k := 0;
    while k < |order|
      invariant k <= |order| && r.Keys == inputs.Keys
      invariant forall j :: 0 <= j < k ==> order[j] in r && order[j] in inputs
      invariant forall j :: 0 <= j < k ==> r[order[j]] == inputs[order[j]].(position := Some(j))
      invariant forall i :: i in inputs && i !in order[..k] ==> r[i] == inputs[i]
    {
      assert QueuedInput(inputs, order[k]);
      r := r[order[k] := inputs[order[k]].(position := Some(k))];
      k := k + 1;
    }
    forall i | i in inputs ensures r[i] == Renumber(inputs, order)[i] {
      if i in order {
        assert order[IndexOf(order, i)] == i;
      }
    }
  }

  // Attachments

  /** Changes the listed records. */
  method ChangeListed<K(==), V>(records: map<K, V>, ids: seq<K>, change: V -> V) returns (r: map<K, V>)
    requires forall k :: 0 <= k < |ids| ==> ids[k] in records
    ensures r.Keys == records.Keys
    ensures forall a :: a in records ==> r[a] == if a in ids then change(records[a]) else records[a]
  {
    r := records;
    var k := 0;
    while k < |ids|
      invariant k <= |ids| && r.Keys == records.Keys
      invariant forall a :: a in records ==> r[a] == (if a in ids[..k] then change(records[a]) else records[a])
    {
      assert ids[..k + 1] == ids[..k] + [ids[k]];
      r := r[ids[k] := change(records[ids[k]])];
      k := k + 1;
    }
    assert ids[..k] == ids;
  }

  // Stop requests, approvals and events

  method ChangeStops(stops: seq<Stop>, change: Stop -> Stop) returns (r: seq<Stop>)
    ensures r == seq(|stops|, k requires 0 <= k < |stops| => change(stops[k]))
  {
    r := [];
    for k := 0 to |stops|
      invariant r == seq(k, j requires 0 <= j < |stops| => change(stops[j]))
    {
      r := r + [change(stops[k])];
    }
  }

  method FindLatestStop(stops: seq<Stop>, e: Id) returns (k: int)
    ensures k == LatestStop(stops, e)
  {
    k := |stops| - 1;
    while k >= 0 && stops[k].execution != e
      invariant -1 <= k < |stops| && LatestStop(stops, e) == LatestStop(stops[..k + 1], e)
    {
      assert stops[..k + 1][..k] == stops[..k];
      k := k - 1;
    }
    assert k >= 0 ==> stops[..k + 1][|stops[..k + 1]| - 1] == stops[k];
    assert stops[..|stops|] == stops;
  }

  method RejectPendingInteractions(xs: seq<Interaction>, e: Id) returns (r: seq<Interaction>)
    ensures r == RejectAllPending(xs, e)
  {
    r := [];
    for k := 0 to |xs|
      invariant r == seq(k, j requires 0 <= j < |xs| => RejectPending(xs[j], e))
    {
      r := r + [RejectPending(xs[k], e)];
    }
  }

  method FindAnswered(xs: seq<Interaction>, kind: InteractionKind, e: Id, control: NativeId) returns (k: nat)
    ensures k == FindInteraction(xs, kind, e, control)
  {
    k := 0;
    while k < |xs| && !Answers(xs[k], kind, e, control)
      invariant k <= |xs| && FindInteraction(xs, kind, e, control) == k + FindInteraction(xs[k..], kind, e, control)
    {
      assert xs[k..][1..] == xs[k + 1..];
      k := k + 1;
    }
  }

  method FindBySequence(rows: seq<EventRow>, event: Event) returns (k: nat)
    ensures k == FindSequence(rows, event)
  {
    k := 0;
    while k < |rows| && !SameSequence(rows[k], event)
      invariant k <= |rows| && FindSequence(rows, event) == k + FindSequence(rows[k..], event)
    {
      assert rows[k..][1..] == rows[k + 1..];
      k := k + 1;
    }
  }
}
