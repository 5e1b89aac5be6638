/** Lists the keys of a finite map by ascending position. */
module PositionOrder {

  ghost predicate DistinctPositions<T(!new)>(m: map<T, nat>) {
    forall x, y {:trigger m[x], m[y]} :: x in m && y in m && m[x] == m[y] ==> x == y
  }

  ghost predicate Least<T>(m: map<T, nat>, x: T) {
    x in m && forall y :: y in m ==> m[x] <= m[y]
  }

  /** `q` lists every key of `m` once, by ascending position. */
  ghost predicate Lists<T(!new)>(q: seq<T>, m: map<T, nat>) {
    && (forall x :: x in q <==> x in m)
    && (forall j, k :: 0 <= j < k < |q| ==> m[q[j]] < m[q[k]])
  }

  ghost function Order<T(!new)>(m: map<T, nat>): seq<T>
    decreases |m|
  {
    if m == map[] then []
    else
      LeastExists(m);
      var x :| Least(m, x);
      assert |m - {x}| < |m| by { assert (m - {x}).Keys == m.Keys - {x}; }
      [x] + Order(m - {x})
  }

  lemma {:induction false} LeastExists<T>(m: map<T, nat>)
    requires m != map[]
    ensures exists x :: Least(m, x)
    decreases |m|
  {
    var x :| x in m;
    var rest := m - {x};
    assert rest.Keys == m.Keys - {x};
    assert forall z :: z in m ==> z == x || z in rest;
    if rest == map[] {
      assert Least(m, x);
    } else {
      LeastExists(rest);
      var y :| Least(rest, y);
      assert Least(m, if m[x] <= m[y] then x else y);
    }
  }

  lemma {:induction false} OrderLists<T(!new)>(m: map<T, nat>)
    requires DistinctPositions(m)
    ensures Lists(Order(m), m)
    decreases |m|
  {
    if m != map[] {
      var x := Order(m)[0];
      var rest := m - {x};
      assert rest.Keys == m.Keys - {x};
      assert Least(m, x) && Order(m) == [x] + Order(rest) by { LeastExists(m); }
      OrderLists(rest);
      ConsLists(x, Order(rest), m);
    }
  }

  lemma ConsLists<T(!new)>(x: T, tail: seq<T>, m: map<T, nat>)
    requires DistinctPositions(m) && Least(m, x) && Lists(tail, m - {x})
    ensures Lists([x] + tail, m)
  {
    var q := [x] + tail;
    forall y ensures y in q <==> y in m {
      assert y in q <==> y == x || y in tail;
    }
    forall j, k | 0 <= j < k < |q| ensures m[q[j]] < m[q[k]] {
      assert q[k] == tail[k - 1] && q[k] in tail;
      if j > 0 {
        assert q[j] == tail[j - 1] && q[j] in tail;
      }
    }
  }

  lemma HeadIsLeast<T(!new)>(q: seq<T>, m: map<T, nat>)
    requires Lists(q, m)
    ensures q == [] <==> m == map[]
    ensures q != [] ==> Least(m, q[0])
  {
    if q != [] {
      assert q[0] in m;
      forall y | y in m ensures m[q[0]] <= m[y] {
        assert y in q;
      }
    }
    if m != map[] {
      var x :| x in m;
      assert x in q;
    }
  }

  lemma TailLists<T(!new)>(q: seq<T>, m: map<T, nat>)
    requires Lists(q, m) && q != []
    ensures Lists(q[1..], m - {q[0]})
  {
    var tail, rest := q[1..], m - {q[0]};
    forall x | x in tail ensures x in rest {
      var k :| 0 <= k < |tail| && tail[k] == x;
      assert m[q[0]] < m[q[k + 1]] && x in q;
    }
    forall x | x in rest ensures x in tail {
      assert x in q;
    }
    forall j, k | 0 <= j < k < |tail| ensures rest[tail[j]] < rest[tail[k]] {
      assert tail[j] in tail && tail[k] in tail;
      assert m[q[j + 1]] < m[q[k + 1]];
    }
  }

  lemma SameHead<T(!new)>(q: seq<T>, r: seq<T>, m: map<T, nat>)
    requires DistinctPositions(m) && Lists(q, m) && Lists(r, m)
    ensures q == [] <==> r == []
    ensures q != [] ==> q[0] == r[0]
  {
    HeadIsLeast(q, m);
    HeadIsLeast(r, m);
    if q != [] {
      assert m[q[0]] <= m[r[0]] <= m[q[0]];
    }
  }

  /** There is only one such list. */
  lemma {:induction false} ListsOnce<T(!new)>(q: seq<T>, r: seq<T>, m: map<T, nat>)
    requires DistinctPositions(m) && Lists(q, m) && Lists(r, m)
    ensures q == r
    decreases |q|
  {
    SameHead(q, r, m);
    if q != [] {
      var rest := m - {q[0]};
      TailLists(q, m);
      TailLists(r, m);
      assert DistinctPositions(rest);
      ListsOnce(q[1..], r[1..], rest);
      assert q == [q[0]] + q[1..] && r == [r[0]] + r[1..];
    }
  }

  /** A key behind all others goes to the end. */
  lemma OrderAppends<T(!new)>(m: map<T, nat>, x: T, position: nat)
    requires DistinctPositions(m) && x !in m
    requires forall y :: y in m ==> m[y] < position
    ensures Order(m[x := position]) == Order(m) + [x]
  {
    var m' := m[x := position];
    OrderLists(m);
    var q := Order(m) + [x];
    assert Lists(q, m') by {
      forall j, k | 0 <= j < k < |q| ensures m'[q[j]] < m'[q[k]] {
        assert q[j] == Order(m)[j] && q[j] in Order(m);
        if k < |q| - 1 { assert q[k] == Order(m)[k] && q[k] in Order(m); }
      }
    }
    OrderLists(m');
    ListsOnce(q, Order(m'), m');
  }

  lemma OrderDropsHead<T(!new)>(m: map<T, nat>)
    requires DistinctPositions(m) && Order(m) != []
    ensures Order(m - {Order(m)[0]}) == Order(m)[1..]
  {
    OrderLists(m);
    TailLists(Order(m), m);
    OrderLists(m - {Order(m)[0]});
    ListsOnce(Order(m)[1..], Order(m - {Order(m)[0]}), m - {Order(m)[0]});
  }

  lemma OrderStartsWith<T(!new)>(m: map<T, nat>, x: T)
    requires DistinctPositions(m) && Least(m, x)
    ensures Order(m) == [x] + Order(m - {x})
  {
    OrderLists(m);
    HeadIsLeast(Order(m), m);
    assert m[Order(m)[0]] == m[x];
    OrderDropsHead(m);
  }
}
