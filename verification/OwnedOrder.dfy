/** The order of members that are partly inherited and partly personal, under an order that the user asked for. */
module OwnedOrder {
  import opened Sequences

  type Id = string

  /** The values that are not in `seen`, each at its first place. */
  function UniqueFrom(values: seq<Id>, seen: set<Id>): (r: seq<Id>)
    ensures forall x :: x in r <==> x in values && x !in seen
  {
    if values == [] then []
    else if values[0] in seen then UniqueFrom(values[1..], seen)
    else [values[0]] + UniqueFrom(values[1..], seen + {values[0]})
  }

  function UniqueInOrder(values: seq<Id>): seq<Id> {
    UniqueFrom(values, {})
  }

  function Only(values: seq<Id>, keep: set<Id>): (r: seq<Id>)
    ensures forall x :: x in r <==> x in values && x in keep
  {
    if values == [] then []
    else (if values[0] in keep then [values[0]] else []) + Only(values[1..], keep)
  }

  function Except(values: seq<Id>, drop: set<Id>): (r: seq<Id>)
    ensures forall x :: x in r <==> x in values && x !in drop
  {
    if values == [] then []
    else (if values[0] in drop then [] else [values[0]]) + Except(values[1..], drop)
  }

  function Members(values: seq<Id>): set<Id> {
    set x | x in values
  }

  /** The requested members in their order, behind the inherited ones and before the personal ones not asked for. */
  function ResolveOwnedOrder(builtinIds: seq<Id>, personalIds: seq<Id>, requested: seq<Id>): seq<Id> {
    var builtin := UniqueInOrder(builtinIds);
    var personal := Except(UniqueInOrder(personalIds), Members(builtin));
    var ordered := Only(UniqueInOrder(requested), Members(builtin + personal));
    Except(builtin, Members(ordered)) + ordered + Except(personal, Members(ordered))
  }

  // Filters

  lemma {:induction false} UniqueIsDistinct(values: seq<Id>, seen: set<Id>)
    ensures Distinct(UniqueFrom(values, seen))
  {
    if values != [] {
      if values[0] in seen {
        UniqueIsDistinct(values[1..], seen);
      } else {
        UniqueIsDistinct(values[1..], seen + {values[0]});
        DistinctCons(values[0], UniqueFrom(values[1..], seen + {values[0]}));
      }
    }
  }

  lemma {:induction false} UniqueOfDistinct(q: seq<Id>, seen: set<Id>)
    requires Distinct(q) && forall x :: x in q ==> x !in seen
    ensures UniqueFrom(q, seen) == q
  {
    if q != [] {
      forall x | x in q[1..] ensures x !in seen + {q[0]} {
        var k :| 0 <= k < |q[1..]| && q[1..][k] == x;
        assert q[0] != q[k + 1];
      }
      UniqueOfDistinct(q[1..], seen + {q[0]});
    }
  }

  lemma {:induction false} OnlyIsDistinct(q: seq<Id>, keep: set<Id>)
    requires Distinct(q)
    ensures Distinct(Only(q, keep))
  {
    if q != [] {
      HeadDiffers(q);
      OnlyIsDistinct(q[1..], keep);
      if q[0] in keep { DistinctCons(q[0], Only(q[1..], keep)); }
    }
  }

  lemma {:induction false} ExceptIsDistinct(q: seq<Id>, drop: set<Id>)
    requires Distinct(q)
    ensures Distinct(Except(q, drop))
  {
    if q != [] {
      HeadDiffers(q);
      ExceptIsDistinct(q[1..], drop);
      if q[0] !in drop { DistinctCons(q[0], Except(q[1..], drop)); }
    }
  }

  lemma {:induction false} OnlyAll(q: seq<Id>, keep: set<Id>)
    requires forall x :: x in q ==> x in keep
    ensures Only(q, keep) == q
  {
    if q != [] { OnlyAll(q[1..], keep); }
  }

  lemma {:induction false} ExceptAll(q: seq<Id>, drop: set<Id>)
    requires forall x :: x in q ==> x in drop
    ensures Except(q, drop) == []
  {
    if q != [] { ExceptAll(q[1..], drop); }
  }

  // The order

  /** The result lists every member once, and nothing else. */
  ghost predicate Lists(q: seq<Id>, builtinIds: seq<Id>, personalIds: seq<Id>) {
    Distinct(q) && forall x :: x in q <==> x in builtinIds || x in personalIds
  }

  lemma OrderLists(builtinIds: seq<Id>, personalIds: seq<Id>, requested: seq<Id>)
    ensures Lists(ResolveOwnedOrder(builtinIds, personalIds, requested), builtinIds, personalIds)
  {
    var builtin := UniqueInOrder(builtinIds);
    var personal := Except(UniqueInOrder(personalIds), Members(builtin));
    var ordered := Only(UniqueInOrder(requested), Members(builtin + personal));
    UniqueIsDistinct(builtinIds, {});
    UniqueIsDistinct(personalIds, {});
    UniqueIsDistinct(requested, {});
    ExceptIsDistinct(UniqueInOrder(personalIds), Members(builtin));
    OnlyIsDistinct(UniqueInOrder(requested), Members(builtin + personal));
    ExceptIsDistinct(builtin, Members(ordered));
    ExceptIsDistinct(personal, Members(ordered));
    DistinctJoined(Except(builtin, Members(ordered)), ordered);
    DistinctJoined(Except(builtin, Members(ordered)) + ordered, Except(personal, Members(ordered)));
  }

  /**
   Members that an order does not list: the inherited ones go to the front, the personal ones to the end, and the order
   itself stays together.
   */
  lemma PartialOrderExtends(builtinIds: seq<Id>, personalIds: seq<Id>, order: seq<Id>)
    requires Distinct(order) && forall x :: x in order ==> x in builtinIds || x in personalIds
    ensures ResolveOwnedOrder(builtinIds, personalIds, order)
         == Except(UniqueInOrder(builtinIds), Members(order)) + order
            + Except(Except(UniqueInOrder(personalIds), Members(UniqueInOrder(builtinIds))), Members(order))
  {
    var builtin := UniqueInOrder(builtinIds);
    var personal := Except(UniqueInOrder(personalIds), Members(builtin));
    UniqueOfDistinct(order, {});
    OnlyAll(order, Members(builtin + personal));
  }

  /** An order that lists all members already is taken as it is. */
  lemma FullOrderStays(builtinIds: seq<Id>, personalIds: seq<Id>, order: seq<Id>)
    requires Lists(order, builtinIds, personalIds)
    ensures ResolveOwnedOrder(builtinIds, personalIds, order) == order
  {
    hide ResolveOwnedOrder, UniqueFrom, Except;
    var builtin := UniqueInOrder(builtinIds);
    var personal := Except(UniqueInOrder(personalIds), Members(builtin));
    PartialOrderExtends(builtinIds, personalIds, order);
    ExceptAll(builtin, Members(order));
    ExceptAll(personal, Members(order));
    assert [] + order + [] == order;
  }

  /** Normalising twice changes nothing. */
  lemma OrderIdempotent(builtinIds: seq<Id>, personalIds: seq<Id>, requested: seq<Id>)
    ensures var order := ResolveOwnedOrder(builtinIds, personalIds, requested);
      ResolveOwnedOrder(builtinIds, personalIds, order) == order
  {
    OrderLists(builtinIds, personalIds, requested);
    FullOrderStays(builtinIds, personalIds, ResolveOwnedOrder(builtinIds, personalIds, requested));
  }

  // What was asked for

  /** `x` comes before the first `y`. */
  ghost predicate Precedes(q: seq<Id>, x: Id, y: Id) {
    y in q && exists j :: 0 <= j < |q| && q[j] == x && y !in q[..j + 1]
  }

  lemma PrecedesTail(q: seq<Id>, x: Id, y: Id)
    requires q != [] && x != y
    ensures Precedes(q, x, y) <==> q[0] != y && y in q && (q[0] == x || Precedes(q[1..], x, y))
  {
    if j :| 0 <= j < |q| && q[j] == x && y !in q[..j + 1] {
      assert q[0] in q[..j + 1];
      if j > 0 {
        assert q[1..][j - 1] == x && q[1..][..j] == q[..j + 1][1..];
      }
    }
    if q[0] != y && y in q {
      if q[0] == x {
        assert q[..1] == [x];
      } else if j :| 0 <= j < |q[1..]| && q[1..][j] == x && y !in q[1..][..j + 1] {
        assert q[j + 1] == x && q[..j + 2] == [q[0]] + q[1..][..j + 1];
      }
    }
  }

  lemma PrecedesCons(z: Id, q: seq<Id>, x: Id, y: Id)
    requires x != y && z != y && y in q && (z == x || Precedes(q, x, y))
    ensures Precedes([z] + q, x, y)
  {
    assert ([z] + q)[1..] == q;
    PrecedesTail([z] + q, x, y);
  }

  lemma {:induction false} UniquePrecedes(q: seq<Id>, seen: set<Id>, x: Id, y: Id)
    requires Precedes(q, x, y) && x != y && x !in seen && y !in seen
    ensures Precedes(UniqueFrom(q, seen), x, y)
  {
    PrecedesTail(q, x, y);
    var more := seen + {q[0]};
    if q[0] in seen {
      UniquePrecedes(q[1..], seen, x, y);
    } else {
      if q[0] != x {
        UniquePrecedes(q[1..], more, x, y);
      }
      PrecedesCons(q[0], UniqueFrom(q[1..], more), x, y);
    }
  }

  lemma {:induction false} OnlyPrecedes(q: seq<Id>, keep: set<Id>, x: Id, y: Id)
    requires Precedes(q, x, y) && x != y && x in keep && y in keep
    ensures Precedes(Only(q, keep), x, y)
  {
    PrecedesTail(q, x, y);
    if q[0] != x {
      OnlyPrecedes(q[1..], keep, x, y);
    }
    if q[0] in keep {
      PrecedesCons(q[0], Only(q[1..], keep), x, y);
    } else {
      assert Only(q, keep) == Only(q[1..], keep);
    }
  }

  lemma JoinedPrecedes(a: seq<Id>, b: seq<Id>, c: seq<Id>, x: Id, y: Id)
    requires y !in a && y in b + c && (Precedes(b, x, y) || (x in b && y !in b) || x in a)
    ensures Precedes(a + b + c, x, y)
  {
    var q := a + b + c;
    if x in a {
      var j :| 0 <= j < |a| && a[j] == x;
      assert q[j] == x && q[..j + 1] == a[..j + 1];
    } else if Precedes(b, x, y) {
      var j :| 0 <= j < |b| && b[j] == x && y !in b[..j + 1];
      assert q[|a| + j] == x && q[..|a| + j + 1] == a + b[..j + 1];
    } else {
      var j :| 0 <= j < |b| && b[j] == x;
      assert q[|a| + j] == x && q[..|a| + j + 1] == a + b[..j + 1];
    }
  }

  /**
   The requested order is respected whatever else the request holds; inherited members that it leaves out come before
   all others, personal ones after.
   */
  lemma OrderRespects(builtinIds: seq<Id>, personalIds: seq<Id>, requested: seq<Id>, x: Id, y: Id)
    requires x != y && (x in builtinIds || x in personalIds) && (y in builtinIds || y in personalIds)
    requires || Precedes(requested, x, y)
             || (x in builtinIds && x !in requested && (y in requested || y !in builtinIds))
             || (x in requested && y !in requested && y !in builtinIds)
    ensures Precedes(ResolveOwnedOrder(builtinIds, personalIds, requested), x, y)
  {
    var builtin := UniqueInOrder(builtinIds);
    var personal := Except(UniqueInOrder(personalIds), Members(builtin));
    var all := Members(builtin + personal);
    var ordered := Only(UniqueInOrder(requested), all);
    assert x in all && y in all;
    if Precedes(requested, x, y) {
      UniquePrecedes(requested, {}, x, y);
      OnlyPrecedes(UniqueInOrder(requested), all, x, y);
    }
    JoinedPrecedes(Except(builtin, Members(ordered)), ordered, Except(personal, Members(ordered)), x, y);
  }

  // The loop

  method UniqueValues(values: seq<Id>) returns (result: seq<Id>)
    ensures result == UniqueInOrder(values)
  {
    var seen: set<Id> := {};
    result := [];
    var k := 0;
    while k < |values|
      invariant k <= |values| && seen == Members(result)
      invariant UniqueInOrder(values) == result + UniqueFrom(values[k..], seen)
    {
      var value := values[k];
      ghost var rest := values[k + 1..];
      assert values[k..][0] == value && values[k..][1..] == rest;
      if value !in seen {
        Moves(result, value, UniqueFrom(rest, seen + {value}));
        seen := seen + {value};
        result := result + [value];
      }
      k := k + 1;
    }
    assert values[k..] == [];
  }

  lemma Moves(a: seq<Id>, x: Id, b: seq<Id>)
    ensures a + ([x] + b) == (a + [x]) + b
    ensures Members(a + [x]) == Members(a) + {x}
  {
  }
}
