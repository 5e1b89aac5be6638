/** Lists without repetition. */
module Sequences {

  ghost predicate Distinct<T(!new)>(q: seq<T>) {
    forall j, k :: 0 <= j < k < |q| ==> q[j] != q[k]
  }

  lemma DistinctCons<T(!new)>(x: T, q: seq<T>)
    requires Distinct(q) && x !in q
    ensures Distinct([x] + q)
  {
  }

  lemma HeadDiffers<T(!new)>(q: seq<T>)
    requires Distinct(q) && q != []
    ensures Distinct(q[1..]) && q[0] !in q[1..]
  {
  }

  lemma DistinctJoined<T(!new)>(p: seq<T>, q: seq<T>)
    requires Distinct(p) && Distinct(q) && forall x :: x in p ==> x !in q
    ensures Distinct(p + q)
  {
    var r := p + q;
    forall j, k | 0 <= j < k < |r| ensures r[j] != r[k] {
      if j < |p| <= k { assert r[j] in p && r[k] in q; }
    }
  }
}
