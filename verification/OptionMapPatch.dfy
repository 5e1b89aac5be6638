/** JSON values, and JSON Merge Patch (section 2 of RFC 7396) as the option maps apply it: in order, without conflicts. */
module OptionMapPatch {
  import opened Wrappers
  import opened OptionMapSyntax

  type Members = map<string, Json>

  /** Objects are maps: the order of their members makes no difference here. */
  datatype Json =
    | JsonNull
    | JsonBool(truth: bool)
    | JsonNumber(number: Number)
    | JsonText(text: string)
    | JsonArray(elements: seq<Json>)
    | JsonObject(members: Members)

  type Path = seq<string>

  function Merge(target: Members, patch: Json): (r: Members)
    requires patch.JsonObject?
    decreases patch
  {
    map k | k in target.Keys + patch.members.Keys && (k in patch.members ==> !patch.members[k].JsonNull?) ::
      if k !in patch.members then target[k]
      else if patch.members[k].JsonObject? then
        JsonObject(Merge(if k in target && target[k].JsonObject? then target[k].members else map[], patch.members[k]))
      else patch.members[k]
  }

  predicate Nested(v: Json) {
    v.JsonObject? && v.members != map[]
  }

  /** The patch writes a leaf at this path: null removes, an empty object makes an object. */
  ghost predicate Writes(patch: Members, path: Path)
    decreases |path|
  {
    && path != [] && path[0] in patch
    && if Nested(patch[path[0]]) then Writes(patch[path[0]].members, path[1..]) else |path| == 1
  }

  predicate Overlap(p: Path, q: Path) {
    p <= q || q <= p
  }

  /** No leaf of one patch is at, above or below a leaf of the other. */
  ghost predicate Apart(p: Members, q: Members) {
    forall a, b :: Writes(p, a) && Writes(q, b) ==> !Overlap(a, b)
  }

  ghost predicate Untouched(patch: Members, path: Path) {
    forall w :: Writes(patch, w) ==> !Overlap(w, path)
  }

  function Get(v: Json, path: Path): Option<Json> {
    if path == [] then Some(v)
    else if v.JsonObject? && path[0] in v.members then Get(v.members[path[0]], path[1..])
    else None
  }

  function Inside(target: Members, k: string): Members {
    if k in target && target[k].JsonObject? then target[k].members else map[]
  }

  // Every object of a patch writes something

  lemma {:induction false} SomePath(patch: Members, k: string) returns (path: Path)
    requires k in patch
    ensures Writes(patch, path) && path[0] == k
    decreases JsonObject(patch)
  {
    if Nested(patch[k]) {
      var j :| j in patch[k].members;
      var rest := SomePath(patch[k].members, j);
      path := [k] + rest;
      assert path[1..] == rest;
    } else {
      path := [k];
    }
  }

  lemma WritesBelow(patch: Members, k: string, path: Path)
    requires k in patch && Nested(patch[k])
    ensures Writes(patch, [k] + path) <==> Writes(patch[k].members, path)
  {
    assert ([k] + path)[1..] == path;
  }

  lemma OverlapBelow(k: string, p: Path, q: Path)
    ensures Overlap([k] + p, [k] + q) <==> Overlap(p, q)
  {
    assert p <= q ==> q == p + q[|p|..];
    assert q <= p ==> p == q + p[|q|..];
    assert [k] + p <= [k] + q ==> p <= q by {
      if [k] + p <= [k] + q { assert ([k] + q)[1..][..|p|] == p; }
    }
    assert [k] + q <= [k] + p ==> q <= p by {
      if [k] + q <= [k] + p { assert ([k] + p)[1..][..|q|] == q; }
    }
  }

  /** Two patches that are apart both go deeper at a key that they share. */
  lemma ApartBelow(p: Members, q: Members, k: string)
    requires Apart(p, q) && k in p && k in q
    ensures Nested(p[k]) && Nested(q[k]) && Apart(p[k].members, q[k].members)
  {
    var a := SomePath(p, k);
    var b := SomePath(q, k);
    assert !Nested(p[k]) ==> a <= b by { assert a[0] == b[0]; }
    assert !Nested(q[k]) ==> b <= a by { assert a[0] == b[0]; }
    forall c, d | Writes(p[k].members, c) && Writes(q[k].members, d) ensures !Overlap(c, d) {
      WritesBelow(p, k, c);
      WritesBelow(q, k, d);
      OverlapBelow(k, c, d);
    }
  }

  /** Patches without a conflict commute. */
  lemma {:induction false} MergesCommute(target: Members, p: Json, q: Json)
    requires p.JsonObject? && q.JsonObject? && Apart(p.members, q.members)
    ensures Merge(Merge(target, p), q) == Merge(Merge(target, q), p)
    decreases p
  {
    var l, r := Merge(Merge(target, p), q), Merge(Merge(target, q), p);
    forall k ensures k in l <==> k in r {
      if k in p.members && k in q.members { ApartBelow(p.members, q.members, k); }
    }
    forall k | k in l ensures l[k] == r[k] {
      if k in p.members && k in q.members {
        ApartBelow(p.members, q.members, k);
        MergesCommute(Inside(target, k), p.members[k], q.members[k]);
      }
    }
  }

  // Reading the result

  /** What a patch sets at a leaf. */
  ghost function Written(patch: Members, path: Path): Json
    requires Writes(patch, path)
    decreases |path|
  {
    if Nested(patch[path[0]]) then Written(patch[path[0]].members, path[1..]) else patch[path[0]]
  }

  /** What the member reads as after a leaf was applied to what was there before. */
  function Effect(before: Option<Json>, leaf: Json): Option<Json> {
    if leaf.JsonNull? then None
    else if leaf.JsonObject? then Some(if before.Some? && before.value.JsonObject? then before.value else leaf)
    else Some(leaf)
  }

  /** Every leaf of a patch reads back as the patch set it. */
  lemma {:induction false} ReadsBack(target: Members, patch: Json, path: Path)
    requires patch.JsonObject? && Writes(patch.members, path)
    ensures Get(JsonObject(Merge(target, patch)), path)
         == Effect(Get(JsonObject(target), path), Written(patch.members, path))
    decreases |path|
  {
    var k := path[0];
    if Nested(patch.members[k]) {
      ReadsBack(Inside(target, k), patch.members[k], path[1..]);
      if !(k in target && target[k].JsonObject?) {
        assert Get(JsonObject(map[]), path[1..]).None?;
        assert Get(JsonObject(target), path).None?;
      }
    } else {
      assert path[1..] == [];
      if patch.members[k].JsonObject? {
        assert Merge(Inside(target, k), patch.members[k]) == Inside(target, k);
      }
    }
  }

  /** What a patch does not write reads as before. */
  lemma {:induction false} LeavesRest(target: Members, patch: Json, path: Path)
    requires patch.JsonObject? && Untouched(patch.members, path)
    ensures Get(JsonObject(Merge(target, patch)), path) == Get(JsonObject(target), path)
    decreases |path|
  {
    if path == [] {
      if patch.members != map[] {
        var k :| k in patch.members;
        var w := SomePath(patch.members, k);
        assert Overlap(w, path);
      }
      assert Merge(target, patch) == target;
    } else if path[0] in patch.members {
      UntouchedBelow(patch.members, path);
      LeavesRest(Inside(target, path[0]), patch.members[path[0]], path[1..]);
    }
  }

  lemma UntouchedBelow(patch: Members, path: Path)
    requires path != [] && path[0] in patch && Untouched(patch, path)
    ensures Nested(patch[path[0]]) && |path| > 1 && Untouched(patch[path[0]].members, path[1..])
  {
    var k := path[0];
    var w := SomePath(patch, k);
    assert path == [k] + path[1..];
    assert Nested(patch[k]) || w <= path;
    assert |path| > 1 || path <= w;
    forall v | Writes(patch[k].members, v) ensures !Overlap(v, path[1..]) {
      WritesBelow(patch, k, v);
      OverlapBelow(k, v, path[1..]);
    }
  }

  // Lists of patches

  /** A patch with the name of the option that it comes from. */
  datatype Named = Named(option: string, patch: Members)

  /** No leaf of a patch conflicts with a leaf of another one. */
  ghost predicate Compatible(patches: seq<Named>) {
    forall i, j :: 0 <= i < j < |patches| ==> Apart(patches[i].patch, patches[j].patch)
  }

  function Fold(body: Members, patches: seq<Named>): Members
    decreases |patches|
  {
    if patches == [] then body
    else Merge(Fold(body, patches[..|patches| - 1]), JsonObject(patches[|patches| - 1].patch))
  }

  lemma FoldAppends(body: Members, patches: seq<Named>, x: Named)
    ensures Fold(body, patches + [x]) == Merge(Fold(body, patches), JsonObject(x.patch))
  {
    assert (patches + [x])[..|patches|] == patches;
  }

  /** The last patch may as well be applied before those that precede it. */
  lemma {:induction false} FoldMovesLast(body: Members, before: seq<Named>, x: Named, after: seq<Named>)
    requires forall k :: 0 <= k < |after| ==> Apart(x.patch, after[k].patch)
    ensures Fold(body, before + [x] + after) == Fold(body, before + after + [x])
    decreases |after|
  {
    if after == [] {
      assert before + [x] + after == before + after + [x];
    } else {
      var n := |after| - 1;
      var rest, y := after[..n], after[n];
      FoldMovesLast(body, before, x, rest);
      assert before + [x] + after == (before + [x] + rest) + [y];
      assert before + after == (before + rest) + [y];
      FoldAppends(body, before + [x] + rest, y);
      FoldAppends(body, before + rest, x);
      FoldAppends(body, before + rest, y);
      FoldAppends(body, before + after, x);
      MergesCommute(Fold(body, before + rest), JsonObject(x.patch), JsonObject(y.patch));
    }
  }

  lemma MovesLastCompatibly(before: seq<Named>, x: Named, after: seq<Named>)
    requires Compatible(before + after + [x])
    ensures Compatible(before + [x] + after)
    ensures forall k :: 0 <= k < |after| ==> Apart(x.patch, after[k].patch)
  {
    var p, q := before + after + [x], before + [x] + after;
    forall i, j | 0 <= i < j < |q| ensures Apart(q[i].patch, q[j].patch) {
      var i' := if i < |before| then i else if i == |before| then |p| - 1 else i - 1;
      var j' := if j < |before| then j else if j == |before| then |p| - 1 else j - 1;
      assert p[i'] == q[i] && p[j'] == q[j];
      assert if i' < j' then Apart(p[i'].patch, p[j'].patch) else Apart(p[j'].patch, p[i'].patch);
    }
    forall k | 0 <= k < |after| ensures Apart(x.patch, after[k].patch) {
      assert q[|before|] == x && q[|before| + 1 + k] == after[k];
    }
  }

  /** If a list of patches has no conflict, every reordering has none, and gives the same value. */
  lemma {:induction false} AnyOrder(body: Members, patches: seq<Named>, other: seq<Named>)
    requires Compatible(patches) && multiset(patches) == multiset(other)
    ensures Compatible(other) && Fold(body, other) == Fold(body, patches)
    decreases |patches|
  {
    if patches == [] {
      assert |multiset(other)| == 0;
    } else {
      var n := |patches| - 1;
      var rest, x := patches[..n], patches[n];
      assert patches == rest + [x];
      assert x in multiset(other);
      var k :| 0 <= k < |other| && other[k] == x;
      var before, after := other[..k], other[k + 1..];
      assert other == before + [x] + after;
      SameWithout(before, x, after, rest);
      AnyOrder(body, rest, before + after);
      AppendsCompatibly(rest, before + after, x);
      MovesLastCompatibly(before, x, after);
      FoldMovesLast(body, before, x, after);
      FoldAppends(body, before + after, x);
      FoldAppends(body, rest, x);
    }
  }

  lemma SameWithout(before: seq<Named>, x: Named, after: seq<Named>, rest: seq<Named>)
    requires multiset(before + [x] + after) == multiset(rest + [x])
    ensures multiset(before + after) == multiset(rest)
  {
    assert multiset(before + [x] + after) == multiset(before + after) + multiset{x};
    assert multiset(rest + [x]) == multiset(rest) + multiset{x};
    Cancels(multiset(before + after), multiset(rest), x);
  }

  lemma Cancels(m: multiset<Named>, n: multiset<Named>, x: Named)
    requires m + multiset{x} == n + multiset{x}
    ensures m == n
  {
    assert m == (m + multiset{x}) - multiset{x};
    assert n == (n + multiset{x}) - multiset{x};
  }

  lemma AppendsCompatibly(patches: seq<Named>, other: seq<Named>, x: Named)
    requires Compatible(patches + [x]) && Compatible(other) && multiset(patches) == multiset(other)
    ensures Compatible(other + [x])
  {
    var all := other + [x];
    forall i, j | 0 <= i < j < |all| ensures Apart(all[i].patch, all[j].patch) {
      if j == |other| {
        assert other[i] in multiset(patches);
        var k :| 0 <= k < |patches| && patches[k] == other[i];
        assert (patches + [x])[k] == all[i] && (patches + [x])[|patches|] == x;
      }
    }
  }

  /** Every leaf of every patch reads back as that patch set it. */
  lemma {:induction false} AllReadBack(body: Members, patches: seq<Named>, i: nat, path: Path)
    requires Compatible(patches) && i < |patches| && Writes(patches[i].patch, path)
    ensures Get(JsonObject(Fold(body, patches)), path)
         == Effect(Get(JsonObject(body), path), Written(patches[i].patch, path))
    decreases |patches|
  {
    var n := |patches| - 1;
    var before := Fold(body, patches[..n]);
    if i == n {
      ReadsBack(before, JsonObject(patches[n].patch), path);
      forall k | 0 <= k < n ensures Untouched(patches[..n][k].patch, path) {
        assert Apart(patches[k].patch, patches[n].patch);
      }
      RestRemains(body, patches[..n], path);
    } else {
      AllReadBack(body, patches[..n], i, path);
      assert Apart(patches[i].patch, patches[n].patch);
      forall w | Writes(patches[n].patch, w) ensures !Overlap(w, path) {
        assert !Overlap(path, w);
      }
      LeavesRest(before, JsonObject(patches[n].patch), path);
    }
  }

  /** What no patch writes reads as in the body. */
  lemma {:induction false} RestRemains(body: Members, patches: seq<Named>, path: Path)
    requires forall k :: 0 <= k < |patches| ==> Untouched(patches[k].patch, path)
    ensures Get(JsonObject(Fold(body, patches)), path) == Get(JsonObject(body), path)
    decreases |patches|
  {
    if patches != [] {
      var n := |patches| - 1;
      RestRemains(body, patches[..n], path);
      LeavesRest(Fold(body, patches[..n]), JsonObject(patches[n].patch), path);
    }
  }

  // Leaves and conflicts, told apart from the merge

  /** A patch writes exactly its values that are not objects with members. */
  lemma {:induction false} LeavesAreValues(patch: Members, path: Path)
    ensures Writes(patch, path) <==>
      path != [] && Get(JsonObject(patch), path).Some? && !Nested(Get(JsonObject(patch), path).value)
    decreases |path|
  {
    if path != [] && path[0] in patch {
      if Nested(patch[path[0]]) {
        LeavesAreValues(patch[path[0]].members, path[1..]);
      } else if |path| > 1 {
        assert Get(JsonObject(patch), path) == Get(patch[path[0]], path[1..]);
      }
    }
  }

  /** Paths overlap exactly when they nowhere part. */
  lemma OverlapUnlessParted(p: Path, q: Path)
    ensures Overlap(p, q) <==> !exists k :: 0 <= k < |p| && k < |q| && p[k] != q[k]
  {
    if !exists k :: 0 <= k < |p| && k < |q| && p[k] != q[k] {
      if |p| <= |q| { assert p == q[..|p|]; } else { assert q == p[..|q|]; }
    }
  }
}
