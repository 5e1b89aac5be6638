/** Applying the patches of several options to a body: the loops, with the paths that are already owned. */
module OptionMapMerger {
  import opened OptionMapPatch
  import opened Sequences

  datatype OwnedPath = OwnedPath(option: string, path: Path)

  datatype Application = Merged(value: Members) | Conflict(path: Path, owner: string, option: string)

  ghost predicate WritesUnder(patch: Members, prefix: Path, w: Path) {
    prefix <= w && Writes(patch, w[|prefix|..])
  }

  lemma WritesUnderKey(patch: Members, prefix: Path, k: string, w: Path)
    requires k in patch && Nested(patch[k])
    ensures WritesUnder(patch[k].members, prefix + [k], w)
            <==> |prefix| < |w| && w[|prefix|] == k && WritesUnder(patch, prefix, w)
  {
    if prefix + [k] <= w {
      assert w[|prefix|..] == [k] + w[|prefix| + 1..];
      WritesBelow(patch, k, w[|prefix| + 1..]);
      assert prefix <= w by { assert w[..|prefix|] == prefix; }
    }
  }

  /** Different leaves of one patch never overlap. */
  lemma {:induction false} LeavesApart(patch: Members, a: Path, b: Path)
    requires Writes(patch, a) && Writes(patch, b) && Overlap(a, b)
    ensures a == b
    decreases |a|
  {
    assert a == [a[0]] + a[1..] && b == [b[0]] + b[1..];
    if Nested(patch[a[0]]) {
      OverlapBelow(a[0], a[1..], b[1..]);
      LeavesApart(patch[a[0]].members, a[1..], b[1..]);
    }
  }

  method CollectWrittenPaths(patch: Members, prefix: Path) returns (paths: seq<Path>)
    ensures Distinct(paths) && forall w :: w in paths <==> WritesUnder(patch, prefix, w)
    decreases JsonObject(patch)
  {
    paths := [];
    var keys := patch.Keys;
    while keys != {}
      invariant keys <= patch.Keys && Distinct(paths)
      invariant forall w :: w in paths <==> WritesUnder(patch, prefix, w) && w[|prefix|] !in keys
      decreases keys
    {
      var key :| key in keys;
      var value := patch[key];
      var path := prefix + [key];
      if value.JsonObject? && value.members != map[] {
        var below := CollectWrittenPaths(value.members, path);
        forall w ensures w in below <==> WritesUnder(patch, prefix, w) && w[|prefix|] == key {
          WritesUnderKey(patch, prefix, key, w);
        }
        DistinctJoined(paths, below);
        paths := paths + below;
      } else {
        forall w ensures w == path <==> WritesUnder(patch, prefix, w) && w[|prefix|] == key {
          assert w == path ==> w[|prefix|..] == [key];
          assert WritesUnder(patch, prefix, w) && w[|prefix|] == key ==> w == prefix + w[|prefix|..];
        }
        DistinctJoined(paths, [path]);
        paths := paths + [path];
      }
      keys := keys - {key};
    }
  }

  method MergeObject(target: Members, patch: Members) returns (result: Members)
    ensures result == Merge(target, JsonObject(patch))
    decreases JsonObject(patch)
  {
    ghost var merged := Merge(target, JsonObject(patch));
    result := target;
    var keys := patch.Keys;
    while keys != {}
      invariant keys <= patch.Keys
      invariant forall k :: k in result <==> if k in keys then k in target else k in merged
      invariant forall k :: k in result ==> result[k] == if k in keys then target[k] else merged[k]
      decreases keys
    {
      var key :| key in keys;
      var patchValue := patch[key];
      keys := keys - {key};
      if patchValue.JsonNull? {
        result := result - {key};
      } else if patchValue.JsonObject? {
        var inside := if key in result && result[key].JsonObject? then result[key].members else map[];
        var value := MergeObject(inside, patchValue.members);
        assert patch[key] == JsonObject(patchValue.members);
        result := result[key := JsonObject(value)];
      } else {
        result := result[key := patchValue];
      }
    }
  }

  /** The first owned path that overlaps. */
  method FindConflict(owned: seq<OwnedPath>, path: Path) returns (k: nat)
    ensures k <= |owned| && (k < |owned| ==> Overlap(owned[k].path, path))
    ensures forall j :: 0 <= j < k ==> !Overlap(owned[j].path, path)
  {
    k := 0;
    while k < |owned|
      invariant k <= |owned| && forall j :: 0 <= j < k ==> !Overlap(owned[j].path, path)
    {
      if Overlap(owned[k].path, path) {
        return;
      }
      k := k + 1;
    }
  }

  /** `owned` lists the leaves of the first `n` patches. */
  ghost predicate OwnsLeaves(owned: seq<OwnedPath>, patches: seq<Named>, n: nat)
    requires n <= |patches|
  {
    && (forall o :: o in owned ==> exists i :: 0 <= i < n && patches[i].option == o.option && Writes(patches[i].patch, o.path))
    && (forall i, w :: 0 <= i < n && Writes(patches[i].patch, w) ==> OwnedPath(patches[i].option, w) in owned)
  }

  /** The leaf `path` of a patch conflicts with a leaf of an earlier one. */
  ghost predicate Conflicting(patches: seq<Named>, path: Path, owner: string, option: string) {
    exists i, j, w :: 0 <= i < j < |patches| && patches[i].option == owner && patches[j].option == option
      && Writes(patches[i].patch, w) && Writes(patches[j].patch, path) && Overlap(w, path)
  }

  /** The patches are applied in order, unless two of them write conflicting paths. */
  method ApplyOrderedJsonMergePatches(body: Members, patches: seq<Named>) returns (r: Application)
    ensures r.Merged? <==> Compatible(patches)
    ensures r.Merged? ==> r.value == Fold(body, patches)
    ensures r.Conflict? ==> Conflicting(patches, r.path, r.owner, r.option)
  {
    var ownedPaths: seq<OwnedPath> := [];
    var result := body;
    var n := 0;
    while n < |patches|
      invariant n <= |patches| && Compatible(patches[..n]) && OwnsLeaves(ownedPaths, patches, n)
      invariant result == Fold(body, patches[..n])
    {
      var named := patches[n];
      var paths := CollectWrittenPaths(named.patch, []);
      assert forall w :: w in paths <==> Writes(named.patch, w) by {
        forall w ensures WritesUnder(named.patch, [], w) == Writes(named.patch, w) { assert w[0..] == w; }
      }
      var before := ownedPaths;
      var k := 0;
      while k < |paths|
        invariant k <= |paths|
        invariant ownedPaths == before + seq(k, m requires 0 <= m < |paths| => OwnedPath(named.option, paths[m]))
        invariant forall m, o :: 0 <= m < k && o in before ==> !Overlap(o.path, paths[m])
      {
        var found := FindConflict(ownedPaths, paths[k]);
        if found < |ownedPaths| {
          var conflict := ownedPaths[found];
          ConflictIsEarlier(patches, n, before, paths, k, found);
          return Conflict(paths[k], conflict.option, named.option);
        }
        forall o | o in before ensures !Overlap(o.path, paths[k]) {
          var j :| 0 <= j < |before| && before[j] == o;
          assert ownedPaths[j] == o;
        }
        ownedPaths := ownedPaths + [OwnedPath(named.option, paths[k])];
        k := k + 1;
      }
      result := MergeObject(result, named.patch);
      OneMorePatch(patches, n, before, paths, ownedPaths);
      assert patches[..n + 1] == patches[..n] + [named];
      FoldAppends(body, patches[..n], named);
      n := n + 1;
    }
    assert patches[..n] == patches;
    return Merged(result);
  }

  lemma ConflictIsEarlier(patches: seq<Named>, n: nat, before: seq<OwnedPath>, paths: seq<Path>, k: nat, found: nat)
    requires n < |patches| && OwnsLeaves(before, patches, n) && Distinct(paths) && k < |paths| && found < |before| + k
    requires forall w :: w in paths ==> Writes(patches[n].patch, w)
    requires var owned := before + seq(k, m requires 0 <= m < |paths| => OwnedPath(patches[n].option, paths[m]));
      Overlap(owned[found].path, paths[k])
    ensures found < |before| && !Compatible(patches)
    ensures Conflicting(patches, paths[k], before[found].option, patches[n].option)
  {
    if found >= |before| {
      LeavesApart(patches[n].patch, paths[found - |before|], paths[k]);
      assert false;
    }
    var o := before[found];
    assert o in before;
    var i :| 0 <= i < n && patches[i].option == o.option && Writes(patches[i].patch, o.path);
    assert !Apart(patches[i].patch, patches[n].patch);
  }

  lemma OneMorePatch(
      patches: seq<Named>, n: nat, before: seq<OwnedPath>, paths: seq<Path>, owned: seq<OwnedPath>)
    requires n < |patches| && OwnsLeaves(before, patches, n) && Compatible(patches[..n])
    requires forall w :: w in paths <==> Writes(patches[n].patch, w)
    requires owned == before + seq(|paths|, m requires 0 <= m < |paths| => OwnedPath(patches[n].option, paths[m]))
    requires forall m, o :: 0 <= m < |paths| && o in before ==> !Overlap(o.path, paths[m])
    ensures OwnsLeaves(owned, patches, n + 1) && Compatible(patches[..n + 1])
  {
    var added := seq(|paths|, m requires 0 <= m < |paths| => OwnedPath(patches[n].option, paths[m]));
    forall w | Writes(patches[n].patch, w) ensures OwnedPath(patches[n].option, w) in owned {
      var m :| 0 <= m < |paths| && paths[m] == w;
      assert added[m] == OwnedPath(patches[n].option, w);
    }
    forall i | 0 <= i < n ensures Apart(patches[i].patch, patches[n].patch) {
      forall a, b | Writes(patches[i].patch, a) && Writes(patches[n].patch, b) ensures !Overlap(a, b) {
        assert OwnedPath(patches[i].option, a) in before;
        var m :| 0 <= m < |paths| && paths[m] == b;
        assert !Overlap(OwnedPath(patches[i].option, a).path, paths[m]);
      }
    }
    forall o | o in owned
      ensures exists i :: 0 <= i < n + 1 && patches[i].option == o.option && Writes(patches[i].patch, o.path) {
      if o !in before {
        assert patches[n].option == o.option && Writes(patches[n].patch, o.path);
      }
    }
    var more := patches[..n + 1];
    forall i, j | 0 <= i < j < |more| ensures Apart(more[i].patch, more[j].patch) {
      if j < n { assert Apart(patches[..n][i].patch, patches[..n][j].patch); }
    }
  }
}
