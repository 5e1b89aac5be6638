/**
 The active release that many processes share under a file lock: reading it repairs and materialises the cache from the
 bundled release, applying a download replaces it only by a newer one.
 */
module ActiveRelease {
  import opened Wrappers

  /** `content` stands for the serialized configuration. */
  datatype Release = Release(revision: nat, content: string)

  datatype Application = Updated | Unchanged | Stale | ContentConflict | Unavailable

  /**
   The newer of the two candidates, the bundled one on a tie: what a locked read returns, and leaves in the file. A
   candidate is None when it is missing or damaged.
   */
  function Select(bundled: Option<Release>, active: Option<Release>): Option<Release> {
    if bundled.None? then active
    else if active.None? then bundled
    else if bundled.value.revision == active.value.revision then bundled
    else if active.value.revision > bundled.value.revision then active else bundled
  }

  function Verdict(bundled: Option<Release>, active: Option<Release>, release: Release): Application {
    match Select(bundled, active)
    case None => Unavailable
    case Some(current) =>
      if release.revision < current.revision then Stale
      else if release.revision > current.revision then Updated
      else if release == current then Unchanged else ContentConflict
  }

  function Applied(bundled: Option<Release>, active: Option<Release>, release: Release): Option<Release> {
    if Verdict(bundled, active, release).Updated? then Some(release) else Select(bundled, active)
  }

  // Any number of processes

  /** Reads and applications are atomic under the lock. A process that dies in between has only read. */
  datatype Action = Reading | Applying(release: Release)

  function Step(bundled: Option<Release>, active: Option<Release>, a: Action): Option<Release> {
    match a
    case Reading => Select(bundled, active)
    case Applying(release) => Applied(bundled, active, release)
  }

  /** The file after each step, the initial one first. */
  function History(bundled: Option<Release>, active: Option<Release>, actions: seq<Action>): (h: seq<Option<Release>>)
    ensures |h| == |actions| + 1
    decreases |actions|
  {
    if actions == [] then [active]
    else
      var before := History(bundled, active, actions[..|actions| - 1]);
      before + [Step(bundled, before[|before| - 1], actions[|actions| - 1])]
  }

  /** From `r` to `s` nothing went back: the revision grew, or the release is the same. */
  predicate Forward(r: Option<Release>, s: Option<Release>) {
    r.Some? && s.Some? && (r == s || r.value.revision < s.value.revision)
  }

  /** The file holds the bundled release or a newer one. */
  predicate Settled(bundled: Release, active: Option<Release>) {
    active.Some? && (active.value == bundled || active.value.revision > bundled.revision)
  }

  lemma StepSettles(bundled: Release, active: Option<Release>, a: Action)
    ensures var s := Step(Some(bundled), active, a);
      Settled(bundled, s) && (Settled(bundled, active) ==> Forward(active, s))
    ensures Settled(bundled, active) ==> Select(Some(bundled), active) == active
  {
  }

  lemma {:induction false} HistoryForward(bundled: Release, active: Option<Release>, actions: seq<Action>, i: nat)
    requires 0 < i <= |actions|
    ensures var h := History(Some(bundled), active, actions);
      Settled(bundled, h[i]) && forall j :: i <= j < |h| ==> Settled(bundled, h[j]) && Forward(h[i], h[j])
    decreases |actions|
  {
    var n := |actions| - 1;
    var before := History(Some(bundled), active, actions[..n]);
    StepSettles(bundled, before[n], actions[n]);
    if i <= n {
      HistoryForward(bundled, active, actions[..n], i);
      assert Forward(before[i], before[n]);
    }
  }

  /**
   After the first locked read or application, whatever the processes do: the active revision never decreases and is
   never below the bundled one, and a revision number has one content for the rest of the run.
   */
  lemma {:induction false} OneContentPerRevision(
      bundled: Release, active: Option<Release>, actions: seq<Action>, i: nat, j: nat)
    requires 0 < i <= j <= |actions|
    ensures var h := History(Some(bundled), active, actions);
      && h[i].Some? && h[j].Some? && bundled.revision <= h[i].value.revision <= h[j].value.revision
      && (h[i].value.revision == h[j].value.revision ==> h[i] == h[j])
      && (h[i].value.revision == bundled.revision ==> h[i].value == bundled)
  {
    HistoryForward(bundled, active, actions, i);
  }

  /** A download that comes late never replaces a release that is as new. */
  lemma LateDownloadChangesNothing(bundled: Release, active: Option<Release>, release: Release)
    requires Settled(bundled, active) && release.revision <= active.value.revision
    ensures Applied(Some(bundled), active, release) == active
    ensures Verdict(Some(bundled), active, release)
         == if release == active.value then Unchanged
            else if release.revision == active.value.revision then ContentConflict else Stale
  {
  }

  // The source object of one process

  class ActiveFile {
    /** None when the file is missing or damaged. */
    var content: Option<Release>

    constructor (content: Option<Release>)
      ensures this.content == content
    {
      this.content := content;
    }
  }

  class ConfigSource {
    const bundled: Option<Release>
    const file: ActiveFile
    var observed: Option<Release>
    var disposed: bool

    constructor (bundled: Option<Release>, file: ActiveFile)
      ensures this.bundled == bundled && this.file == file && observed == None && !disposed
    {
      this.bundled, this.file, observed, disposed := bundled, file, None, false;
    }

    /** Under the lock: selects a release, and writes it to the file unless it is there already. */
    method ReadAndMaterialize() returns (selected: Option<Release>)
      modifies file
      ensures selected == Select(bundled, old(file.content))
      ensures file.content == Select(bundled, old(file.content))
    {
      selected := Select(bundled, file.content);
      if selected.Some? && file.content != selected {
        file.content := selected;
      }
    }

    /** `locked`: the lock, the watcher and the file work; otherwise the bundled release is served as it is. */
    method Read(locked: bool) returns (release: Option<Release>)
      modifies this`observed, file
      ensures release == if locked then Select(bundled, old(file.content)) else bundled
      ensures file.content == if locked then Select(bundled, old(file.content)) else old(file.content)
      ensures observed == if old(observed).None? then release else old(observed)
    {
      if locked {
        release := ReadAndMaterialize();
      } else {
        release := bundled;
      }
      if observed.None? {
        observed := release;
      }
    }

    /** `changed`: listeners are told. */
    method ApplyRemoteRelease(release: Release) returns (result: Application, changed: bool)
      requires !disposed
      modifies this`observed, file
      ensures result == Verdict(bundled, old(file.content), release)
      ensures file.content == Applied(bundled, old(file.content), release)
      ensures changed == result.Updated? && observed == if changed then Some(release) else old(observed)
    {
      changed := false;
      var current := ReadAndMaterialize();
      if current.None? {
        return Unavailable, false;
      }
      if release.revision < current.value.revision {
        return Stale, false;
      }
      if release.revision == current.value.revision {
        return if release == current.value then Unchanged else ContentConflict, false;
      }
      file.content := Some(release);
      observed := Some(release);
      return Updated, true;
    }

    /** The watcher saw the file change: listeners are told unless the release was observed already. */
    method WatchRefresh() returns (changed: bool)
      modifies this`observed, file
      ensures file.content == if disposed then old(file.content) else Select(bundled, old(file.content))
      ensures var found := Select(bundled, old(file.content));
        && changed == (!disposed && found.Some? && found != old(observed))
        && observed == if changed then found else old(observed)
    {
      changed := false;
      if disposed {
        return;
      }
      var release := ReadAndMaterialize();
      if release.None? || release == observed {
        return;
      }
      observed := release;
      changed := true;
    }
  }

  // Which release is served, and which replaces it

  predicate Newer(release: Release, than: Option<Release>) {
    than.Some? ==> release.revision > than.value.revision
  }

  /** A read gives one of the two, never an older one, and the bundled one when both are as new. */
  lemma ServesNewest(bundled: Option<Release>, active: Option<Release>)
    ensures var r := Select(bundled, active);
      && (r.None? <==> bundled.None? && active.None?)
      && (r == bundled || r == active)
      && (r.Some? && bundled.Some? ==> r.value.revision >= bundled.value.revision)
      && (r.Some? && active.Some? ==> r.value.revision >= active.value.revision)
      && (bundled.Some? && r != bundled ==> Newer(r.value, bundled))
  {
  }

  /** A download replaces the release exactly when there is one and it is newer than both; otherwise a read is left. */
  lemma ReplacesExactlyWhen(bundled: Option<Release>, active: Option<Release>, release: Release)
    ensures var verdict, after := Verdict(bundled, active, release), Applied(bundled, active, release);
      && (verdict.Updated? <==>
            (bundled.Some? || active.Some?) && Newer(release, bundled) && Newer(release, active))
      && (verdict.Unavailable? <==> bundled.None? && active.None?)
      && after == if verdict.Updated? then Some(release) else Select(bundled, active)
  {
  }
}
