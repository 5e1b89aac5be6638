/**
 The lease by which processes that share a control file take turns at refreshing. Acquiring and finishing each read and
 write the file under its lock; the download in between holds no lock, so leases can expire and be taken over.
 */
module LeaseProtocol {
  import opened Wrappers

  type LeaseId = nat
  type Time = nat

  /** The control file; a missing or damaged one reads as `Empty`. */
  datatype Control = Control(
    endpoint: string, lease: Option<LeaseId>, leaseUntil: Time, nextEligibleAt: Time, failureCount: nat)

  const Empty := Control("", None, 0, 0, 0)

  datatype Settings = Settings(success: nat, lease: nat, failureBase: nat, failureMax: nat)

  datatype Outcome = Succeeded | FailedRefresh | Cancelled

  datatype Acquisition = Acquired | LeaseHeld | NotDue

  function Power(n: nat): (p: nat)
    ensures p >= 1
  {
    if n == 0 then 1 else 2 * Power(n - 1)
  }

  /** The delay after so many failures in a row. */
  function FailureDelay(o: Settings, failures: nat): nat {
    var delay := o.failureBase * Power(if failures <= 1 then 0 else failures - 1);
    if delay <= o.failureMax then delay else o.failureMax
  }

  function MayAcquire(c: Control, endpoint: string, force: bool, now: Time): Acquisition {
    if c.endpoint == endpoint && c.leaseUntil > now then LeaseHeld
    else if !force && c.endpoint == endpoint && c.nextEligibleAt > now then NotDue
    else Acquired
  }

  function Acquire(o: Settings, c: Control, endpoint: string, lease: LeaseId, force: bool, now: Time): Control {
    if !MayAcquire(c, endpoint, force, now).Acquired? then c
    else if c.endpoint == endpoint then
      Control(endpoint, Some(lease), now + o.lease, c.nextEligibleAt, c.failureCount)
    else Control(endpoint, Some(lease), now + o.lease, 0, 0)
  }

  function Finish(o: Settings, c: Control, endpoint: string, lease: LeaseId, outcome: Outcome, now: Time): Control {
    if c.endpoint != endpoint || c.lease != Some(lease) then c
    else
      match outcome
      case Cancelled => Control(endpoint, None, 0, now, c.failureCount)
      case Succeeded => Control(endpoint, None, 0, now + o.success, 0)
      case FailedRefresh =>
        Control(endpoint, None, 0, now + FailureDelay(o, c.failureCount + 1), c.failureCount + 1)
  }

  // Processes

  /** A refresh in flight: the lease that it acquired. */
  datatype Holding = Holding(endpoint: string, until: Time)

  /** `used`: all leases ever acquired; `effects`: the leases whose finish changed the control file, oldest first. */
  datatype World = World(
    clock: Time, control: Control, holding: map<LeaseId, Holding>, used: set<LeaseId>, effects: seq<LeaseId>)

  datatype Action =
    | Ticking(ticks: nat)
    | Acquiring(lease: LeaseId, endpoint: string, force: bool)
    | Finishing(lease: LeaseId, outcome: Outcome)
    | Crashing(lease: LeaseId)

  function InitialWorld(control: Control): World {
    World(0, control, map[], {}, [])
  }

  function Step(o: Settings, w: World, a: Action): World {
    match a
    case Ticking(n) => w.(clock := w.clock + n)
    case Acquiring(l, endpoint, force) =>
      if l in w.used || w.control.lease == Some(l) || !MayAcquire(w.control, endpoint, force, w.clock).Acquired? then w
      else w.(control := Acquire(o, w.control, endpoint, l, force, w.clock),
              holding := w.holding[l := Holding(endpoint, w.clock + o.lease)], used := w.used + {l})
    case Finishing(l, outcome) =>
      if l !in w.holding then w
      else
        var after := Finish(o, w.control, w.holding[l].endpoint, l, outcome, w.clock);
        w.(control := after, holding := w.holding - {l},
           effects := if w.control.lease == Some(l) && after.lease != Some(l) then w.effects + [l] else w.effects)
    case Crashing(l) => w.(holding := w.holding - {l})
  }

  function Run(o: Settings, w: World, actions: seq<Action>): World
    decreases |actions|
  {
    if actions == [] then w else Step(o, Run(o, w, actions[..|actions| - 1]), actions[|actions| - 1])
  }

  predicate Unexpired(w: World, l: LeaseId) {
    l in w.holding && w.holding[l].until > w.clock
  }

  /** No two processes hold leases that have not expired. */
  ghost predicate Exclusive(w: World) {
    forall l, m :: Unexpired(w, l) && Unexpired(w, m) ==> l == m
  }

  /**
   An unexpired lease is the one in the control file. While its process lives, the lease in the file has the endpoint and
   the deadline that the file says.
   */
  ghost predicate InFile(w: World) {
    && (forall l: LeaseId :: Unexpired(w, l) ==> w.control.lease == Some(l))
    && (forall l: LeaseId :: l in w.holding && w.control.lease == Some(l) ==>
          w.holding[l] == Holding(w.control.endpoint, w.control.leaseUntil))
    && (forall l :: l in w.holding ==> l in w.used)
  }

  /**
   The file is leased to a living process until later, for another endpoint: the guard against a lease that is held looks
   at the own endpoint only and lets the step pass.
   */
  predicate TakesOver(w: World, a: Action) {
    && a.Acquiring? && a.lease !in w.used && w.control.lease != Some(a.lease)
    && w.control.endpoint != a.endpoint && w.control.leaseUntil > w.clock
    && w.control.lease.Some? && w.control.lease.value in w.holding
  }

  lemma InFileIsExclusive(w: World)
    requires InFile(w)
    ensures Exclusive(w)
  {
    forall l: LeaseId, m: LeaseId | Unexpired(w, l) && Unexpired(w, m) ensures l == m {
      assert w.control.lease == Some(l) && w.control.lease == Some(m);
    }
  }

  /** A step keeps leases exclusive exactly when it does not take over the file from another endpoint. */
  lemma StepIsExclusive(o: Settings, w: World, a: Action)
    requires InFile(w) && o.lease > 0
    ensures Exclusive(Step(o, w, a)) <==> !TakesOver(w, a)
    ensures !TakesOver(w, a) ==> InFile(Step(o, w, a))
  {
    var w' := Step(o, w, a);
    if TakesOver(w, a) {
      assert Unexpired(w', a.lease) && Unexpired(w', w.control.lease.value);
    } else {
      forall l: LeaseId | Unexpired(w', l) ensures w'.control.lease == Some(l) {
        assert Unexpired(w, l) || (a.Acquiring? && l == a.lease);
      }
      InFileIsExclusive(w');
    }
  }

  /** Taken over or finished, a lease never comes back. */
  ghost predicate EffectsOk(w: World) {
    && (forall j, k :: 0 <= j < k < |w.effects| ==> w.effects[j] != w.effects[k])
    && (forall l :: l in w.effects ==> l in w.used && w.control.lease != Some(l))
    && (forall l :: l in w.holding ==> l in w.used)
  }

  lemma StepKeepsEffects(o: Settings, w: World, a: Action)
    requires EffectsOk(w)
    ensures EffectsOk(Step(o, w, a))
  {
  }

  ghost predicate WithoutTakeover(o: Settings, w: World, actions: seq<Action>)
    decreases |actions|
  {
    actions == [] ||
    var n := |actions| - 1;
    WithoutTakeover(o, w, actions[..n]) && !TakesOver(Run(o, w, actions[..n]), actions[n])
  }

  lemma {:induction false} RunKeepsFile(o: Settings, w: World, actions: seq<Action>)
    requires InFile(w) && o.lease > 0 && WithoutTakeover(o, w, actions)
    ensures InFile(Run(o, w, actions))
    decreases |actions|
  {
    if actions != [] {
      var n := |actions| - 1;
      hide Step, InFile;
      RunKeepsFile(o, w, actions[..n]);
      StepIsExclusive(o, Run(o, w, actions[..n]), actions[n]);
    }
  }

  lemma {:induction false} RunKeepsEffects(o: Settings, w: World, actions: seq<Action>)
    requires EffectsOk(w)
    ensures EffectsOk(Run(o, w, actions))
    decreases |actions|
  {
    if actions != [] {
      hide Step, EffectsOk;
      RunKeepsEffects(o, w, actions[..|actions| - 1]);
      StepKeepsEffects(o, Run(o, w, actions[..|actions| - 1]), actions[|actions| - 1]);
    }
  }

  ghost predicate ExclusiveThroughout(o: Settings, w: World, actions: seq<Action>) {
    forall k :: 0 <= k <= |actions| ==> Exclusive(Run(o, w, actions[..k]))
  }

  lemma ThroughoutNext(o: Settings, w: World, actions: seq<Action>)
    requires actions != []
    ensures ExclusiveThroughout(o, w, actions) <==>
      ExclusiveThroughout(o, w, actions[..|actions| - 1]) && Exclusive(Run(o, w, actions))
  {
    hide Exclusive, Run;
    var n := |actions| - 1;
    var before := actions[..n];
    assert actions[..n + 1] == actions;
    assert forall k :: 0 <= k <= n ==> before[..k] == actions[..k];
    if ExclusiveThroughout(o, w, actions) {
      assert Exclusive(Run(o, w, actions[..n + 1]));
      forall k | 0 <= k <= n ensures Exclusive(Run(o, w, before[..k])) {
        assert Exclusive(Run(o, w, actions[..k]));
      }
    } else {
      var k :| 0 <= k <= n + 1 && !Exclusive(Run(o, w, actions[..k]));
      assert k <= n ==> !Exclusive(Run(o, w, before[..k]));
    }
  }

  /**
   For any endpoints: leases are exclusive at every moment of a run exactly when no step takes over the file from
   another endpoint.
   */
  lemma {:induction false} ExclusiveExactlyWhen(o: Settings, control: Control, actions: seq<Action>)
    requires o.lease > 0
    ensures ExclusiveThroughout(o, InitialWorld(control), actions) <==>
            WithoutTakeover(o, InitialWorld(control), actions)
    decreases |actions|
  {
    hide Exclusive, ExclusiveThroughout, Step, InFile, TakesOver;
    var w := InitialWorld(control);
    InitiallyInFile(control);
    if actions == [] {
      InitiallyExclusive(o, control);
    } else {
      var n := |actions| - 1;
      ThroughoutNext(o, w, actions);
      ExclusiveExactlyWhen(o, control, actions[..n]);
      if WithoutTakeover(o, w, actions[..n]) {
        RunKeepsFile(o, w, actions[..n]);
        StepIsExclusive(o, Run(o, w, actions[..n]), actions[n]);
      }
    }
  }

  lemma InitiallyExclusive(o: Settings, control: Control)
    ensures ExclusiveThroughout(o, InitialWorld(control), [])
  {
    var none: seq<Action> := [];
    assert none[..0] == none;
  }

  lemma InitiallyInFile(control: Control)
    ensures InFile(InitialWorld(control)) && EffectsOk(InitialWorld(control))
  {
  }

  // One endpoint

  /** Every acquisition is for one endpoint. */
  predicate ForEndpoint(a: Action, endpoint: string) {
    a.Acquiring? ==> a.endpoint == endpoint
  }

  lemma {:induction false} OneEndpointTakesNothingOver(
      o: Settings, control: Control, actions: seq<Action>, endpoint: string)
    requires o.lease > 0 && forall k :: 0 <= k < |actions| ==> ForEndpoint(actions[k], endpoint)
    ensures var w := InitialWorld(control);
      && WithoutTakeover(o, w, actions)
      && forall l :: l in Run(o, w, actions).holding ==> Run(o, w, actions).holding[l].endpoint == endpoint
    decreases |actions|
  {
    if actions != [] {
      var w, n := InitialWorld(control), |actions| - 1;
      OneEndpointTakesNothingOver(o, control, actions[..n], endpoint);
      InitiallyInFile(control);
      RunKeepsFile(o, w, actions[..n]);
    }
  }

  /** With one endpoint, no two unexpired leases are ever held at once, and each lease takes effect at most once. */
  lemma {:induction false} OneEndpointIsSafe(o: Settings, control: Control, actions: seq<Action>, endpoint: string)
    requires forall k :: 0 <= k < |actions| ==> ForEndpoint(actions[k], endpoint)
    ensures var w := Run(o, InitialWorld(control), actions);
      Exclusive(w) && forall j, k :: 0 <= j < k < |w.effects| ==> w.effects[j] != w.effects[k]
  {
    var w := InitialWorld(control);
    InitiallyInFile(control);
    RunKeepsEffects(o, w, actions);
    hide Run, Step, WithoutTakeover;
    if o.lease > 0 {
      OneEndpointTakesNothingOver(o, control, actions, endpoint);
      RunKeepsFile(o, w, actions);
      InFileIsExclusive(Run(o, w, actions));
    } else {
      NoTime(o, control, actions);
    }
  }

  /** Leases of no duration have always expired. */
  lemma {:induction false} NoTime(o: Settings, control: Control, actions: seq<Action>)
    requires o.lease == 0
    ensures forall l :: !Unexpired(Run(o, InitialWorld(control), actions), l)
    decreases |actions|
  {
    if actions != [] {
      var n := |actions| - 1;
      NoTime(o, control, actions[..n]);
      var w := Run(o, InitialWorld(control), actions[..n]);
      forall l ensures !Unexpired(Step(o, w, actions[n]), l) {
        assert !Unexpired(w, l);
      }
    }
  }

  /** A lease that was taken over, or has finished, is lost for good: nothing its holder does changes the control file. */
  lemma {:induction false} LostForGood(o: Settings, w: World, actions: seq<Action>, l: LeaseId, outcome: Outcome)
    requires l in w.used && w.control.lease != Some(l)
    ensures var w' := Run(o, w, actions);
      l in w'.used && w'.control.lease != Some(l) && Step(o, w', Finishing(l, outcome)).control == w'.control
    decreases |actions|
  {
    if actions != [] {
      var n := |actions| - 1;
      LostForGood(o, w, actions[..n], l, outcome);
      LostStep(o, Run(o, w, actions[..n]), actions[n], l);
    }
  }

  lemma LostStep(o: Settings, w: World, a: Action, l: LeaseId)
    requires l in w.used && w.control.lease != Some(l)
    ensures l in Step(o, w, a).used && Step(o, w, a).control.lease != Some(l)
  {
  }

  // Different endpoints

  /** Two processes with different endpoints in one control file hold unexpired leases at once. */
  lemma TwoEndpoints(o: Settings)
    requires o.lease > 0
    ensures !Exclusive(Run(o, InitialWorld(Empty), [Acquiring(1, "a", false), Acquiring(2, "b", false)]))
  {
    var first, second := Acquiring(1, "a", false), Acquiring(2, "b", false);
    var w1 := Step(o, InitialWorld(Empty), first);
    assert [first, second][..1] == [first] && [first][..0] == [];
    assert Run(o, InitialWorld(Empty), [first]) == w1;
    var w2 := Step(o, w1, second);
    assert Unexpired(w2, 1) && Unexpired(w2, 2);
  }

  // Back-off

  lemma {:induction false} PowerGrows(m: nat, n: nat)
    requires m <= n
    ensures Power(m) <= Power(n)
    decreases n
  {
    if m < n { PowerGrows(m, n - 1); }
  }

  /** More failures in a row never wait less, and never more than the maximum. */
  lemma DelayGrows(o: Settings, m: nat, n: nat)
    requires m <= n
    ensures FailureDelay(o, m) <= FailureDelay(o, n) <= o.failureMax
  {
    var j, k := if m <= 1 then 0 else m - 1, if n <= 1 then 0 else n - 1;
    PowerGrows(j, k);
    assert o.failureBase * Power(j) <= o.failureBase * Power(k);
  }

  /** After the first failure, each further one doubles the delay up to the maximum. */
  lemma DelayDoubles(o: Settings, n: nat)
    requires n >= 1
    ensures FailureDelay(o, 1) == if o.failureBase <= o.failureMax then o.failureBase else o.failureMax
    ensures var doubled := 2 * FailureDelay(o, n);
      FailureDelay(o, n + 1) == if doubled <= o.failureMax then doubled else o.failureMax
  {
    assert Power(n) == 2 * Power(n - 1);
    assert o.failureBase * Power(n) == 2 * (o.failureBase * Power(n - 1));
  }

  /** Failing counts one failure more and waits that long; success and cancelling forget the wait, success the count. */
  lemma FinishBacksOff(o: Settings, c: Control, lease: LeaseId, now: Time)
    requires c.lease == Some(lease)
    ensures var failed := Finish(o, c, c.endpoint, lease, FailedRefresh, now);
      && failed.failureCount == c.failureCount + 1
      && now <= failed.nextEligibleAt == now + FailureDelay(o, failed.failureCount) <= now + o.failureMax
      && MayAcquire(failed, c.endpoint, false, now).Acquired? == (FailureDelay(o, failed.failureCount) == 0)
    ensures Finish(o, c, c.endpoint, lease, Succeeded, now).failureCount == 0
    ensures MayAcquire(Finish(o, c, c.endpoint, lease, Cancelled, now), c.endpoint, false, now).Acquired?
  {
    DelayGrows(o, c.failureCount + 1, c.failureCount + 1);
  }

  // When a lease is given, and when the next one is due

  /** Another endpoint, or an expired lease that is due; force skips the wait but not the lease. */
  predicate Free(c: Control, endpoint: string, force: bool, now: Time) {
    c.endpoint != endpoint || (c.leaseUntil <= now && (force || c.nextEligibleAt <= now))
  }

  /** A refresh is skipped for the lease of somebody else first, and for the wait only when it is not forced. */
  lemma SkipsBecause(c: Control, endpoint: string, force: bool, now: Time)
    ensures MayAcquire(c, endpoint, force, now).Acquired? <==> Free(c, endpoint, force, now)
    ensures MayAcquire(c, endpoint, force, now).LeaseHeld? <==> c.endpoint == endpoint && c.leaseUntil > now
    ensures MayAcquire(c, endpoint, force, now).NotDue? ==> !force && c.nextEligibleAt > now && c.leaseUntil <= now
  {
  }

  /** A lease that was never used is acquired exactly from a free file, for a fixed time; the rest of the file stays. */
  lemma AcquiresExactlyWhen(o: Settings, w: World, l: LeaseId, endpoint: string, force: bool)
    requires l !in w.used && w.control.lease != Some(l)
    ensures var c, w' := w.control, Step(o, w, Acquiring(l, endpoint, force));
      if Free(c, endpoint, force, w.clock)
      then && w'.holding == w.holding[l := Holding(endpoint, w.clock + o.lease)]
           && w'.control.endpoint == endpoint && w'.control.lease == Some(l) && w'.control.leaseUntil == w.clock + o.lease
           && (w'.control.nextEligibleAt, w'.control.failureCount)
              == (if c.endpoint == endpoint then (c.nextEligibleAt, c.failureCount) else (0, 0))
      else w' == w
  {
  }

  /** After a finish the endpoint waits exactly as long as the outcome says; a cancelled refresh keeps the failures. */
  lemma DueExactlyWhen(o: Settings, c: Control, lease: LeaseId, outcome: Outcome, now: Time, later: Time)
    requires c.lease == Some(lease)
    ensures var done := Finish(o, c, c.endpoint, lease, outcome, now);
      var wait := match outcome
        case Succeeded => o.success
        case FailedRefresh => FailureDelay(o, c.failureCount + 1)
        case Cancelled => 0;
      && done.lease == None && (Free(done, c.endpoint, false, later) <==> later >= now + wait)
      && Free(done, c.endpoint, true, later)
      && (outcome.Cancelled? ==> done.failureCount == c.failureCount)
  {
    hide FailureDelay;
  }

  /** Finishing changes the file exactly when it still carries the lease and its endpoint. */
  lemma FinishesExactlyWhen(o: Settings, w: World, l: LeaseId, outcome: Outcome)
    requires l in w.holding
    ensures var c, w' := w.control, Step(o, w, Finishing(l, outcome));
      && l !in w'.holding
      && if c.lease == Some(l) && c.endpoint == w.holding[l].endpoint
         then w'.control.lease == None && w'.control.leaseUntil == 0 && w'.effects == w.effects + [l]
         else w'.control == c && w'.effects == w.effects
  {
    hide FailureDelay;
  }
}
