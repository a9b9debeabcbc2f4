/** The weapon over time: every way the outside world can drive it (play beginning, the
    trigger, the cadence timer or a forwarded server call firing, a reload request, the
    reload timer elapsing) as an event, and what holds over any sequence of them. */
module WeaponRuns {
  import opened WeaponTypes
  import opened WeaponRules

  datatype Event =
    | Begin
    | TriggerPressed(now: real)
    | TriggerReleased
    | FireAttempt(wielderRunning: bool, authority: bool, shot: LineTrace, traceEnd: Vec, now: real, reloadAnimDuration: real)
    | ReloadRequested(animDuration: real)
    | ReloadTimerFired

  /** One event. The reload timer only fires when it is armed. */
  function Step(s: WeaponState, c: Config, e: Event): (t: WeaponState)
    requires ConfigValid(c)
    ensures Valid(s) ==> Valid(t)
  {
    match e
    case Begin => BeginPlay(s, c.rateOfFire)
    case TriggerPressed(now) => StartFire(s, now)
    case TriggerReleased => StopFire(s)
    case FireAttempt(running, authority, shot, traceEnd, now, d) =>
      Fire(s, c.baseDamage, running, authority, shot, traceEnd, now, d).0
    case ReloadRequested(d) => ReloadWeapon(s, d)
    case ReloadTimerFired => if s.reloadTimer.Some? then StopReload(s) else s
  }

  /** A sequence of events, in order. */
  function Run(s: WeaponState, c: Config, events: seq<Event>): WeaponState
    requires ConfigValid(c)
    decreases |events|
  {
    if events == [] then s else Run(Step(s, c, events[0]), c, events[1..])
  }

  /** The three ammo counters: reserve, clip, clip size. */
  function Counters(s: WeaponState): (int, int, int) {
    (s.currentAmmo, s.currentAmmoInClip, s.maxAmmoInClip)
  }

  /** Running two sequences one after the other is running their concatenation. */
  lemma {:induction false} RunAppend(s: WeaponState, c: Config, xs: seq<Event>, ys: seq<Event>)
    requires ConfigValid(c)
    ensures Run(s, c, xs + ys) == Run(Run(s, c, xs), c, ys)
    decreases |xs|
  {
    if xs == [] {
      assert xs + ys == ys;
    } else {
      assert (xs + ys)[0] == xs[0];
      assert (xs + ys)[1..] == xs[1..] + ys;
      RunAppend(Step(s, c, xs[0]), c, xs[1..], ys);
    }
  }

  /** The weapon's invariant holds after any sequence of events. */
  lemma {:induction false} RunPreservesValid(s: WeaponState, c: Config, events: seq<Event>)
    requires ConfigValid(c) && Valid(s)
    ensures Valid(Run(s, c, events))
    decreases |events|
  {
    if events != [] {
      RunPreservesValid(Step(s, c, events[0]), c, events[1..]);
    }
  }

  /** Every state a weapon with valid settings reaches from construction is valid. */
  lemma ReachableStatesValid(c: Config, events: seq<Event>)
    requires ConfigValid(c)
    ensures Valid(Run(InitialState, c, events))
  {
    RunPreservesValid(InitialState, c, events);
  }

  /** While a reload is in progress and its timer has not fired, nothing changes the ammo
      counters: firing is blocked and further reload requests are refused. */
  lemma {:induction false} ReloadFreezesCounters(s: WeaponState, c: Config, events: seq<Event>)
    requires ConfigValid(c) && Valid(s) && s.reloading
    requires ReloadTimerFired !in events
    ensures var t := Run(s, c, events);
      t.reloading && t.reloadTimer == s.reloadTimer && Counters(t) == Counters(s)
    decreases |events|
  {
    if events != [] {
      assert events[0] in events;
      var t := Step(s, c, events[0]);
      assert t.reloading && t.reloadTimer == s.reloadTimer && Counters(t) == Counters(s);
      assert forall e :: e in events[1..] ==> e in events;
      ReloadFreezesCounters(t, c, events[1..]);
    }
  }

  /** A reload request that is accepted, followed by any events and then the reload timer,
      leaves the clip full and takes exactly the deficit from the reserve. */
  lemma ReloadCycleFillsClip(s: WeaponState, c: Config, animDuration: real, events: seq<Event>)
    requires ConfigValid(c) && Valid(s)
    requires s.reloadAllowed && CanReload(s.currentAmmoInClip, s.maxAmmoInClip, s.currentAmmo)
    requires ReloadTimerFired !in events
    ensures var t := Run(s, c, [ReloadRequested(animDuration)] + events + [ReloadTimerFired]);
      && t.currentAmmoInClip == s.maxAmmoInClip
      && t.currentAmmo == s.currentAmmo - (s.maxAmmoInClip - s.currentAmmoInClip)
      && !t.reloading && t.reloadAllowed
  {
    var started := Step(s, c, ReloadRequested(animDuration));
    RunAppend(s, c, [ReloadRequested(animDuration)] + events, [ReloadTimerFired]);
    RunAppend(s, c, [ReloadRequested(animDuration)], events);
    assert Run(s, c, [ReloadRequested(animDuration)]) == started;
    ReloadFreezesCounters(started, c, events);
  }

  /** With the clip empty and less than a whole clip in reserve, the weapon can never fire
      or reload again: no sequence of events changes any counter. */
  lemma {:induction false} EmptyClipShortReserveIsStuck(s: WeaponState, c: Config, events: seq<Event>)
    requires ConfigValid(c) && Valid(s)
    requires s.currentAmmoInClip == 0 && s.currentAmmo < s.maxAmmoInClip
    ensures Counters(Run(s, c, events)) == Counters(s)
    decreases |events|
  {
    if events != [] {
      var t := Step(s, c, events[0]);
      assert Counters(t) == Counters(s);
      EmptyClipShortReserveIsStuck(t, c, events[1..]);
    }
  }

  /** The last round of a 30-round clip fired with 10 in reserve: the clip is empty, the
      automatic reload is refused because 10 cannot cover the deficit of 30, and the weapon
      stays at an empty clip with 10 in reserve whatever happens next. */
  lemma LastRoundWithShortReserve(c: Config, authority: bool, shot: LineTrace, traceEnd: Vec, now: real,
                                  reloadAnimDuration: real)
    requires ConfigValid(c)
    ensures var s := InitialState.(currentAmmoInClip := 1, currentAmmo := 10);
      var t := Step(s, c, FireAttempt(false, authority, shot, traceEnd, now, reloadAnimDuration));
      && Counters(t) == (10, 0, 30) && !t.reloading
      && forall events :: Counters(Run(t, c, events)) == (10, 0, 30)
  {
    var s := InitialState.(currentAmmoInClip := 1, currentAmmo := 10);
    var t := Step(s, c, FireAttempt(false, authority, shot, traceEnd, now, reloadAnimDuration));
    forall events
      ensures Counters(Run(t, c, events)) == (10, 0, 30)
    {
      EmptyClipShortReserveIsStuck(t, c, events);
    }
  }

  /** Completing a reload directly: a reserve of 5 fills a 25/30 clip and empties; a reserve
      of 2 only brings it to 27. Through a reload request the second case never gets that
      far: 2 cannot cover the deficit of 5, so the request is refused. */
  lemma StopReloadExamples()
    ensures var s := InitialState.(currentAmmoInClip := 25, currentAmmo := 5);
      Counters(StopReload(s)) == (0, 30, 30)
    ensures var s := InitialState.(currentAmmoInClip := 25, currentAmmo := 2);
      Counters(StopReload(s)) == (0, 27, 30) && ReloadWeapon(s, 1.0) == s
  {
  }

  /** At 600 rounds per minute the interval is a tenth of a second; pressing the trigger at
      time 0 after a last shot at time -1 fires at once. A hit on vulnerable flesh with the
      default 20 base damage deals 80. */
  lemma DefaultCadenceAndDamage()
    ensures TimeBetweenShots(600.0) == 0.1
    ensures FirstDelay(-1.0, 0.1, 0.0) == 0.0
    ensures ActualDamage(DefaultConfig.baseDamage, FleshVulnerable) == 80.0
  {
  }
}
