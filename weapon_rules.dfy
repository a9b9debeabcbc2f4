/** The weapon's fire-control and ammo state machine as pure functions on a state value.
    Each function is one operation of the weapon; the class in module WeaponActor is
    proved to change its fields exactly as these functions say. */
module WeaponRules {
  import opened WeaponTypes

  /** The designer-set properties no operation changes. */
  datatype Config = Config(baseDamage: real, bulletSpread: real, rateOfFire: real)

  /** Defaults set by the weapon's constructor: 20 damage, 2 degrees of spread, 600 rounds per minute. */
  const DefaultConfig := Config(20.0, 2.0, 600.0)

  /** The spread is clamped at zero in the editor; a rate of fire of zero or less would make
      the shot interval infinite or negative, which is not modelled. */
  predicate ConfigValid(c: Config) {
    c.bulletSpread >= 0.0 && c.rateOfFire > 0.0
  }

  /** Everything the weapon's operations read and write. The two timer slots stand for the
      engine's timer handles: `reloadTimer` holds the delay the reload-completion timer was
      armed with, `fireTimer` the cadence timer. */
  datatype WeaponState = WeaponState(
    currentAmmo: int,         // reserve
    currentAmmoInClip: int,
    maxAmmoInClip: int,
    reloading: bool,
    reloadAllowed: bool,      // false while a reload is in progress
    reloadTimer: Option<real>,
    fireTimer: Option<FireTimer>,
    lastFireTime: real,
    timeBetweenShots: real,
    hitScanTrace: HitScanTrace)

  /** The state right after construction: a full clip of 30 and 999 in reserve. Fields the
      constructor leaves alone start zeroed. */
  const InitialState := WeaponState(999, 30, 30, false, true, None, None, 0.0, 0.0, HitScanTrace(Default, Origin))

  /** The weapon's invariant: the counters are in range, the two reload flags and the
      reload timer agree, and a reload in progress is one whose whole deficit the reserve covers. */
  ghost predicate Valid(s: WeaponState) {
    && 0 <= s.currentAmmoInClip <= s.maxAmmoInClip
    && 0 <= s.currentAmmo
    && s.reloadAllowed == !s.reloading
    && s.reloadTimer.Some? == s.reloading
    && (s.reloadTimer.Some? ==> s.reloadTimer.value > 0.0)
    && (s.reloading ==> 0 < s.maxAmmoInClip - s.currentAmmoInClip <= s.currentAmmo)
  }

  /** Reload eligibility: the clip is not full and the reserve covers the WHOLE deficit;
      a reserve that could only partly refill the clip refuses the reload. */
  function CanReload(clip: int, maxClip: int, reserve: int): (b: bool)
    ensures clip == maxClip ==> !b
    ensures reserve < maxClip - clip ==> !b
    ensures 0 <= clip <= maxClip ==> (b <==> 0 < maxClip - clip <= reserve)
  {
    var ammoCountToReload := maxClip - clip;
    var isFullAmmoInClip := ammoCountToReload == 0;
    var isAmmoToReload := ammoCountToReload <= reserve;
    !isFullAmmoInClip && isAmmoToReload
  }

  /** The delay the reload-completion timer is armed with: the reload animation's reported
      duration, or 1.5 when the animation reports none. */
  function ReloadDelay(animDuration: real): (d: real)
    ensures d > 0.0
    ensures animDuration > 0.0 ==> d == animDuration
    ensures animDuration <= 0.0 ==> d == 1.5
  {
    if animDuration <= 0.0 then 1.5 else animDuration
  }

  /** The amount a completed reload moves: the smaller of the reserve and the deficit. */
  function AmmoToGive(reserve: int, deficit: int): (g: int)
    ensures g <= reserve && g <= deficit
    ensures g == reserve || g == deficit
  {
    if reserve <= deficit then reserve else deficit
  }

  /** Start a reload: refused (nothing changes) while one is in progress or when the
      reserve cannot fill the clip; otherwise it locks out further reloads and arms the
      completion timer, leaving every counter as it was. */
  function ReloadWeapon(s: WeaponState, animDuration: real): (t: WeaponState)
    ensures !s.reloadAllowed || !CanReload(s.currentAmmoInClip, s.maxAmmoInClip, s.currentAmmo) ==> t == s
    ensures t.currentAmmo == s.currentAmmo && t.currentAmmoInClip == s.currentAmmoInClip
    ensures t.maxAmmoInClip == s.maxAmmoInClip
    ensures t.reloading <==> s.reloading || (s.reloadAllowed && CanReload(s.currentAmmoInClip, s.maxAmmoInClip, s.currentAmmo))
    ensures s.reloadAllowed && CanReload(s.currentAmmoInClip, s.maxAmmoInClip, s.currentAmmo) ==>
      t.reloading && !t.reloadAllowed && t.reloadTimer == Some(ReloadDelay(animDuration))
    ensures t.(reloading := s.reloading, reloadAllowed := s.reloadAllowed, reloadTimer := s.reloadTimer) == s
    ensures Valid(s) ==> Valid(t)
  {
    if !s.reloadAllowed || !CanReload(s.currentAmmoInClip, s.maxAmmoInClip, s.currentAmmo) then s
    else s.(reloadAllowed := false, reloading := true, reloadTimer := Some(ReloadDelay(animDuration)))
  }

  /** Complete a reload (the one-shot completion timer has fired): move ammo from the
      reserve into the clip until the clip is full or the reserve is empty, then return
      to the ready state. */
  function StopReload(s: WeaponState): (t: WeaponState)
    ensures t.currentAmmoInClip + t.currentAmmo == s.currentAmmoInClip + s.currentAmmo
    ensures t.currentAmmoInClip == s.maxAmmoInClip || t.currentAmmo == 0
    ensures s.currentAmmoInClip <= s.maxAmmoInClip ==> t.currentAmmoInClip <= t.maxAmmoInClip
    ensures 0 <= s.currentAmmo ==> 0 <= t.currentAmmo
    ensures !t.reloading && t.reloadAllowed && t.reloadTimer == None
    ensures t.(currentAmmo := s.currentAmmo, currentAmmoInClip := s.currentAmmoInClip,
               reloading := s.reloading, reloadAllowed := s.reloadAllowed, reloadTimer := s.reloadTimer) == s
    ensures Valid(s) ==> Valid(t) && s.currentAmmoInClip <= t.currentAmmoInClip
    ensures Valid(s) && s.reloading ==> t.currentAmmoInClip == s.maxAmmoInClip
  {
    var ammoToGive := AmmoToGive(s.currentAmmo, s.maxAmmoInClip - s.currentAmmoInClip);
    s.(currentAmmoInClip := s.currentAmmoInClip + ammoToGive,
       currentAmmo := s.currentAmmo - ammoToGive,
       reloading := false,
       reloadAllowed := true,
       reloadTimer := None)
  }

  /** The shot interval derived from a rate of fire in rounds per minute. */
  function TimeBetweenShots(rateOfFire: real): (t: real)
    requires rateOfFire > 0.0
    ensures t > 0.0
    ensures t * rateOfFire == 60.0
  {
    60.0 / rateOfFire
  }

  /** Play begins: the shot interval is derived from the rate of fire; nothing else changes. */
  function BeginPlay(s: WeaponState, rateOfFire: real): (t: WeaponState)
    requires rateOfFire > 0.0
    ensures t.timeBetweenShots * rateOfFire == 60.0
    ensures t.(timeBetweenShots := s.timeBetweenShots) == s
  {
    s.(timeBetweenShots := TimeBetweenShots(rateOfFire))
  }

  /** The delay before the first shot when the trigger is pressed: never negative, never
      lets a shot come earlier than one interval after the last, and no longer than needed. */
  function FirstDelay(lastFireTime: real, timeBetweenShots: real, now: real): (d: real)
    ensures d >= 0.0
    ensures now + d >= lastFireTime + timeBetweenShots
    ensures d == 0.0 || now + d == lastFireTime + timeBetweenShots
    ensures lastFireTime + timeBetweenShots <= now ==> d == 0.0
  {
    var wait := lastFireTime + timeBetweenShots - now;
    if wait >= 0.0 then wait else 0.0
  }

  /** Trigger pressed: (re)arm the single cadence timer; a second press replaces the timer
      rather than adding one. Nothing else changes. */
  function StartFire(s: WeaponState, now: real): (t: WeaponState)
    ensures t.fireTimer == Some(FireTimer(FirstDelay(s.lastFireTime, s.timeBetweenShots, now), s.timeBetweenShots))
    ensures t.fireTimer.value.firstDelay >= 0.0
    ensures now + t.fireTimer.value.firstDelay >= s.lastFireTime + s.timeBetweenShots
    ensures t.(fireTimer := s.fireTimer) == s
  {
    s.(fireTimer := Some(FireTimer(FirstDelay(s.lastFireTime, s.timeBetweenShots, now), s.timeBetweenShots)))
  }

  /** Trigger released: cancel the cadence timer; nothing else changes. */
  function StopFire(s: WeaponState): (t: WeaponState)
    ensures t.fireTimer == None
    ensures t.(fireTimer := s.fireTimer) == s
  {
    s.(fireTimer := None)
  }

  /** Damage a hit deals: four times the base damage on vulnerable flesh, the base damage on
      any other surface. */
  function ActualDamage(baseDamage: real, surface: Surface): (d: real)
    ensures surface == FleshVulnerable ==> d == 4.0 * baseDamage
    ensures surface != FleshVulnerable ==> d == baseDamage
    ensures baseDamage >= 0.0 ==> baseDamage <= d <= 4.0 * baseDamage
  {
    var damage := baseDamage;
    if surface == FleshVulnerable then damage * 4.0 else damage
  }

  /** What one fire attempt did outside the state: nothing, or a shot that forwarded the
      request to the server (when not the authority), dealt damage (when it hit), and
      played its effects with the given surface and tracer end point. */
  datatype FireOutcome =
    | Blocked
    | Fired(forwardedToServer: bool, damage: Option<real>, surface: Surface, tracerEnd: Vec)

  /** The three conditions under which a fire attempt does nothing. */
  predicate FireBlocked(s: WeaponState, wielderRunning: bool) {
    s.reloading || wielderRunning || s.currentAmmoInClip == 0
  }

  /** One fire attempt. `shot` is what the line trace reported, `traceEnd` the far end of
      the ray, `now` the world clock and `reloadAnimDuration` the duration the reload
      animation would report if the shot empties the clip and starts a reload. */
  function Fire(s: WeaponState, baseDamage: real, wielderRunning: bool, authority: bool,
                shot: LineTrace, traceEnd: Vec, now: real, reloadAnimDuration: real): (r: (WeaponState, FireOutcome))
    ensures FireBlocked(s, wielderRunning) ==> r == (s, Blocked)
    ensures !FireBlocked(s, wielderRunning) ==>
      var (t, out) := r;
      && out.Fired?
      && out.forwardedToServer == !authority
      && t.currentAmmoInClip == s.currentAmmoInClip - 1
      && t.currentAmmo == s.currentAmmo && t.maxAmmoInClip == s.maxAmmoInClip
      && t.lastFireTime == now
      && t.fireTimer == s.fireTimer && t.timeBetweenShots == s.timeBetweenShots
      && (t.currentAmmoInClip != 0 ==> !t.reloading && t.reloadTimer == s.reloadTimer)
      && (authority ==> t.hitScanTrace == HitScanTrace(out.surface, out.tracerEnd))
      && (!authority ==> t.hitScanTrace == s.hitScanTrace)
      && (shot.Miss? ==> out.damage == None && out.surface == Default && out.tracerEnd == traceEnd)
      && (shot.Hit? ==> out.damage == Some(ActualDamage(baseDamage, shot.surface))
                        && out.surface == shot.surface && out.tracerEnd == shot.impactPoint)
    ensures !FireBlocked(s, wielderRunning) && s.currentAmmoInClip == 1 ==>
      r.0.(hitScanTrace := s.hitScanTrace, lastFireTime := s.lastFireTime)
        == ReloadWeapon(s.(currentAmmoInClip := 0), reloadAnimDuration)
    ensures Valid(s) && !FireBlocked(s, wielderRunning) ==>
      (r.0.reloading <==> s.currentAmmoInClip == 1 && s.maxAmmoInClip <= s.currentAmmo)
    ensures Valid(s) ==> Valid(r.0)
  {
    if s.reloading || wielderRunning || s.currentAmmoInClip == 0 then (s, Blocked)
    else
      var surface := if shot.Hit? then shot.surface else Default;
      var tracerEnd := if shot.Hit? then shot.impactPoint else traceEnd;
      var damage := if shot.Hit? then Some(ActualDamage(baseDamage, surface)) else None;
      var fired := s.(currentAmmoInClip := s.currentAmmoInClip - 1);
      var reloaded := if fired.currentAmmoInClip == 0 then ReloadWeapon(fired, reloadAnimDuration) else fired;
      var traced := if authority then reloaded.(hitScanTrace := HitScanTrace(surface, tracerEnd)) else reloaded;
      (traced.(lastFireTime := now), Fired(!authority, damage, surface, tracerEnd))
  }

  /** The effects an observer replays when the replicated trace changes: the fire effect
      toward the trace's end point and the impact effect for its surface at that point. */
  datatype Replay = Replay(tracerEnd: Vec, impactSurface: Surface, impactPoint: Vec)

  function ObserverReplay(trace: HitScanTrace): Replay {
    Replay(trace.traceTo, trace.surfaceType, trace.traceTo)
  }

  /** On a hit, what observers replay from a shot the authority fired is the shot the
      authority played: the same tracer end point, and the impact effect for the same
      surface at the same impact point. */
  lemma ObserversReplayAuthorityHit(s: WeaponState, baseDamage: real, impactPoint: Vec, surface: Surface,
                                    traceEnd: Vec, now: real, reloadAnimDuration: real)
    requires !FireBlocked(s, false)
    ensures var (t, out) := Fire(s, baseDamage, false, true, Hit(impactPoint, surface), traceEnd, now, reloadAnimDuration);
      && ObserverReplay(t.hitScanTrace) == Replay(out.tracerEnd, out.surface, impactPoint)
      && out.tracerEnd == impactPoint && out.surface == surface && out.damage.Some?
  {
  }

  /** On a miss the replay differs from what the authority played: the authority plays no
      impact effect and deals no damage, but observers replay an impact effect for the
      default surface at the far end of the ray. */
  lemma ObserversReplayImpactOnMiss(s: WeaponState, baseDamage: real, traceEnd: Vec, now: real,
                                    reloadAnimDuration: real)
    requires !FireBlocked(s, false)
    ensures var (t, out) := Fire(s, baseDamage, false, true, Miss, traceEnd, now, reloadAnimDuration);
      && out.damage == None && out.tracerEnd == traceEnd
      && ObserverReplay(t.hitScanTrace) == Replay(traceEnd, Default, traceEnd)
  {
  }

  /** A second reload request before the first completes has no effect. */
  lemma ReloadTwiceIsOnce(s: WeaponState, d1: real, d2: real)
    ensures ReloadWeapon(ReloadWeapon(s, d1), d2) == ReloadWeapon(s, d1)
  {
  }

  /** Pressing the trigger again replaces the cadence timer: the result is that of the
      last press alone, so the timer is never scheduled twice. */
  lemma StartFireTwiceIsLast(s: WeaponState, t1: real, t2: real)
    ensures StartFire(StartFire(s, t1), t2) == StartFire(s, t2)
  {
  }

  /** Releasing the trigger is idempotent and does nothing when no cadence timer is armed. */
  lemma StopFireIdempotent(s: WeaponState)
    ensures StopFire(StopFire(s)) == StopFire(s)
    ensures s.fireTimer == None ==> StopFire(s) == s
  {
  }
}
