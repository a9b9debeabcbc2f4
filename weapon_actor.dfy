/** The weapon actor itself: its fields and the operations that update them in place.
    Each state-changing method is proved to leave the fields exactly as the matching
    function of WeaponRules says, so every lemma about those functions holds of the actor. */
module WeaponActor {
  import opened WeaponTypes
  import opened WeaponRules

  class SWeapon {
    const baseDamage: real
    const bulletSpread: real   // degrees; the spread cone itself is not modelled
    const rateOfFire: real     // rounds per minute

    var timeBetweenShots: real
    var lastFireTime: real
    var hitScanTrace: HitScanTrace
    var currentAmmo: Int32
    var currentAmmoInClip: Int32
    var maxAmmoInClip: Int32
    var reloading: bool
    var reloadAllowed: bool
    var reloadTimer: Option<real>      // the reload-completion timer handle and its delay
    var fireTimer: Option<FireTimer>   // the cadence timer handle

    function Settings(): Config {
      Config(baseDamage, bulletSpread, rateOfFire)
    }

    /** The fields as a WeaponState value. */
    function State(): WeaponState
      reads this
    {
      WeaponState(currentAmmo as int, currentAmmoInClip as int, maxAmmoInClip as int,
                  reloading, reloadAllowed, reloadTimer, fireTimer,
                  lastFireTime, timeBetweenShots, hitScanTrace)
    }

    ghost predicate Valid()
      reads this
    {
      WeaponRules.Valid(State()) && ConfigValid(Settings())
    }

    /** Construction: the default settings, a full clip of 30 and 999 in reserve, reload
        allowed; the fields the constructor does not set start zeroed. */
    constructor ()
      ensures Valid()
      ensures State() == InitialState && Settings() == DefaultConfig
    {
      baseDamage := 20.0;
      bulletSpread := 2.0;
      rateOfFire := 600.0;
      currentAmmo := 999;
      currentAmmoInClip := 30;
      maxAmmoInClip := 30;
      reloadAllowed := true;
      reloading := false;
      lastFireTime := 0.0;
      timeBetweenShots := 0.0;
      hitScanTrace := HitScanTrace(Default, Origin);
      reloadTimer := None;
      fireTimer := None;
    }

    method BeginPlay()
      requires Valid()
      modifies this
      ensures Valid()
      ensures State() == WeaponRules.BeginPlay(old(State()), rateOfFire)
    {
      timeBetweenShots := TimeBetweenShots(rateOfFire);
    }

    /** `animDuration` is what the reload animation reports when it starts playing. */
    method ReloadWeapon(animDuration: real)
      requires Valid()
      modifies this
      ensures Valid()
      ensures State() == WeaponRules.ReloadWeapon(old(State()), animDuration)
    {
      if !reloadAllowed || !CanReload(currentAmmoInClip as int, maxAmmoInClip as int, currentAmmo as int) {
        return;
      }
      reloadAllowed := false;
      reloading := true;
      var delay := ReloadDelay(animDuration);
      reloadTimer := Some(delay);
    }

    /** Called when the reload-completion timer fires. */
    method StopReload()
      requires Valid()
      modifies this
      ensures Valid()
      ensures State() == WeaponRules.StopReload(old(State()))
    {
      var ammoToGive := AmmoToGive(currentAmmo as int, (maxAmmoInClip - currentAmmoInClip) as int) as Int32;
      currentAmmoInClip := currentAmmoInClip + ammoToGive;
      currentAmmo := currentAmmo - ammoToGive;
      reloading := false;
      reloadAllowed := true;
      reloadTimer := None;
    }

    /** The reserve, read without changing anything. */
    method GetCurrentAmmo() returns (ammo: Int32)
      ensures ammo as int == State().currentAmmo
    {
      ammo := currentAmmo;
    }

    /** The rounds in the clip, read without changing anything. */
    method GetCurrentAmmoInClip() returns (ammo: Int32)
      ensures ammo as int == State().currentAmmoInClip
    {
      ammo := currentAmmoInClip;
    }

    /** One fire attempt, from the cadence timer or from a forwarded server call. The
        wielder's running flag, the network role, the line trace's result, the ray's far
        end, the world clock and the reload animation's duration are inputs. */
    method Fire(wielderRunning: bool, authority: bool, shot: LineTrace, traceEnd: Vec, now: real,
                reloadAnimDuration: real) returns (outcome: FireOutcome)
      requires Valid()
      modifies this
      ensures Valid()
      ensures (State(), outcome)
           == WeaponRules.Fire(old(State()), baseDamage, wielderRunning, authority, shot, traceEnd, now, reloadAnimDuration)
    {
      if reloading || wielderRunning || currentAmmoInClip == 0 {
        return Blocked;
      }
      var forwardedToServer := !authority;
      var surface := Default;
      var tracerEnd := traceEnd;
      var damage := None;
      if shot.Hit? {
        surface := shot.surface;
        damage := Some(ActualDamage(baseDamage, surface));
        tracerEnd := shot.impactPoint;
      }
      currentAmmoInClip := currentAmmoInClip - 1;
      if currentAmmoInClip == 0 {
        ReloadWeapon(reloadAnimDuration);
      }
      if authority {
        hitScanTrace := HitScanTrace(surface, tracerEnd);
      }
      lastFireTime := now;
      outcome := Fired(forwardedToServer, damage, surface, tracerEnd);
    }

    /** Called on an observer when the replicated trace changes: replays the effects and
        changes nothing, so no damage is reapplied and no ammo is touched. */
    method OnRepHitScanTrace() returns (replay: Replay)
      ensures replay.tracerEnd == hitScanTrace.traceTo && replay.impactPoint == hitScanTrace.traceTo
      ensures replay.impactSurface == hitScanTrace.surfaceType
    {
      replay := ObserverReplay(hitScanTrace);
    }

    /** Trigger pressed at world time `now`. */
    method StartFire(now: real)
      requires Valid()
      modifies this
      ensures Valid()
      ensures State() == WeaponRules.StartFire(old(State()), now)
    {
      var firstDelay := FirstDelay(lastFireTime, timeBetweenShots, now);
      fireTimer := Some(FireTimer(firstDelay, timeBetweenShots));
    }

    /** Trigger released. */
    method StopFire()
      requires Valid()
      modifies this
      ensures Valid()
      ensures State() == WeaponRules.StopFire(old(State()))
    {
      fireTimer := None;
    }
  }
}
