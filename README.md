# Hitscan weapon: ammo, reload and fire-gating state machine

This project models the core of the `ASWeapon` hitscan weapon: its ammo counters (reserve
`CurrentAmmo`, clip `CurrentAmmoInClip`, clip size `MaxAmmoInClip`), the two reload flags
(`bReloading`, and `bCanReloading`, which locks out a second reload), reload eligibility,
start and completion, the gated `Fire` (ammo decrement, automatic reload on an empty clip,
and a replicated trace written only on the authority), the shot cadence
(`TimeBetweenShots`, `StartFire`'s first-delay clamp, `StopFire`), and the damage multiplier.

Files:

- `weapon_types.dfy` (module `WeaponTypes`): the value types. These are the 32-bit counter
  width, surface kinds, points, the replicated `FHitScanTrace` record, the line-trace result
  and the cadence timer.
- `weapon_rules.dfy` (module `WeaponRules`): one pure function per operation on a
  `WeaponState` value, plus the weapon invariant `Valid`. Each function's contract states what
  the operation promises.
- `weapon_runs.dfy` (module `WeaponRuns`): the operations as events and `Run` over any
  sequence of them. It holds the lemmas that span several calls: the invariant holds for
  every reachable state; nothing touches the counters while a reload is pending; a completed
  reload fills the clip; an empty clip with a short reserve is stuck for good.
- `weapon_actor.dfy` (module `WeaponActor`): the class `SWeapon`. Its fields are the actor's
  fields. Each method changes them in place exactly as the matching `WeaponRules` function
  says (`State() == WeaponRules.X(old(State()), …)`) and keeps `Valid()`.

The engine's timers are explicit state. `reloadTimer` is the reload-completion timer handle
together with the delay it was armed with. `fireTimer` is the cadence timer.
`WeaponRuns.Step` fires the reload timer only when it is armed. Several other things are
inputs to `Fire`: the wielder's "is running" flag, the network role (`authority`), the line
trace's result (miss, or hit point and surface), the ray's far end, the world clock and the
reload animation's duration.

Naming: `reloading` is the source's `bReloading`, and `reloadAllowed` is its
`bCanReloading`. Two fields are not set in the constructor: `bReloading` and `LastFireTime`.
Neither is `HitScanTrace`, nor `TimeBetweenShots` before `BeginPlay`. The actor's memory
starts zeroed, so these start as false, 0, the default surface at the origin, and 0.

Behaviour of the code that is easy to misread:

- **Reload policy.** Reload needs the whole clip deficit in reserve (`SWeapon.cpp:80-85`).
  With a clip of 1/30 and 10 in reserve, one `Fire` empties the clip. The automatic reload is
  then refused, so the clip does not become 10. From that point no event changes any counter
  (`WeaponRuns.LastRoundWithShortReserve`, `WeaponRuns.EmptyClipShortReserveIsStuck`). The
  `min` in `StopReload` only matters for a direct call. After an accepted reload the reserve
  always covers the deficit (`WeaponRuns.ReloadCycleFillsClip`).
- **Rate of fire.** It is a float (`SWeapon.h:86-88`), so the interval is a real division
  (600 gives 0.1).
- **Re-pressing the trigger.** `StartFire` re-arms the one cadence timer every time. It
  replaces the timer rather than adding one (`WeaponRules.StartFireTwiceIsLast`).
- **Non-authority `Fire`.** It forwards the request to the server and then goes on locally.
  It decrements its own clip and may start its own reload, but does not write the trace.
- **Observer replay on a miss.** The authority plays the impact effect only when the shot
  hits (`SWeapon.cpp:183-200`). Observers replay an impact effect from the replicated trace
  on every shot (`SWeapon.cpp:227-231`). So on a miss they show a default-surface impact at
  the far end of the ray that the authority never played (`WeaponRules.ObserversReplayImpactOnMiss`).

## Model

| member | source | states |
|---|---|---|
| `WeaponRules.CanReload` | Source/CoopGame/Private/SWeapon.cpp:78-86 | a full clip never reloads, whatever the reserve; a reserve smaller than the deficit never reloads; for an in-range clip, reload is allowed iff 0 < deficit <= reserve |
| `WeaponRules.ReloadDelay` | Source/CoopGame/Private/SWeapon.cpp:96-100 | the completion delay is always positive: the animation's duration when positive, else 1.5 |
| `WeaponRules.ReloadWeapon` | Source/CoopGame/Private/SWeapon.cpp:88-108 | refused (state unchanged) when a reload is locked out or not eligible; never changes a counter; when allowed and eligible sets reloading, clears the lock and arms the timer with `ReloadDelay`; touches nothing but the two flags and the timer; preserves the invariant |
| `WeaponRules.AmmoToGive` | Source/CoopGame/Private/SWeapon.cpp:113 | the amount moved is at most the reserve and at most the deficit, and equals one of them |
| `WeaponRules.StopReload` | Source/CoopGame/Private/SWeapon.cpp:110-120 | clip + reserve is preserved; afterwards the clip is full or the reserve is empty; the clip stays within its size and the reserve non-negative; the flags return to not-reloading and reload-allowed; the clip size and other fields are untouched; a reload pending in a valid state ends with a full clip |
| `WeaponRules.TimeBetweenShots` | Source/CoopGame/Public/SWeapon.h:86-95 | the interval is positive and `RateOfFire` intervals make exactly 60 seconds |
| `WeaponRules.BeginPlay` | Source/CoopGame/Private/SWeapon.cpp:134-139 | play start sets the interval so that interval × rate = 60 and changes nothing else |
| `WeaponRules.FirstDelay` | Source/CoopGame/Private/SWeapon.cpp:246 | the first delay is never negative; the first shot never comes earlier than one interval after the last; it is either 0 or exactly when that interval ends; it is 0 once a full interval has elapsed |
| `WeaponRules.StartFire` | Source/CoopGame/Private/SWeapon.cpp:244-249 | arms the cadence timer with period `TimeBetweenShots` and first delay exactly `FirstDelay` of the last shot time, the interval and now (so non-negative, as soon as the interval allows, and 0 once it has elapsed); nothing else changes |
| `WeaponRules.StopFire` | Source/CoopGame/Private/SWeapon.cpp:251-254 | the cadence timer is cleared and nothing else changes |
| `WeaponRules.ActualDamage` | Source/CoopGame/Private/SWeapon.cpp:189-193 | vulnerable flesh takes 4 × base damage, every other surface the base damage; for non-negative base damage the result lies between the base damage and four times it |
| `WeaponRules.Fire` | Source/CoopGame/Private/SWeapon.cpp:141-224 | blocked (state unchanged, nothing fired) while reloading, while the wielder runs, or on an empty clip. Otherwise: forwards to the server iff not authority; the clip drops by exactly 1; reserve and clip size are unchanged; `LastFireTime` becomes now; the trace is written iff authority, with the shot's surface and tracer end; a miss deals no damage and ends at the ray's far end; a hit deals `ActualDamage` and ends at the impact point. Firing the last round then behaves exactly as `ReloadWeapon` on the emptied clip with the animation's duration, apart from the trace and `LastFireTime`; in a valid state a reload starts iff this was the last round and the reserve covers a whole clip. The invariant is preserved |
| `WeaponRules.ObserversReplayAuthorityHit` | Source/CoopGame/Private/SWeapon.cpp:227-231 | on a hit, observers replay exactly the authority's shot: its tracer end, and the impact effect for its surface at its impact point |
| `WeaponRules.ObserversReplayImpactOnMiss` | Source/CoopGame/Private/SWeapon.cpp:227-231 | on a miss the authority deals no damage and plays no impact effect, yet observers replay a default-surface impact effect at the ray's far end |
| `WeaponRules.ReloadTwiceIsOnce` | Source/CoopGame/Private/SWeapon.cpp:90-94 | a second reload request before completion has no effect |
| `WeaponRules.StartFireTwiceIsLast` | Source/CoopGame/Private/SWeapon.cpp:248 | re-pressing the trigger replaces the cadence timer; it is never scheduled twice |
| `WeaponRules.StopFireIdempotent` | Source/CoopGame/Private/SWeapon.cpp:253 | releasing the trigger twice is the same as once, and releasing it while idle changes nothing |
| `WeaponRuns.Step` | Source/CoopGame/Public/SWeapon.h:100-107 | every operation, and the reload timer firing, preserves the invariant 0 <= clip <= size, reserve >= 0, coherent reload flags |
| `WeaponRuns.RunPreservesValid` | Source/CoopGame/Public/SWeapon.h:100-107 | the invariant holds after any sequence of operations |
| `WeaponRuns.ReachableStatesValid` | Source/CoopGame/Private/SWeapon.cpp:41-45 | every state reached from the constructed weapon satisfies the invariant |
| `WeaponRuns.ReloadFreezesCounters` | Source/CoopGame/Private/SWeapon.cpp:146-147 | while a reload is pending, no event except the reload timer changes a counter, the reloading flag or the armed timer |
| `WeaponRuns.ReloadCycleFillsClip` | Source/CoopGame/Private/SWeapon.cpp:110-118 | an accepted reload, then any events, then the timer, leaves the clip full, takes exactly the deficit from the reserve, and returns to ready |
| `WeaponRuns.EmptyClipShortReserveIsStuck` | Source/CoopGame/Private/SWeapon.cpp:80-85 | with an empty clip and less than a whole clip in reserve, no sequence of events changes any counter |
| `WeaponRuns.LastRoundWithShortReserve` | Source/CoopGame/Private/SWeapon.cpp:209-213 | firing the last round of a 30-round clip with 10 in reserve leaves clip 0 and reserve 10 without a reload, and they stay so forever |
| `WeaponRuns.StopReloadExamples` | Source/CoopGame/Private/SWeapon.cpp:113-115 | completion with reserve 5 on 25/30 gives 30/30 and reserve 0; with reserve 2 it gives 27 and reserve 0, and a reload request in that state is refused |
| `WeaponRuns.DefaultCadenceAndDamage` | Source/CoopGame/Private/SWeapon.cpp:32-34 | 600 rounds per minute gives 0.1; a trigger press at 0 after a shot at -1 fires at once; 20 base damage on vulnerable flesh deals 80 |
| `WeaponActor.SWeapon.constructor` | Source/CoopGame/Private/SWeapon.cpp:24-46 | the new weapon has clip 30/30, reserve 999, reload allowed, 20 base damage, 2 degrees of spread, 600 rounds per minute, and satisfies the invariant |
| `WeaponActor.SWeapon.BeginPlay` | Source/CoopGame/Private/SWeapon.cpp:134-139 | the fields change as `WeaponRules.BeginPlay` says; the invariant is kept |
| `WeaponActor.SWeapon.ReloadWeapon` | Source/CoopGame/Private/SWeapon.cpp:88-108 | the fields change as `WeaponRules.ReloadWeapon` says; the invariant is kept |
| `WeaponActor.SWeapon.StopReload` | Source/CoopGame/Private/SWeapon.cpp:110-120 | the fields change as `WeaponRules.StopReload` says, with no 32-bit overflow; the invariant is kept |
| `WeaponActor.SWeapon.GetCurrentAmmo` | Source/CoopGame/Private/SWeapon.cpp:123-126 | returns the reserve and modifies nothing |
| `WeaponActor.SWeapon.GetCurrentAmmoInClip` | Source/CoopGame/Private/SWeapon.cpp:129-132 | returns the clip count and modifies nothing |
| `WeaponActor.SWeapon.Fire` | Source/CoopGame/Private/SWeapon.cpp:141-224 | the fields and the returned outcome are those of `WeaponRules.Fire`, including the nested automatic `ReloadWeapon`, with no 32-bit overflow; the invariant is kept |
| `WeaponActor.SWeapon.OnRepHitScanTrace` | Source/CoopGame/Private/SWeapon.cpp:227-231 | an observer replays the fire effect and the impact effect at the replicated end point with the replicated surface, and modifies nothing (no damage, no ammo change) |
| `WeaponActor.SWeapon.StartFire` | Source/CoopGame/Private/SWeapon.cpp:244-249 | the fields change as `WeaponRules.StartFire` says; the invariant is kept |
| `WeaponActor.SWeapon.StopFire` | Source/CoopGame/Private/SWeapon.cpp:251-254 | the fields change as `WeaponRules.StopFire` says; the invariant is kept |

## Left out

- Visual and audio effects are not modelled: `PlayFireEffects`, `PlayImpactEffects` (including
  its choice of flesh or default impact effect), `PlayWeaponSound`, camera shake, debug lines
  and the console variable. They are engine calls whose results the weapon never reads back.
  `Fire` reports the surface and tracer end it would play them with.
- Shot geometry is not modelled: the eye viewpoint, the `BulletSpread` cone and the line
  trace. These are random vector math and physics queries. Their result is an input to
  `Fire`, and `BulletSpread` is kept only as a non-negative setting.
- Damage delivery (`ApplyPointDamage`) is a foreign call. The model reports only the amount
  chosen. A non-authority instance reports it too, because its code makes the same call.
- `PlayWeaponAnimation` and `StopWeaponAnimation` are animation glue. The reported duration is
  a parameter. `StopWeaponAnimation` reads a `MyPawn` member that is never assigned.
- The engine's timer manager is not modelled as a clock. The model records what is armed.
  The timer firing is an event supplied by the caller. The model does not enforce that
  cadence ticks arrive exactly `period` apart, or that the world clock passed as `now` never
  goes backwards.
- The RPC and replication transport are not modelled: `ServerFire` forwarding and its
  always-true validation, `GetLifetimeReplicatedProps` with its skip-owner condition, and the
  quantisation of the replicated end point. `Fire` records whether it forwarded. The network
  role is a boolean.
- Floating point: times, the rate of fire and damage are Dafny reals, with no IEEE rounding.
  A rate of fire of zero or less would give an infinite or negative interval, so it is
  excluded by `ConfigValid`.
- The null-owner path is not modelled. `Fire` dereferences the character before checking the
  owner, so a wielder is taken to exist.
- `WeaponActor.SWeapon.StopReload` requires the weapon invariant, which the source never
  checks. The pure `WeaponRules.StopReload` has no precondition. The method is only called by
  the reload timer, in a valid state, and the invariant is what makes its 32-bit arithmetic
  safe. Every other `SWeapon` method likewise requires and keeps `Valid()`.
- Designer-edited defaults are not modelled: the class has only the source's default
  constructor. The pure lemmas hold for every valid state, whatever the settings.
