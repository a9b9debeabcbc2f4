/** Value types of the hitscan weapon: the integer width of its ammo counters, the
    surface kinds a shot can report, world-space points, the replicated trace record,
    the cadence timer and the outcome of the world line trace. */
module WeaponTypes {

  /** A signed 32-bit integer, the width of the ammo counters. */
  newtype Int32 = x: int | -0x8000_0000 <= x < 0x8000_0000

  datatype Option<T> = None | Some(value: T)

  /** The physical surface classes the weapon tells apart. `Default` is also what a
      shot that hits nothing reports. */
  datatype Surface = Default | FleshDefault | FleshVulnerable | OtherSurface

  /** A point in world space. */
  datatype Vec = Vec(x: real, y: real, z: real)

  const Origin := Vec(0.0, 0.0, 0.0)

  /** The replicated record of the most recent shot: exactly a surface kind and an end point. */
  datatype HitScanTrace = HitScanTrace(surfaceType: Surface, traceTo: Vec)

  /** What the world line trace reported for one shot. The aim, the spread cone and the
      physics query are not modelled; their result is an input. */
  datatype LineTrace = Miss | Hit(impactPoint: Vec, surface: Surface)

  /** The repeating cadence timer: first tick after `firstDelay`, then every `period`. */
  datatype FireTimer = FireTimer(firstDelay: real, period: real)
}
