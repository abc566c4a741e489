/**
 * Helpers from src/util/Extensions.cs: the closed-interval test that the
 * layout and clustering code is built on, and the radar altitude of a vessel.
 */
module Extensions {
  import opened Wrappers

  /** `x.In(a, b)`: true exactly when x lies in the closed interval [a, b]. */
  function In(x: int, a: int, b: int): (r: bool)
    ensures r <==> a <= x && x <= b
  {
    if x >= a && x <= b then true else false
  }

  /** Both ends of the interval belong to it. */
  lemma InClosed(a: int, b: int)
    requires a <= b
    ensures In(a, a, b) && In(b, a, b)
  {
  }

  /** A reversed interval is empty. */
  lemma InEmptyWhenReversed(x: int, a: int, b: int)
    requires a > b
    ensures !In(x, a, b)
  {
  }

  /** The part of a celestial body that the radar altitude looks at. */
  datatype CelestialBody = CelestialBody(ocean: bool)

  /**
   * Altitude over the surface below the vessel. Over a body with an ocean the
   * surface is the terrain when it lies above sea level and the sea otherwise;
   * without a main body the altitude is 0.
   */
  function RadarAltitude(mainBody: Option<CelestialBody>, altitude: real, terrainAltitude: real): (r: real)
    ensures mainBody.None? ==> r == 0.0
    ensures mainBody.Some? && mainBody.value.ocean ==>
              r <= altitude
              && (terrainAltitude >= 0.0 ==> r == altitude - terrainAltitude)
              && (terrainAltitude <= 0.0 ==> r == altitude)
    ensures mainBody.Some? && !mainBody.value.ocean ==> r == altitude - terrainAltitude
  {
    match mainBody
    case None => 0.0
    case Some(body) =>
      if body.ocean then
        Min(altitude - terrainAltitude, altitude)
      else
        altitude - terrainAltitude
  }

  function Min(a: real, b: real): real
  {
    if a <= b then a else b
  }
}
