/**
 * Geographic conversions shared by the aircraft entity and the live map:
 * the aircraft record, the map projection, the feet/degree conversions and
 * `Math.min`.
 */
module Geo {
  import opened Three

  /** Feet to metres. */
  const FEET_TO_METRES: real := 0.3048

  /** `THREE.MathUtils.DEG2RAD`, that is Math.PI / 180 as a double. Proofs use only that it is positive. */
  const DEG_TO_RAD: real := 0.017453292519943295

  /** One aircraft as the data feed reports it. */
  datatype AircraftRecord = AircraftRecord(hex: string, lat: real, lon: real, altitude: real, track: real)

  /** The planar coordinates `{x, y}` returned by `UnitsUtils.datumsToSpherical`. */
  datatype Planar = Planar(x: real, y: real)

  /** The map projection of geo-three, a foreign function: any total function of (lat, lon). */
  type Projector = (real, real) -> Planar

  /** `Math.min` on two numbers. */
  function Min(a: real, b: real): real
  {
    if a < b then a else b
  }

  /** `THREE.MathUtils.degToRad`. */
  function DegToRad(degrees: real): real
  {
    degrees * DEG_TO_RAD
  }

  /**
   * The world position of a record: the projected x, the altitude in metres
   * as height, and the projected y negated as z. Altitude is not clamped.
   */
  function ToPosition(project: Projector, aircraft: AircraftRecord): (p: Vector3)
    ensures Planar(p.x, -p.z) == project(aircraft.lat, aircraft.lon)
    ensures p.y / FEET_TO_METRES == aircraft.altitude
    ensures p.y < 0.0 <==> aircraft.altitude < 0.0
  {
    var coords := project(aircraft.lat, aircraft.lon);
    Vector3(coords.x, aircraft.altitude * FEET_TO_METRES, -coords.y)
  }

  /** The position depends on latitude, longitude and altitude alone: not on the hex or the track. */
  lemma PositionDependsOnlyOnFix(project: Projector, a: AircraftRecord, b: AircraftRecord)
    requires a.lat == b.lat && a.lon == b.lon && a.altitude == b.altitude
    ensures ToPosition(project, a) == ToPosition(project, b)
  {
  }
}
