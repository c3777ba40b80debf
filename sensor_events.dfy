/** The sensor samples the platform delivers and the identities of the listeners
    they are fanned out to. */
module SensorEvents {

  /** The `Sensor.TYPE_*` kinds the tracker distinguishes; every other kind is `OtherSensor`. */
  datatype SensorType =
    | Accelerometer
    | Gyroscope
    | GyroscopeUncalibrated
    | MagneticField
    | OtherSensor

  /** A `SensorEvent`: the sensor kind, its values (3, or 6 for an uncalibrated
      gyroscope, whose last three are the system's bias estimate) and the hardware
      timestamp in nanoseconds. */
  datatype SensorEvent = SensorEvent(sensor: SensorType, values: seq<real>, timestamp: int)

  /** Identity of a registered `SensorEventListener`. */
  type ListenerId = nat

  /** A `Vector3d`. */
  datatype Vec3 = Vec3(x: real, y: real, z: real)

  function Sub(a: Vec3, b: Vec3): (r: Vec3)
    ensures Add(r, b) == a
  {
    Vec3(a.x - b.x, a.y - b.y, a.z - b.z)
  }

  function Add(a: Vec3, b: Vec3): Vec3
  {
    Vec3(a.x + b.x, a.y + b.y, a.z + b.z)
  }

  /** The first three values of a sample as a vector (`Vector3d.set(v[0], v[1], v[2])`). */
  function Head3(values: seq<real>): Vec3
    requires |values| >= 3
  {
    Vec3(values[0], values[1], values[2])
  }

  predicate IsGyroscope(t: SensorType)
  {
    t == Gyroscope || t == GyroscopeUncalibrated
  }
}
