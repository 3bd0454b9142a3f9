/**
 * The server-side reading simulator: a reading around the sensor's value,
 * stored for that sensor. The uniform draw is a parameter `u` in [0, 1].
 */
module Simulation {
  import opened Common
  import opened Models

  /** The base used when the sensor's value is zero. */
  const DefaultBase: real := 50.0

  /** Half the width of the noise band. */
  const NoiseAmplitude: real := 5.0

  /** The sensor with the given id, the first one when ids repeat. */
  function FindSensor(sensors: seq<Sensor>, id: int): (r: Option<Sensor>)
    ensures r.Some? ==> r.value in sensors && r.value.id == id
    ensures r.None? <==> forall k :: 0 <= k < |sensors| ==> sensors[k].id != id
  {
    if sensors == [] then None
    else if sensors[0].id == id then Some(sensors[0])
    else FindSensor(sensors[1..], id)
  }

  /** The simulated value: the base (the value, or 50 when it is zero) plus `uniform(-5, 5)`. */
  function SimulatedValue(sensorValue: real, u: real): (v: real)
    requires 0.0 <= u <= 1.0
    ensures OrDefault(sensorValue, DefaultBase) - NoiseAmplitude <= v <= OrDefault(sensorValue, DefaultBase) + NoiseAmplitude
  {
    OrDefault(sensorValue, DefaultBase) + (-NoiseAmplitude + 2.0 * NoiseAmplitude * u)
  }

  /** A sensor whose value is 0 is simulated around 50. */
  lemma ZeroValueSimulatesAroundFifty(u: real)
    requires 0.0 <= u <= 1.0
    ensures 45.0 <= SimulatedValue(0.0, u) <= 55.0
  {
  }

  /** `generate_sensor_reading`: an unknown id gives nothing and stores nothing;
      otherwise exactly one reading of that sensor, with the simulated value, is stored. */
  method GenerateSensorReading(db: Tables, sensorId: int, u: real, now: int) returns (r: Option<Reading>)
    requires 0.0 <= u <= 1.0
    modifies db`readings
    ensures r.None? <==> FindSensor(db.sensors, sensorId).None?
    ensures r.None? ==> db.readings == old(db.readings)
    ensures r.Some? ==> db.readings == old(db.readings) + [r.value]
    ensures r.Some? ==> r.value == Reading(sensorId, SimulatedValue(FindSensor(db.sensors, sensorId).value.value, u), now)
  {
    var sensor := FindSensor(db.sensors, sensorId);
    if sensor.None? {
      return None;
    }
    var base := OrDefault(sensor.value.value, DefaultBase);
    var noise := -NoiseAmplitude + 2.0 * NoiseAmplitude * u;
    var reading := Reading(sensor.value.id, base + noise, now);
    db.readings := db.readings + [reading];
    r := Some(reading);
  }
}
