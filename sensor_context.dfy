/**
 * The client telemetry store: the cached sensor list, a bounded per-sensor
 * history of readings, an error flag, a loading flag and the time of the last
 * simulation step.
 *
 * Remote results arrive as parameters (`None` stands for a rejected request),
 * `Math.random()` draws are parameters in [0, 1), and the clock is `now`.
 * The ten-second timer that drives `UpdateSensorValues` and the asynchronous
 * completion of each history fetch are not modelled: each completion is one
 * call of `FetchReadings`.
 */
module SensorContext {
  import opened Common
  import opened Models

  /** Number of readings kept per sensor. */
  const HistoryCap: nat := 50

  /** One element of the reading-history response, as the client keeps it. */
  datatype HistoryPoint = HistoryPoint(rawValue: real, drift: real, critical: bool, lastUpdated: int)

  datatype StoreError = FetchSensorsFailed

  /** `slice(-50)`: the last 50 elements, or all of them when there are fewer. */
  function KeepLast<T>(h: seq<T>): (r: seq<T>)
    ensures |r| == if |h| <= HistoryCap then |h| else HistoryCap
    ensures r == h[|h| - |r|..]
  {
    if |h| <= HistoryCap then h else h[|h| - HistoryCap..]
  }

  /** A history after the newest point `x` was appended and the oldest evicted. */
  function AppendCapped<T>(h: seq<T>, x: T): (r: seq<T>)
    ensures |r| == if |h| + 1 <= HistoryCap then |h| + 1 else HistoryCap
    ensures r[|r| - 1] == x
    ensures r[..|r| - 1] == h[|h| + 1 - |r|..]
  {
    var r := KeepLast(h + [x]);
    assert r == (h + [x])[|h| + 1 - |r|..];
    r
  }

  /** The history after a series of appends, one after the other. */
  function AppendAll<T>(h: seq<T>, xs: seq<T>): seq<T>
    decreases xs
  {
    if xs == [] then h else AppendAll(AppendCapped(h, xs[0]), xs[1..])
  }

  lemma {:induction false} KeepLastOfKeepLast<T>(s: seq<T>, x: T)
    ensures KeepLast(KeepLast(s) + [x]) == KeepLast(s + [x])
  {
    var k := KeepLast(s);
    if |s| > HistoryCap {
      assert KeepLast(k + [x]) == (k + [x])[1..];
      assert (k + [x])[1..] == (s + [x])[|s| + 1 - HistoryCap..];
    }
  }

  /** Any series of appends to a history of at most 50 keeps exactly the most
      recent min(50, total) points, in insertion order. */
  lemma {:induction false} AppendAllKeepsMostRecent<T>(h: seq<T>, xs: seq<T>)
    requires |h| <= HistoryCap
    ensures AppendAll(h, xs) == KeepLast(h + xs)
    decreases xs
  {
    if xs == [] {
      assert h + xs == h;
    } else {
      var h' := AppendCapped(h, xs[0]);
      AppendAllKeepsMostRecent(h', xs[1..]);
      KeepLastPrefix(h + [xs[0]], xs[1..]);
      assert h + [xs[0]] + xs[1..] == h + xs;
    }
  }

  lemma {:induction false} KeepLastPrefix<T>(s: seq<T>, ys: seq<T>)
    ensures KeepLast(KeepLast(s) + ys) == KeepLast(s + ys)
  {
    if ys == [] {
    } else {
      var n := |ys|;
      var a, b, y := KeepLast(s) + ys[..n - 1], s + ys[..n - 1], ys[n - 1];
      assert a + [y] == KeepLast(s) + ys;
      assert b + [y] == s + ys;
      calc {
        KeepLast(a + [y]);
        { KeepLastOfKeepLast(a, y); }
        KeepLast(KeepLast(a) + [y]);
        { KeepLastPrefix(s, ys[..n - 1]); }
        KeepLast(KeepLast(b) + [y]);
        { KeepLastOfKeepLast(b, y); }
        KeepLast(b + [y]);
      }
    }
  }

  /** Appends are not deduplicated: a point equal to the newest one is appended
      again, and the history grows while below the cap. */
  lemma RepeatedLatestIsAppended<T>(h: seq<T>, x: T)
    requires 0 < |h| < HistoryCap && h[|h| - 1] == x
    ensures |AppendCapped(h, x)| == |h| + 1
    ensures AppendCapped(h, x) == h + [x]
  {
  }

  /** The baseline of one simulation step: the current value, or 1 when it is zero.
      The client computes this on its own; the server's reading serializer has
      the same rule (`Serializers.DriftBaseline`). */
  function SimBaseline(value: real): (b: real)
    ensures b != 0.0
    ensures value != 0.0 ==> b == value
    ensures value == 0.0 ==> b == 1.0
  {
    OrDefault(value, 1.0)
  }

  /** The perturbation `(Math.random() - 0.5) * 0.1`. */
  function Perturbation(u: real): (p: real)
    requires 0.0 <= u < 1.0
    ensures -0.05 <= p < 0.05
  {
    (u - 0.5) * 0.1
  }

  /** One simulation step of one sensor: only value, drift and lastUpdated change. */
  function SimulateStep(s: Sensor, u: real, now: int): (r: Sensor)
    requires 0.0 <= u < 1.0
    ensures r == s.(value := r.value, drift := r.drift, lastUpdated := now)
    ensures -0.055 < r.value - SimBaseline(s.value) <= 0.055
    ensures r.value == Round2(SimBaseline(s.value) + Perturbation(u))
    ensures r.drift == Round2((r.value - SimBaseline(s.value)) / SimBaseline(s.value) * 100.0)
  {
    var baseline := SimBaseline(s.value);
    var newValue := Round2(baseline + Perturbation(u));
    var newDrift := Round2((newValue - baseline) / baseline * 100.0);
    s.(value := newValue, drift := newDrift, lastUpdated := now)
  }

  /** A sensor reading exactly zero is simulated against baseline 1. */
  lemma ZeroValueUsesUnitBaseline(s: Sensor, u: real, now: int)
    requires 0.0 <= u < 1.0 && s.value == 0.0
    ensures SimulateStep(s, u, now).drift == Round2((SimulateStep(s, u, now).value - 1.0) * 100.0)
    ensures 0.945 < SimulateStep(s, u, now).value <= 1.055
  {
  }

  class SensorStore {
    var sensors: seq<Sensor>
    var readings: map<int, seq<HistoryPoint>>
    var lastUpdate: int
    var isLoading: bool
    var error: Option<StoreError>

    /** Every history respects the cap. */
    ghost predicate Valid()
      reads this
    {
      forall id :: id in readings ==> |readings[id]| <= HistoryCap
    }

    constructor (now: int)
      ensures Valid()
      ensures sensors == [] && readings == map[] && error == None
      ensures isLoading && lastUpdate == now
    {
      sensors := [];
      readings := map[];
      lastUpdate := now;
      isLoading := true;
      error := None;
    }

    /** Loads the sensor list. A failure keeps the previous list and records the error. */
    method FetchSensors(response: Option<seq<Sensor>>)
      requires Valid()
      modifies this`sensors, this`error
      ensures Valid()
      ensures response.Some? ==> sensors == response.value && error == None
      ensures response.None? ==> sensors == old(sensors) && error == Some(FetchSensorsFailed)
    {
      if response.Some? {
        sensors := response.value;
        error := None;
      } else {
        error := Some(FetchSensorsFailed);
      }
    }

    /** Manual refresh: loading is raised around the fetch and lowered afterwards. */
    method RefreshSensors(response: Option<seq<Sensor>>)
      requires Valid()
      modifies this`sensors, this`error, this`isLoading
      ensures Valid() && !isLoading
      ensures response.Some? ==> sensors == response.value && error == None
      ensures response.None? ==> sensors == old(sensors) && error == Some(FetchSensorsFailed)
      ensures readings == old(readings)
    {
      isLoading := true;
      FetchSensors(response);
      isLoading := false;
    }

    /** Completion of one history fetch: the newest point of a non-empty response
        is appended to that sensor's history; anything else changes nothing. */
    method FetchReadings(sensorId: int, response: Option<seq<HistoryPoint>>)
      requires Valid()
      modifies this`readings
      ensures Valid()
      ensures response.Some? && |response.value| > 0 ==>
        readings == old(readings)[sensorId :=
          AppendCapped(if sensorId in old(readings) then old(readings)[sensorId] else [],
                       response.value[|response.value| - 1])]
      ensures response.None? || |response.value| == 0 ==> readings == old(readings)
      ensures forall id :: id != sensorId && id in old(readings) ==>
        id in readings && readings[id] == old(readings)[id]
    {
      if response.Some? && |response.value| > 0 {
        var latest := response.value[|response.value| - 1];
        var prev := if sensorId in readings then readings[sensorId] else [];
        readings := readings[sensorId := AppendCapped(prev, latest)];
      }
    }

    /** One tick of the simulation: every sensor takes one `SimulateStep`, in
        place and in order; `draws[i]` is the random number drawn for sensor i. */
    method UpdateSensorValues(draws: seq<real>, now: int)
      requires Valid()
      requires |draws| == |sensors|
      requires forall i :: 0 <= i < |draws| ==> 0.0 <= draws[i] < 1.0
      modifies this`sensors, this`lastUpdate
      ensures Valid()
      ensures |sensors| == |old(sensors)|
      ensures forall i :: 0 <= i < |sensors| ==> sensors[i] == SimulateStep(old(sensors)[i], draws[i], now)
      ensures lastUpdate == now
    {
      var next: seq<Sensor> := [];
      var i := 0;
      while i < |sensors|
        invariant 0 <= i <= |sensors|
        invariant |next| == i
        invariant forall k :: 0 <= k < i ==> next[k] == SimulateStep(sensors[k], draws[k], now)
      {
        next := next + [SimulateStep(sensors[i], draws[i], now)];
        i := i + 1;
      }
      sensors := next;
      lastUpdate := now;
    }
  }

  /** A simulation tick keeps the number, order and ids of the sensors. */
  lemma {:induction false} SimulationKeepsIds(before: seq<Sensor>, after: seq<Sensor>, draws: seq<real>, now: int)
    requires |draws| == |before| == |after|
    requires forall i :: 0 <= i < |draws| ==> 0.0 <= draws[i] < 1.0
    requires forall i :: 0 <= i < |after| ==> after[i] == SimulateStep(before[i], draws[i], now)
    ensures forall i :: 0 <= i < |after| ==> after[i].id == before[i].id && after[i].name == before[i].name
    ensures forall i :: 0 <= i < |after| ==> after[i].status == before[i].status
  {
    forall i | 0 <= i < |after|
      ensures after[i].id == before[i].id && after[i].name == before[i].name
      ensures after[i].status == before[i].status
    {
      assert after[i] == SimulateStep(before[i], draws[i], now);
    }
  }
}
