/**
 * The dashboard page of the client: the status counters over the sensor list
 * and, per sensor card, the colour band and sign of the displayed drift.
 */
module Dashboard {
  import opened Common
  import opened Models

  datatype StatusCounts = StatusCounts(total: nat, online: nat, warning: nat, critical: nat)

  predicate IsOnline(s: Sensor) { s.status == Online }
  predicate IsWarning(s: Sensor) { s.status == Warning }
  predicate IsCritical(s: Sensor) { s.status == CriticalStatus }

  /** `stats`: each counter counts the sensors whose status is exactly that one. */
  function Counts(sensors: seq<Sensor>): (c: StatusCounts)
    ensures c.total == |sensors|
    ensures c.online <= c.total && c.warning <= c.total && c.critical <= c.total
  {
    StatusCounts(|sensors|, CountIf(sensors, IsOnline), CountIf(sensors, IsWarning), CountIf(sensors, IsCritical))
  }

  /** The three counters never add up to more than the total; offline sensors make up the rest. */
  lemma CountsWithinTotal(sensors: seq<Sensor>)
    ensures Counts(sensors).online + Counts(sensors).warning + Counts(sensors).critical <= Counts(sensors).total
  {
    CountDisjoint3(sensors, IsOnline, IsWarning, IsCritical);
  }

  /** All sensors are online exactly when the online counter equals the total. */
  lemma AllOnlineIff(sensors: seq<Sensor>)
    ensures Counts(sensors).online == Counts(sensors).total <==> forall k :: 0 <= k < |sensors| ==> sensors[k].status == Online
  {
    CountIfAll(sensors, IsOnline);
  }

  /** No sensor is critical exactly when the critical counter is zero. */
  lemma NoCriticalIff(sensors: seq<Sensor>)
    ensures Counts(sensors).critical == 0 <==> forall k :: 0 <= k < |sensors| ==> sensors[k].status != CriticalStatus
  {
    CountIfZero(sensors, IsCritical);
  }

  datatype DriftColor = Destructive | WarningColor | Success

  /** Colour band of a sensor's drift percentage. */
  function DriftBand(drift: real): (c: DriftColor)
    ensures c == Destructive <==> Abs(drift) > 3.0
    ensures c == WarningColor <==> 1.0 < Abs(drift) <= 3.0
    ensures c == Success <==> Abs(drift) <= 1.0
  {
    if Abs(drift) > 3.0 then Destructive else if Abs(drift) > 1.0 then WarningColor else Success
  }

  /** The band depends only on the magnitude: opposite drifts get the same colour. */
  lemma DriftBandSymmetric(drift: real)
    ensures DriftBand(-drift) == DriftBand(drift)
  {
  }

  /** A larger drift magnitude never gets a milder colour. */
  function BandRank(c: DriftColor): nat
  {
    match c
    case Success => 0
    case WarningColor => 1
    case Destructive => 2
  }

  lemma DriftBandMonotone(d1: real, d2: real)
    requires Abs(d1) <= Abs(d2)
    ensures BandRank(DriftBand(d1)) <= BandRank(DriftBand(d2))
  {
  }

  /** The sign shown before the drift: "+" for a positive drift, nothing
      otherwise (a negative drift carries its own minus sign). */
  function SignPrefix(drift: real): (p: string)
    ensures p == "+" <==> drift > 0.0
    ensures p == "" <==> drift <= 0.0
  {
    if drift > 0.0 then "+" else ""
  }
}
