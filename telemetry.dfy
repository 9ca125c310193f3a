/**
 The live-update tick: the updater that every interval started by
 `startRealTimeUpdates` hands to `setFlightData` (src/App.tsx lines 185-202).
 The four `Math.random()` draws of one tick are parameters.
 */
module Telemetry {
  import opened Optional
  import opened Flights

  /** The four `Math.random()` results of one tick, in the order the updater
      draws them: progress, speed, altitude, remaining distance. */
  datatype Draws = Draws(progress: real, speed: real, altitude: real, distance: real)

  /** `Math.random()` returns a number in [0, 1). */
  predicate ValidDraws(d: Draws)
  {
    && 0.0 <= d.progress < 1.0
    && 0.0 <= d.speed < 1.0
    && 0.0 <= d.altitude < 1.0
    && 0.0 <= d.distance < 1.0
  }

  function Min(a: real, b: real): (m: real) { if a <= b then a else b }

  function Max(a: real, b: real): (m: real) { if a >= b then a else b }

  /** One tick applied to a present record. Progress is capped at 100, speed
      and altitude have floors of 450 and 25000 whatever they were before,
      remaining distance never grows and never drops below 0, each field moves
      by less than its jitter, and every other field is copied unchanged. */
  function TickRecord(prev: FlightInfo, d: Draws): (next: FlightInfo)
    requires ValidDraws(d)
    ensures next.progress <= 100.0
    ensures prev.progress <= 100.0 ==> prev.progress <= next.progress < prev.progress + 2.0
    ensures next.speed >= 450.0
    ensures prev.speed >= 450.0 ==> -10.0 <= next.speed - prev.speed < 10.0
    ensures next.altitude >= 25000.0
    ensures prev.altitude >= 25000.0 ==> -500.0 <= next.altitude - prev.altitude < 500.0
    ensures 0.0 <= next.distance.remaining <= Max(prev.distance.remaining, 0.0)
    ensures prev.distance.remaining - 10.0 < next.distance.remaining
    ensures next == prev.(progress := next.progress, speed := next.speed,
                          altitude := next.altitude,
                          distance := prev.distance.(remaining := next.distance.remaining))
  {
    var newProgress := Min(prev.progress + d.progress * 2.0, 100.0);
    var newSpeed := prev.speed + (d.speed - 0.5) * 20.0;
    var newAltitude := prev.altitude + (d.altitude - 0.5) * 1000.0;
    prev.(progress := newProgress,
          speed := Max(newSpeed, 450.0),
          altitude := Max(newAltitude, 25000.0),
          distance := prev.distance.(remaining := Max(prev.distance.remaining - d.distance * 10.0, 0.0)))
  }

  /** The updater itself: a missing record stays missing. */
  function Updater(prevData: Option<FlightInfo>, d: Draws): (r: Option<FlightInfo>)
    requires ValidDraws(d)
    ensures r.None? <==> prevData.None?
    ensures prevData.Some? ==>
              r.value.flightNumber == prevData.value.flightNumber && r.value.status == prevData.value.status
  {
    match prevData
    case None => None
    case Some(prev) => Some(TickRecord(prev, d))
  }

  /** A tick keeps a well-formed record well-formed; in particular the remaining
      distance stays within the total. */
  lemma TickPreservesWellFormed(prev: FlightInfo, d: Draws)
    requires ValidDraws(d)
    requires WellFormed(prev)
    ensures WellFormed(TickRecord(prev, d))
    ensures TickRecord(prev, d).distance.remaining <= TickRecord(prev, d).distance.total
  {
  }

  predicate AllValid(ds: seq<Draws>)
  {
    forall i :: 0 <= i < |ds| ==> ValidDraws(ds[i])
  }

  /** A run of successive ticks on the current record, oldest draw first. */
  function TickAll(f: FlightInfo, ds: seq<Draws>): (g: FlightInfo)
    requires AllValid(ds)
    decreases |ds|
  {
    if ds == [] then f else TickAll(TickRecord(f, ds[0]), ds[1..])
  }

  /** Over any run of ticks on a well-formed record: it stays well-formed,
      progress never decreases and grows by less than 2 per tick, remaining
      distance never increases, and the flight number, airline, status,
      endpoints, aircraft, position and total distance never change. */
  lemma {:induction false} TickAllMonotone(f: FlightInfo, ds: seq<Draws>)
    requires AllValid(ds)
    requires WellFormed(f)
    ensures var g := TickAll(f, ds);
      && WellFormed(g)
      && f.progress <= g.progress
      && (ds != [] ==> g.progress < f.progress + 2.0 * |ds| as real)
      && g.distance.remaining <= f.distance.remaining
      && g.flightNumber == f.flightNumber && g.airline == f.airline && g.status == f.status
      && g.departure == f.departure && g.arrival == f.arrival && g.aircraft == f.aircraft
      && g.currentLocation == f.currentLocation && g.distance.total == f.distance.total
    decreases |ds|
  {
    if ds != [] {
      var f' := TickRecord(f, ds[0]);
      TickPreservesWellFormed(f, ds[0]);
      assert AllValid(ds[1..]);
      TickAllMonotone(f', ds[1..]);
    }
  }

  /** After any non-empty run of ticks, speed and altitude sit at or above
      their floors however far the flight has progressed, and a record at
      100% progress stays at 100%. (That the interval keeps firing at 100% is
      `Tracker.App.Tick`, whose requires do not mention progress.) */
  lemma {:induction false} TickAllNeverStops(f: FlightInfo, ds: seq<Draws>)
    requires AllValid(ds)
    requires ds != []
    ensures TickAll(f, ds).speed >= 450.0 && TickAll(f, ds).altitude >= 25000.0
    ensures f.progress == 100.0 ==> TickAll(f, ds).progress == 100.0
    decreases |ds|
  {
    var f' := TickRecord(f, ds[0]);
    assert AllValid(ds[1..]);
    if |ds| > 1 {
      TickAllNeverStops(f', ds[1..]);
    }
  }

  /** The landed Delta record is not frozen under a tick: its speed jumps from
      0 to at least 450 and its altitude from 0 to at least 25000. */
  lemma TickMovesLandedRecord(d: Draws)
    requires ValidDraws(d)
    ensures TickRecord(DL789, d).status == "Landed"
    ensures TickRecord(DL789, d).speed >= 450.0 > DL789.speed
    ensures TickRecord(DL789, d).altitude >= 25000.0 > DL789.altitude
  {
  }
}
