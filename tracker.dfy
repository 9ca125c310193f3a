/**
 The state of the `App` component and the two operations that change it:
 `handleSearch` (src/App.tsx lines 159-180) and `startRealTimeUpdates`
 (lines 182-207), with the timer events that drive them as discrete steps.

 `handleSearch` runs in two parts separated by its artificial delay:
 `StartSearch` is the synchronous part and `CompleteSearch` the continuation.
 Every delay has the same length, so continuations resume in the order their
 searches started (`pending`). Intervals started by `startRealTimeUpdates`
 are kept in `intervals`; `handleSearch` drops the cancel function, so
 nothing ever clears them, and each one ticks whatever record is current.
 */
module Tracker {
  import opened Optional
  import opened Flights
  import opened Telemetry

  /** A repeating timer: the record it was started for, and whether its
      cancel function has run. */
  datatype Interval = Interval(captured: FlightInfo, cleared: bool)

  class App {
    var searchQuery: string
    var flightData: Option<FlightInfo>
    var loading: bool
    var error: Option<string>
    /** Queries whose search is waiting out its delay, oldest first. */
    var pending: seq<string>
    /** Every interval started so far, in the order they were started. */
    var intervals: seq<Interval>

    /** The object invariant: the current record is well-formed, an interval
        only exists once a record has been loaded, every interval was started
        for an active record (so the gate at line 184 always passes), and no
        error is ever recorded. */
    ghost predicate Valid()
      reads this
    {
      && (flightData.Some? ==> WellFormed(flightData.value))
      && (intervals != [] ==> flightData.Some?)
      && (forall i :: 0 <= i < |intervals| ==> IsActive(intervals[i].captured.status))
      && error.None?
    }

    /** The initial `useState` values. */
    constructor ()
      ensures Valid()
      ensures searchQuery == "" && flightData.None? && !loading && error.None?
      ensures pending == [] && intervals == []
    {
      searchQuery := "";
      flightData := None;
      loading := false;
      error := None;
      pending := [];
      intervals := [];
    }

    /** The part of `handleSearch` before the delay: set loading, clear the
        error, record the query, and wait. */
    method StartSearch(query: string)
      requires Valid()
      modifies this
      ensures Valid()
      ensures loading && error.None? && searchQuery == query
      ensures pending == old(pending) + [query]
      ensures flightData == old(flightData) && intervals == old(intervals)
    {
      loading := true;
      error := None;
      searchQuery := query;
      pending := pending + [query];
    }

    /** The continuation of `handleSearch` after the delay: load the record
        for the upper-cased query, start one more interval exactly when its
        status is "En Route" or "Departed" (earlier intervals are kept), and
        clear loading. */
    method CompleteSearch()
      requires Valid()
      requires pending != []
      modifies this
      ensures Valid()
      ensures flightData == Some(Resolve(old(pending[0])))
      ensures !loading && error.None?
      ensures pending == old(pending[1..])
      ensures searchQuery == old(searchQuery)
      ensures IsActive(Resolve(old(pending[0])).status) ==>
                intervals == old(intervals) + [Interval(Resolve(old(pending[0])), false)]
      ensures !IsActive(Resolve(old(pending[0])).status) ==> intervals == old(intervals)
    {
      var query := pending[0];
      pending := pending[1..];
      var mockData := Lookup(Upper(query));
      flightData := Some(mockData);
      if mockData.status == EnRoute || mockData.status == Departed {
        var _ := StartRealTimeUpdates(mockData);
      }
      loading := false;
    }

    /** `startRealTimeUpdates`: register one more interval for `initialData`
        and hand back its cancel handle. Its one caller has just stored an
        active record, which is what the two extra requires say. */
    method StartRealTimeUpdates(initialData: FlightInfo) returns (handle: nat)
      requires Valid()
      requires IsActive(initialData.status) && flightData.Some?
      modifies this
      ensures Valid()
      ensures intervals == old(intervals) + [Interval(initialData, false)]
      ensures handle == |old(intervals)|
      ensures flightData == old(flightData) && loading == old(loading)
      ensures error == old(error) && pending == old(pending) && searchQuery == old(searchQuery)
    {
      handle := |intervals|;
      intervals := intervals + [Interval(initialData, false)];
    }

    /** The cancel function returned by `startRealTimeUpdates`
        (`clearInterval`). Clearing an interval twice is the same as once.
        Nothing in the component ever calls it. */
    method Cancel(handle: nat)
      requires Valid()
      requires handle < |intervals|
      modifies this
      ensures Valid()
      ensures intervals == old(intervals)[handle := Interval(old(intervals[handle].captured), true)]
      ensures flightData == old(flightData) && loading == old(loading)
      ensures error == old(error) && pending == old(pending) && searchQuery == old(searchQuery)
    {
      intervals := intervals[handle := Interval(intervals[handle].captured, true)];
    }

    /** One firing of interval `k`. The gate reads the status captured when
        the interval started, and the updater ticks the CURRENT record, which
        may belong to a later search. */
    method Tick(k: nat, d: Draws)
      requires Valid()
      requires k < |intervals| && !intervals[k].cleared
      requires ValidDraws(d)
      modifies this
      ensures Valid()
      ensures flightData == Updater(old(flightData), d)
      ensures flightData.Some?
      ensures intervals == old(intervals) && loading == old(loading)
      ensures error == old(error) && pending == old(pending) && searchQuery == old(searchQuery)
    {
      var initialData := intervals[k].captured;
      if initialData.status == EnRoute || initialData.status == Departed {
        if flightData.Some? {
          TickPreservesWellFormed(flightData.value, d);
        }
        flightData := Updater(flightData, d);
      }
    }
  }

  /** Searching "AA123" and then "DL789": the interval started for the
      American Airlines flight is never cancelled and goes on ticking the
      landed Delta record, which then shows a speed of at least 450 and an
      altitude of at least 25000. Returns the record shown after that tick
      and the number of intervals alive. */
  method StaleIntervalScenario(d: Draws) returns (shown: FlightInfo, alive: nat)
    requires ValidDraws(d)
    ensures alive == 1
    ensures shown.flightNumber == "DL789" && shown.status == "Landed"
    ensures shown.speed >= 450.0 && shown.altitude >= 25000.0
  {
    var app := new App();
    app.StartSearch("AA123");
    app.CompleteSearch();
    assert Upper("AA123") == "AA123";
    LookupActiveExactly("AA123");
    app.StartSearch("DL789");
    app.CompleteSearch();
    assert Upper("DL789") == "DL789";
    LookupActiveExactly("DL789");
    assert app.flightData == Some(DL789);
    app.Tick(0, d);
    shown := app.flightData.value;
    alive := |app.intervals|;
  }

  /** Every search of an active flight adds an interval: searching "aa123"
      twice leaves two intervals ticking the same record. */
  method RepeatedSearchScenario() returns (alive: nat, shown: FlightInfo)
    ensures alive == 2
    ensures shown == AA123
  {
    var app := new App();
    ResolveLowerCaseExample();
    app.StartSearch("aa123");
    app.CompleteSearch();
    app.StartSearch("aa123");
    app.CompleteSearch();
    alive := |app.intervals|;
    shown := app.flightData.value;
  }

  /** Searching an unknown flight "zz000": the not-found record for "ZZ000"
      is shown with zero progress and no interval is started. */
  method UnknownFlightScenario() returns (alive: nat, shown: FlightInfo)
    ensures alive == 0
    ensures shown.flightNumber == "ZZ000" && shown.status == "Flight Not Found"
    ensures shown.progress == 0.0
  {
    var app := new App();
    app.StartSearch("zz000");
    app.CompleteSearch();
    assert Upper("zz000") == "ZZ000";
    LookupActiveExactly("ZZ000");
    alive := |app.intervals|;
    shown := app.flightData.value;
  }
}
