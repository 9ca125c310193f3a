/**
 The flight record store of the tracker: the `FlightInfo` record, the three
 canned flights, the deterministic "not found" record, and the lookup that the
 search handler performs on the upper-cased query (src/App.tsx).
 */
module Flights {

  /** One end of a flight: airport code, city, scheduled time and gate. */
  datatype Endpoint = Endpoint(airport: string, city: string, time: string, gate: string)

  datatype Location = Location(lat: real, lng: real)

  datatype Distance = Distance(total: real, remaining: real)

  /** The `FlightInfo` interface; JavaScript numbers are modelled as reals. */
  datatype FlightInfo = FlightInfo(
    flightNumber: string,
    airline: string,
    departure: Endpoint,
    arrival: Endpoint,
    status: string,
    aircraft: string,
    progress: real,
    currentLocation: Location,
    altitude: real,
    speed: real,
    distance: Distance)

  const EnRoute: string := "En Route"
  const Departed: string := "Departed"
  const Landed: string := "Landed"
  const NotFoundStatus: string := "Flight Not Found"

  /** The statuses for which the search handler starts live updates. */
  predicate IsActive(status: string)
  {
    status == EnRoute || status == Departed
  }

  /** The ranges the rest of the tracker keeps its numbers in. */
  predicate WellFormed(f: FlightInfo)
  {
    && 0.0 <= f.progress <= 100.0
    && 0.0 <= f.distance.remaining <= f.distance.total
    && 0.0 <= f.speed
    && 0.0 <= f.altitude
  }

  const AA123: FlightInfo := FlightInfo(
    "AA123", "American Airlines",
    Endpoint("JFK", "New York", "14:30", "A12"),
    Endpoint("LAX", "Los Angeles", "18:45", "B7"),
    EnRoute, "Boeing 737-800", 65.0,
    Location(39.8283, -98.5795), 35000.0, 580.0, Distance(2475.0, 866.0))

  const UA456: FlightInfo := FlightInfo(
    "UA456", "United Airlines",
    Endpoint("SFO", "San Francisco", "09:15", "C3"),
    Endpoint("ORD", "Chicago", "15:30", "D8"),
    Departed, "Airbus A320", 25.0,
    Location(40.7128, -112.0740), 32000.0, 520.0, Distance(1846.0, 1385.0))

  const DL789: FlightInfo := FlightInfo(
    "DL789", "Delta Air Lines",
    Endpoint("ATL", "Atlanta", "11:20", "E5"),
    Endpoint("MIA", "Miami", "13:45", "F2"),
    Landed, "Boeing 757-200", 100.0,
    Location(25.7617, -80.1918), 0.0, 0.0, Distance(594.0, 0.0))

  /** The `mockFlights` table, keyed by canonical upper-case flight number. */
  const MockFlights: map<string, FlightInfo> :=
    map["AA123" := AA123, "UA456" := UA456, "DL789" := DL789]

  const UnknownEndpoint: Endpoint := Endpoint("Unknown", "Unknown", "Unknown", "Unknown")

  /** The fallback record for a key that is not in the table. */
  function NotFound(flightNumber: string): (r: FlightInfo)
  {
    FlightInfo(
      flightNumber, "Unknown Airline", UnknownEndpoint, UnknownEndpoint,
      NotFoundStatus, "Unknown", 0.0, Location(0.0, 0.0), 0.0, 0.0, Distance(0.0, 0.0))
  }

  /** `generateMockFlightData`: a total lookup. Every record it returns carries
      the key it was asked for, is "not found" exactly for keys outside the
      table, and is well-formed. */
  function Lookup(flightNumber: string): (r: FlightInfo)
    ensures r.flightNumber == flightNumber
    ensures r.status == NotFoundStatus <==> flightNumber !in MockFlights
    ensures WellFormed(r)
  {
    if flightNumber in MockFlights then MockFlights[flightNumber] else NotFound(flightNumber)
  }

  /** The three canned records, exactly, with their statuses. */
  lemma LookupKnownFlights()
    ensures Lookup("AA123") == AA123 && Lookup("AA123").status == "En Route"
    ensures Lookup("UA456") == UA456 && Lookup("UA456").status == "Departed"
    ensures Lookup("DL789") == DL789 && Lookup("DL789").status == "Landed"
  {
  }

  /** Any other key yields the fixed "not found" shape, carrying the key. */
  lemma LookupUnknownFlight(key: string)
    requires key != "AA123" && key != "UA456" && key != "DL789"
    ensures var r := Lookup(key);
      && r.flightNumber == key
      && r.status == "Flight Not Found"
      && r.airline == "Unknown Airline"
      && r.aircraft == "Unknown"
      && r.departure == r.arrival == Endpoint("Unknown", "Unknown", "Unknown", "Unknown")
      && r.progress == 0.0 && r.altitude == 0.0 && r.speed == 0.0
      && r.currentLocation == Location(0.0, 0.0)
      && r.distance == Distance(0.0, 0.0)
  {
  }

  /** Live updates are started for exactly the two table entries whose status
      is active; the landed flight and every unknown key start none. */
  lemma {:induction false} LookupActiveExactly(key: string)
    ensures IsActive(Lookup(key).status) <==> key == "AA123" || key == "UA456"
  {
    if key !in MockFlights {
      assert Lookup(key).status == NotFoundStatus;
      assert NotFoundStatus[0] != EnRoute[0] && NotFoundStatus[0] != Departed[0];
    } else if key == "DL789" {
      assert Landed[0] != EnRoute[0] && Landed[0] != Departed[0];
    }
  }

  /** ECMAScript `toUpperCase`, restricted to ASCII letters. */
  function UpperChar(c: char): (u: char)
    ensures 'a' <= c <= 'z' ==> 'A' <= u <= 'Z' && u as int + 32 == c as int
    ensures !('a' <= c <= 'z') ==> u == c
  {
    if 'a' <= c <= 'z' then (c as int - 32) as char else c
  }

  /** `String.prototype.toUpperCase` on ASCII text, character by character. */
  function Upper(s: string): (u: string)
    ensures |u| == |s|
    ensures forall i :: 0 <= i < |s| ==> u[i] == UpperChar(s[i])
    ensures forall i :: 0 <= i < |u| ==> !('a' <= u[i] <= 'z')
  {
    if s == [] then [] else [UpperChar(s[0])] + Upper(s[1..])
  }

  /** Upper-casing twice is upper-casing once. */
  lemma {:induction false} UpperIdempotent(s: string)
    ensures Upper(Upper(s)) == Upper(s)
  {
    var u := Upper(s);
    assert forall i :: 0 <= i < |u| ==> UpperChar(u[i]) == u[i];
  }

  /** What a completed search loads for a query: the lookup of
      `query.toUpperCase()` (src/App.tsx line 168). */
  function Resolve(query: string): (r: FlightInfo)
    ensures r.flightNumber == Upper(query)
    ensures WellFormed(r)
  {
    Lookup(Upper(query))
  }

  /** Searching is case-insensitive: a query and its upper-cased form load the
      same record. */
  lemma ResolveCaseInsensitive(query: string)
    ensures Resolve(query) == Resolve(Upper(query))
  {
    UpperIdempotent(query);
  }

  /** Two queries that differ only in the case of their letters load the same record. */
  lemma ResolveSameUpper(q1: string, q2: string)
    requires |q1| == |q2|
    requires forall i :: 0 <= i < |q1| ==> UpperChar(q1[i]) == UpperChar(q2[i])
    ensures Resolve(q1) == Resolve(q2)
  {
    assert Upper(q1) == Upper(q2);
  }

  /** The lower-case query "aa123" loads the American Airlines record. */
  lemma ResolveLowerCaseExample()
    ensures Resolve("aa123") == AA123
  {
    assert Upper("aa123") == "AA123";
  }
}
