/**
 The computations of the map panel (src/components/FlightMap.tsx): the
 aircraft marker's left offset and the width of the flown part of the path.
 */
module FlightMap {
  import opened Flights

  /** The marker's left offset in percent:
      `max(10, min(90, 10 + progress * 0.8))`. It always lies in [10, 90],
      and on [0, 100] it is the unclamped line 10 + 0.8 * progress. */
  function MarkerLeft(progress: real): (left: real)
    ensures 10.0 <= left <= 90.0
    ensures 0.0 <= progress <= 100.0 ==> left == 10.0 + progress * 0.8
    ensures progress <= 0.0 ==> left == 10.0
    ensures progress >= 100.0 ==> left == 90.0
  {
    var inner := if 90.0 <= 10.0 + progress * 0.8 then 90.0 else 10.0 + progress * 0.8;
    if 10.0 >= inner then 10.0 else inner
  }

  /** The two airports: no progress puts the marker at 10%, full progress at 90%. */
  lemma MarkerEndpoints()
    ensures MarkerLeft(0.0) == 10.0 && MarkerLeft(100.0) == 90.0
  {
  }

  /** More progress never moves the marker back. */
  lemma MarkerMonotonic(p: real, q: real)
    requires p <= q
    ensures MarkerLeft(p) <= MarkerLeft(q)
  {
  }

  /** The width of the flown part of the path, in percent (line 94; the
      card's progress bar at src/components/FlightCard.tsx line 110 uses the
      same expression). It is not clamped: it tracks progress one for one,
      and stays in [0, 100] only because a well-formed record does. */
  function PathWidth(f: FlightInfo): (w: real)
    ensures WellFormed(f) ==> 0.0 <= w <= 100.0
  {
    f.progress
  }

  /** Unlike the marker, the width follows progress past 100. */
  lemma PathWidthNotClamped(f: FlightInfo)
    requires f.progress > 100.0
    ensures PathWidth(f) > 100.0 && MarkerLeft(f.progress) == 90.0
  {
  }

  /** On a well-formed record the marker sits at 10% plus four fifths of the
      path width, so it is drawn on the path's flown end rescaled to [10, 90]. */
  lemma MarkerFollowsPath(f: FlightInfo)
    requires WellFormed(f)
    ensures MarkerLeft(f.progress) == 10.0 + 0.8 * PathWidth(f)
  {
  }
}
