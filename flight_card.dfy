/**
 The computations of the flight card (src/components/FlightCard.tsx): the
 status-to-style table and the rounded progress and remaining-distance
 labels.
 */
module FlightCard {
  import opened Flights

  const GreenStyle: string := "bg-green-100 text-green-800 border-green-200"
  const BlueStyle: string := "bg-blue-100 text-blue-800 border-blue-200"
  const GrayStyle: string := "bg-gray-100 text-gray-800 border-gray-200"
  const YellowStyle: string := "bg-yellow-100 text-yellow-800 border-yellow-200"
  const RedStyle: string := "bg-red-100 text-red-800 border-red-200"

  /** The five badge styles. They are pairwise distinct: the fourth
      character tells green and gray from blue, yellow and red and those
      three apart, and the sixth tells green from gray. */
  predicate IsStatusStyle(c: string)
  {
    c == GreenStyle || c == BlueStyle || c == GrayStyle || c == YellowStyle || c == RedStyle
  }

  /** `getStatusColor`: total, one of five styles, and each style picks out
      its statuses exactly: green only for "En Route", blue only for
      "Departed", gray only for "Landed", yellow only for "Delayed", and red
      for every other string, "Flight Not Found" included. */
  function StatusColor(status: string): (c: string)
    ensures IsStatusStyle(c)
    ensures c == GreenStyle <==> status == "En Route"
    ensures c == BlueStyle <==> status == "Departed"
    ensures c == GrayStyle <==> status == "Landed"
    ensures c == YellowStyle <==> status == "Delayed"
    ensures c == RedStyle <==> status !in {"En Route", "Departed", "Landed", "Delayed"}
  {
    assert GreenStyle[3] == 'g' && BlueStyle[3] == 'b' && GrayStyle[3] == 'g' && YellowStyle[3] == 'y' && RedStyle[3] == 'r';
    assert GreenStyle[4] == 'r' && GrayStyle[4] == 'r' && GreenStyle[5] == 'e' && GrayStyle[5] == 'a';
    match status
    case "En Route" => GreenStyle
    case "Departed" => BlueStyle
    case "Landed" => GrayStyle
    case "Delayed" => YellowStyle
    case _ => RedStyle
  }

  /** The statuses the tracker can load are styled green (the American
      flight), blue (the United flight), gray (the landed Delta flight) and
      red (any unknown key). */
  lemma LoadedStatusStyles(key: string)
    ensures key == "AA123" ==> StatusColor(Lookup(key).status) == GreenStyle
    ensures key == "UA456" ==> StatusColor(Lookup(key).status) == BlueStyle
    ensures key == "DL789" ==> StatusColor(Lookup(key).status) == GrayStyle
    ensures key !in MockFlights ==> StatusColor(Lookup(key).status) == RedStyle
  {
    if key !in MockFlights {
      assert Lookup(key).status == NotFoundStatus;
      assert NotFoundStatus[0] == 'F';
    }
  }

  /** `Math.round`: the nearest integer, halves rounded up. */
  function Round(x: real): (n: int)
    ensures n as real - 0.5 <= x < n as real + 0.5
  {
    (x + 0.5).Floor
  }

  /** Rounding keeps a value inside an integer range it already lies in. */
  lemma RoundWithin(x: real, lo: int, hi: int)
    requires lo as real <= x <= hi as real
    ensures lo <= Round(x) <= hi
  {
  }

  /** The progress percentage label of line 105. */
  function ProgressLabel(f: FlightInfo): (n: int)
    ensures 0.0 <= f.progress <= 100.0 ==> 0 <= n <= 100
    ensures n as real - 0.5 <= f.progress < n as real + 0.5
  {
    Round(f.progress)
  }

  /** The remaining-distance label of line 164: never negative and never above
      the rounded total for a well-formed record. */
  function RemainingLabel(f: FlightInfo): (n: int)
    ensures WellFormed(f) ==> 0 <= n <= Round(f.distance.total)
    ensures n as real - 0.5 <= f.distance.remaining < n as real + 0.5
  {
    Round(f.distance.remaining)
  }
}
