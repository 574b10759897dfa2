/** The OSRM waypoint path built from the enriched destinations, and the
    itinerary object assembled from the destinations and the first route. */
module Itinerary {
  import opened JsText
  import opened Enrichment

  /** A non-negative quantity as OSRM reports it (seconds or meters). */
  type NonNegReal = r: real | r >= 0.0 witness 0.0

  /** One route leg; only its `duration` (seconds) is read. */
  datatype Leg = Leg(duration: NonNegReal)

  /** The first route alternative: its `legs` and total `distance` (meters). */
  datatype Route = Route(legs: seq<Leg>, distance: NonNegReal)

  datatype Entry = Entry(destination: string, transitTime: string, dwellTime: string, weather: Weather)

  datatype Itinerary = Itinerary(
    city: string,
    destinations: seq<Destination>,
    timeline: seq<Entry>,
    totalDistance: string,
    endTime: string)

  const ReturnLabel := "Return"
  const DwellTime := "1 hour"
  const PathSeparator := ';'

  /** How a JavaScript Number prints in a template literal; the route only needs
      that the text holds neither ',' nor ';'. */
  ghost predicate NumberTextOk(numberText: real -> string) {
    forall x :: ',' !in numberText(x) && ';' !in numberText(x)
  }

  /** `${d.coordinates.lng},${d.coordinates.lat}`: the empty coordinates object
      prints both parts as "undefined". */
  function Waypoint(c: Coordinates, numberText: real -> string): (s: string)
    ensures c.NoCoordinates? ==> s == "undefined,undefined"
    ensures c.LatLng? ==> s == numberText(c.lng) + "," + numberText(c.lat)
    ensures NumberTextOk(numberText) ==> PathSeparator !in s
  {
    match c
    case NoCoordinates => "undefined,undefined"
    case LatLng(lat, lng) => numberText(lng) + "," + numberText(lat)
  }

  function Waypoints(details: seq<Destination>, numberText: real -> string): (w: seq<string>)
    ensures |w| == |details|
    ensures forall k :: 0 <= k < |details| ==> w[k] == Waypoint(details[k].coordinates, numberText)
  {
    seq(|details|, k requires 0 <= k < |details| => Waypoint(details[k].coordinates, numberText))
  }

  /** `destinationDetails.map(d => `${lng},${lat}`).join(';')`. */
  function RoutePath(details: seq<Destination>, numberText: real -> string): (path: string)
    // no destinations give the empty path; one gives its lone waypoint
    ensures |details| == 0 ==> path == ""
    ensures |details| == 1 ==> path == Waypoint(details[0].coordinates, numberText)
  {
    Join(Waypoints(details, numberText), PathSeparator)
  }

  /** The path splits back into one waypoint per destination, in destination order,
      with n - 1 separators for n destinations. */
  lemma RoutePathWaypoints(details: seq<Destination>, numberText: real -> string)
    requires |details| >= 1
    requires NumberTextOk(numberText)
    ensures Split(RoutePath(details, numberText), PathSeparator) == Waypoints(details, numberText)
    ensures multiset(RoutePath(details, numberText))[PathSeparator] == |details| - 1
  {
    var w := Waypoints(details, numberText);
    SplitJoin(w, PathSeparator);
    JoinSeparators(w, PathSeparator);
  }

  /** `${Math.round(leg.duration / 60)} minutes`. */
  function TransitText(seconds: NonNegReal): (s: string)
    ensures |s| > 8 && s[|s| - 8..] == " minutes" && AllDigits(s[..|s| - 8])
    // the number of minutes has no leading zero
    ensures |s| > 9 ==> s[0] != '0'
  {
    var digits := NatText(Round(seconds / 60.0));
    var s := digits + " minutes";
    assert s[..|digits|] == digits;
    s
  }

  /** The transit text reads back as the whole number of minutes closest to the
      leg's duration. */
  lemma TransitTextReads(seconds: NonNegReal)
    ensures var s := TransitText(seconds);
      var m := DigitsValue(s[..|s| - 8]);
      m as real - 0.5 <= seconds / 60.0 < m as real + 0.5
  {
    var s := TransitText(seconds);
    assert s[..|s| - 8] == NatText(Round(seconds / 60.0));
    NatTextRoundTrip(Round(seconds / 60.0));
  }

  /** The timeline entry for leg i, describing `destinationDetails[i + 1]`. */
  function LegEntry(details: seq<Destination>, i: nat, leg: Leg): (e: Entry)
  {
    var next := if i + 1 < |details| then Some(details[i + 1]) else None;
    Entry(
      if next.Some? && next.value.name != "" then next.value.name else ReturnLabel,
      TransitText(leg.duration),
      DwellTime,
      if next.Some? && WeatherTruthy(next.value.weather) then next.value.weather else UnknownWeather)
  }

  /** `route.legs.map((leg, i) => ({ destination, transitTime, dwellTime, weather }))`. */
  function Timeline(details: seq<Destination>, legs: seq<Leg>): (t: seq<Entry>)
    // one entry per leg, in leg order
    ensures |t| == |legs|
    ensures forall i :: 0 <= i < |legs| ==> t[i].transitTime == TransitText(legs[i].duration)
    ensures forall i :: 0 <= i < |legs| ==> t[i].dwellTime == DwellTime
    // entry i names destination i + 1 when it exists and has a name, else "Return"
    ensures forall i :: 0 <= i < |legs| ==>
      t[i].destination == (if i + 1 < |details| && details[i + 1].name != "" then details[i + 1].name else ReturnLabel)
    // and carries its weather when truthy, else "Unknown"
    ensures forall i :: 0 <= i < |legs| ==>
      t[i].weather == (if i + 1 < |details| && WeatherTruthy(details[i + 1].weather) then details[i + 1].weather else UnknownWeather)
  {
    seq(|legs|, i requires 0 <= i < |legs| => LegEntry(details, i, legs[i]))
  }

  /** The itinerary object: city and endTime passed through, the enriched list
      itself, the timeline and `(route.distance / 1000).toFixed(2)`. */
  function Assemble(city: string, details: seq<Destination>, route: Route, endTime: string): (it: Itinerary)
    ensures it.city == city && it.endTime == endTime && it.destinations == details
    ensures it.timeline == Timeline(details, route.legs)
    ensures it.totalDistance == ToFixed2(route.distance / 1000.0)
  {
    Itinerary(city, details, Timeline(details, route.legs), ToFixed2(route.distance / 1000.0), endTime)
  }

  /** Destinations that came out of the enrichment step. */
  predicate Enriched(details: seq<Destination>) {
    forall k :: 0 <= k < |details| ==> WeatherTruthy(details[k].weather)
  }

  /** With enriched destinations the timeline's `|| 'Unknown'` only fires past
      the end of the list: entry i has the weather of destination i + 1 when it
      exists. */
  lemma TimelineWeather(details: seq<Destination>, legs: seq<Leg>, i: nat)
    requires Enriched(details)
    requires i < |legs|
    ensures Timeline(details, legs)[i].weather ==
      (if i + 1 < |details| then details[i + 1].weather else UnknownWeather)
  {
    if i + 1 < |details| {
      assert WeatherTruthy(details[i + 1].weather);
    }
  }

  /** With non-empty destination names, "Return" appears exactly on the legs
      past the last destination. */
  lemma TimelineReturn(details: seq<Destination>, legs: seq<Leg>, i: nat)
    requires forall k :: 0 <= k < |details| ==> details[k].name != "" && details[k].name != ReturnLabel
    requires i < |legs|
    ensures Timeline(details, legs)[i].destination == ReturnLabel <==> i + 1 >= |details|
  {
    if i + 1 < |details| {
      assert details[i + 1].name != ReturnLabel;
    }
  }

  /** When the route has one leg between each pair of consecutive destinations,
      the timeline names destinations 1..n-1 in order and never says "Return". */
  lemma TimelineVisitsInOrder(details: seq<Destination>, legs: seq<Leg>)
    requires |details| >= 1 && |legs| == |details| - 1
    requires forall k :: 0 <= k < |details| ==> details[k].name != ""
    ensures forall i :: 0 <= i < |legs| ==> Timeline(details, legs)[i].destination == details[i + 1].name
  {
  }

  /** The two-stop Lisbon walk: two legs of 600 s and 900 s over 5000 m. */
  lemma LisbonExample(castle: Destination, aquarium: Destination)
    requires aquarium.name == "Aquarium" && aquarium.weather == WeatherCode(3)
    ensures var it := Assemble("Lisbon", [castle, aquarium], Route([Leg(600.0), Leg(900.0)], 5000.0), "18:00");
      && it.timeline == [Entry("Aquarium", "10 minutes", "1 hour", WeatherCode(3)),
                         Entry("Return", "15 minutes", "1 hour", UnknownWeather)]
      && it.totalDistance == "5.00"
  {
    assert Round(600.0 / 60.0) == 10 by { RoundUnique(600.0 / 60.0, 10); }
    assert Round(900.0 / 60.0) == 15 by { RoundUnique(900.0 / 60.0, 15); }
    assert Round(5000.0 / 1000.0 * 100.0) == 500 by { RoundUnique(5000.0 / 1000.0 * 100.0, 500); }
    assert NatText(10) == "10";
    assert NatText(15) == "15";
    assert NatText(5) == "5";
    assert TransitText(600.0) == "10 minutes";
    assert TransitText(900.0) == "15 minutes";
    var t := Timeline([castle, aquarium], [Leg(600.0), Leg(900.0)]);
    assert t[0] == Entry("Aquarium", "10 minutes", "1 hour", WeatherCode(3));
    assert t[1] == Entry("Return", "15 minutes", "1 hour", UnknownWeather);
  }
}
