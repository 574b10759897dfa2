/** The `POST` handler of the chat route after the language model has answered:
    enrich every destination through the POI, geocoding and weather services,
    ask the routing service for a route through all of them, and assemble the
    itinerary. The services are parameters; each call either resolves with the
    part of the response the handler reads or is rejected. */
module ChatRoute {
  import opened JsText
  import opened Enrichment
  import opened Itinerary

  /** `{ city, destinations, endTime }` as parsed from the model's reply. */
  datatype Intent = Intent(city: string, destinations: seq<string>, endTime: string)

  /** An awaited HTTP call: resolved with the data the handler reads, or rejected
      (network error or a non-2xx status). */
  datatype Reply<T> = Resolved(data: T) | Rejected

  /** The four external services, each seen through what the handler reads:
      Overpass `elements` for a destination in a city, Nominatim hits for a query,
      Open-Meteo's `current_weather?.weathercode` for a coordinates object, and
      OSRM's `routes` for a waypoint path. */
  datatype Services = Services(
    overpass: (string, string) -> Reply<seq<Tags>>,
    nominatim: string -> Reply<seq<Hit>>,
    openMeteo: Coordinates -> Reply<Option<int>>,
    osrm: string -> Reply<seq<Route>>)

  /** Why the handler throws instead of answering: an awaited call was rejected,
      or OSRM answered with no route so `route.legs` is read from `undefined`. */
  datatype PlanError = RequestRejected | RouteMissing

  datatype Result<T> = Ok(value: T) | Err(error: PlanError)

  /** The async callback for one destination: Overpass, then Nominatim with the
      POI's name, then Open-Meteo with the coordinates found (even when empty). */
  function EnrichDestination(svc: Services, city: string, dest: string): (r: Reply<Destination>)
    // it resolves exactly when all three calls do, each asked with what the one
    // before it produced
    ensures r.Resolved? <==>
      && svc.overpass(dest, city).Resolved?
      && var elements := svc.overpass(dest, city).data;
         && svc.nominatim(GeocodeQuery(PoiTags(elements, dest), city)).Resolved?
         && var hits := svc.nominatim(GeocodeQuery(PoiTags(elements, dest), city)).data;
            svc.openMeteo(CoordinatesOf(hits)).Resolved?
    ensures r.Resolved? ==>
      var elements := svc.overpass(dest, city).data;
      var hits := svc.nominatim(GeocodeQuery(PoiTags(elements, dest), city)).data;
      var current := svc.openMeteo(CoordinatesOf(hits)).data;
      r.data == Enrich(dest, elements, hits, current)
  {
    match svc.overpass(dest, city)
    case Rejected => Rejected
    case Resolved(elements) =>
      var poi := PoiTags(elements, dest);
      match svc.nominatim(GeocodeQuery(poi, city))
      case Rejected => Rejected
      case Resolved(hits) =>
        match svc.openMeteo(CoordinatesOf(hits))
        case Rejected => Rejected
        case Resolved(current) => Resolved(Enrich(dest, elements, hits, current))
  }

  /** `Promise.all(destinations.map(...))`: resolves with one entry per
      destination, in input order, when every callback resolves; rejected as soon
      as any one is, since no callback catches its own errors. */
  function EnrichAll(svc: Services, city: string, dests: seq<string>): (r: Reply<seq<Destination>>)
    ensures r.Resolved? <==> forall k :: 0 <= k < |dests| ==> EnrichDestination(svc, city, dests[k]).Resolved?
    ensures r.Resolved? ==> |r.data| == |dests|
    ensures r.Resolved? ==> forall k :: 0 <= k < |dests| ==> EnrichDestination(svc, city, dests[k]) == Resolved(r.data[k])
    decreases |dests|
  {
    if dests == [] then Resolved([])
    else
      match EnrichDestination(svc, city, dests[0])
      case Rejected => Rejected
      case Resolved(d) =>
        match EnrichAll(svc, city, dests[1..])
        case Rejected => Rejected
        case Resolved(rest) => Resolved([d] + rest)
  }

  /** The handler from the parsed intent to the itinerary it returns. */
  function Plan(intent: Intent, svc: Services, numberText: real -> string): (r: Result<Itinerary>)
    // city and endTime pass through; one enriched entry per requested destination, in order
    ensures r.Ok? ==> r.value.city == intent.city && r.value.endTime == intent.endTime
    ensures r.Ok? ==> |r.value.destinations| == |intent.destinations|
    ensures r.Ok? ==> forall k :: 0 <= k < |intent.destinations| ==>
      EnrichDestination(svc, intent.city, intent.destinations[k]) == Resolved(r.value.destinations[k])
    // a failing lookup for any destination fails the whole request
    ensures (exists k :: 0 <= k < |intent.destinations| && EnrichDestination(svc, intent.city, intent.destinations[k]).Rejected?)
      ==> r == Err(RequestRejected)
    // the route is missing exactly when every call resolved but OSRM returned no route
    ensures r == Err(RouteMissing) <==>
      && EnrichAll(svc, intent.city, intent.destinations).Resolved?
      && var path := RoutePath(EnrichAll(svc, intent.city, intent.destinations).data, numberText);
         svc.osrm(path).Resolved? && |svc.osrm(path).data| == 0
  {
    match EnrichAll(svc, intent.city, intent.destinations)
    case Rejected => Err(RequestRejected)
    case Resolved(details) =>
      match svc.osrm(RoutePath(details, numberText))
      case Rejected => Err(RequestRejected)
      case Resolved(routes) =>
        if |routes| == 0 then Err(RouteMissing)
        else Ok(Assemble(intent.city, details, routes[0], intent.endTime))
  }

  /** The timeline of a returned itinerary has one entry per leg of the first
      route OSRM gave for the path through the enriched destinations. */
  lemma PlanTimeline(intent: Intent, svc: Services, numberText: real -> string)
    requires Plan(intent, svc, numberText).Ok?
    ensures var it := Plan(intent, svc, numberText).value;
      && svc.osrm(RoutePath(it.destinations, numberText)).Resolved?
      && var routes := svc.osrm(RoutePath(it.destinations, numberText)).data;
         && |routes| > 0
         && it.timeline == Timeline(it.destinations, routes[0].legs)
         && it.totalDistance == ToFixed2(routes[0].distance / 1000.0)
  {
  }

  /** The request succeeds exactly when every destination's lookups resolve,
      the routing call resolves, and it returns at least one route. */
  lemma PlanSucceeds(intent: Intent, svc: Services, numberText: real -> string)
    ensures Plan(intent, svc, numberText).Ok? <==>
      && (forall k :: 0 <= k < |intent.destinations| ==>
            EnrichDestination(svc, intent.city, intent.destinations[k]).Resolved?)
      && var details := EnrichAll(svc, intent.city, intent.destinations).data;
         svc.osrm(RoutePath(details, numberText)).Resolved?
         && |svc.osrm(RoutePath(details, numberText)).data| > 0
  {
  }

  /** Every entry of a returned itinerary has a truthy weather, so each timeline
      entry shows the weather of the destination it names, or "Unknown" past the
      last one. */
  lemma PlanTimelineWeather(intent: Intent, svc: Services, numberText: real -> string, i: nat)
    requires Plan(intent, svc, numberText).Ok?
    requires i < |Plan(intent, svc, numberText).value.timeline|
    ensures var it := Plan(intent, svc, numberText).value;
      it.timeline[i].weather ==
        (if i + 1 < |it.destinations| then it.destinations[i + 1].weather else UnknownWeather)
  {
    var it := Plan(intent, svc, numberText).value;
    var details := EnrichAll(svc, intent.city, intent.destinations).data;
    assert it.destinations == details;
    forall k | 0 <= k < |details|
      ensures WeatherTruthy(details[k].weather)
    {
      var dest := intent.destinations[k];
      var elements := svc.overpass(dest, intent.city).data;
      var hits := svc.nominatim(GeocodeQuery(PoiTags(elements, dest), intent.city)).data;
      EnrichedFieldsTruthy(dest, elements, hits, svc.openMeteo(CoordinatesOf(hits)).data);
    }
    var routes := svc.osrm(RoutePath(details, numberText)).data;
    TimelineWeather(details, routes[0].legs, i);
  }
}
