# Day-trip itinerary route: a Dafny model

This project models the data shaping of the `POST` handler in the chat API route
of a day-trip planner. A language model turns a free-text request into
`{ city, destinations, endTime }`. The handler then does three things:

- It enriches each destination from three services. Overpass gives a point of
  interest, Nominatim gives coordinates and Open-Meteo gives the current weather
  code.
- It asks OSRM for a driving route through the `lng,lat` waypoints of all
  destinations.
- It assembles an itinerary: the enriched destinations, one timeline entry per
  route leg, and the total distance in kilometres.

The model is pure: datatypes, functions and lemmas. It has four modules:

- `JsText` (`js_text.dfy`) holds the JavaScript semantics the handler relies on:
  `||` on optional strings, template-literal rendering of `undefined`, integer to
  decimal text, `Math.round`, `toFixed(2)`, `join(';')` and its inverse `split`.
- `Enrichment` (`enrichment.dfy`) holds the per-destination merge with its
  fallbacks.
- `Itinerary` (`itinerary.dfy`) holds the OSRM waypoint path, the timeline and the
  itinerary object.
- `ChatRoute` (`chat_route.dfy`) holds the handler after the language model has
  answered. The four HTTP services are function-valued parameters. Each call
  either resolves with the part of the response the handler reads or is rejected.

The handler has no `try`/`catch`. Three consequences follow, and the model keeps
them:

- One rejected lookup for any destination rejects `Promise.all`, so the whole
  request fails.
- OSRM is asked for a path through every destination. A destination without
  coordinates contributes the waypoint `undefined,undefined`.
- An OSRM answer with no route makes `route.legs` throw.

JavaScript truthiness is kept throughout:

- An empty POI name falls back to the raw destination name.
- An empty address falls back to "Unknown".
- Weather code 0 (clear sky) is falsy, so it is reported as "Unknown".
- An empty destination name shows as "Return" in the timeline.

The Nominatim query is built from the POI's own `name` tag, not from the fallback
name. An Overpass element without a name tag is therefore looked up as
`undefined, <city>`.

## Model

| member | source | states |
|---|---|---|
| `JsText.OrElse` | app/api/chat/route.ts:40 | `v \|\| fallback` returns a truthy `v` and otherwise the fallback; it is one of its two operands and truthy exactly when either operand is, so a non-empty fallback never yields an empty field |
| `JsText.NatText` | app/api/chat/route.ts:55 | a non-negative integer renders as a non-empty string of decimal digits with no leading zero |
| `JsText.NatTextRoundTrip` | app/api/chat/route.ts:55 | reading the rendered digits back gives the rendered number |
| `JsText.NatTextInjective` | app/api/chat/route.ts:55 | different numbers render differently |
| `JsText.Round` | app/api/chat/route.ts:55 | `Math.round(x)` is within half a unit of x, and halves go up |
| `JsText.RoundUnique` | app/api/chat/route.ts:55 | no other integer meets that closeness condition |
| `JsText.ToFixed2` | app/api/chat/route.ts:59 | `toFixed(2)` gives digits with no leading zero, a point, then exactly two digits |
| `JsText.ToFixed2Reads` | app/api/chat/route.ts:59 | the `toFixed(2)` text reads back as the hundredths closest to x |
| `JsText.SplitJoin` | app/api/chat/route.ts:45 | joining separator-free pieces with `;` and splitting on `;` gives back the pieces, in order |
| `JsText.JoinSeparators` | app/api/chat/route.ts:45 | a join of n separator-free pieces holds exactly n - 1 separators |
| `Enrichment.GeocodeQueryName` | app/api/chat/route.ts:25-40 | the Nominatim query is the reported name, a comma, a space and the city when there is no POI or its name tag is truthy; a POI without a name tag is looked up as "undefined, <city>", and one with an empty name tag as ", <city>", while the entry reports the raw destination |
| `Enrichment.WeatherOf` | app/api/chat/route.ts:38 | the weather is "Unknown" exactly when the code is missing or 0; otherwise it is the code, so it is always truthy |
| `Enrichment.Enrich` | app/api/chat/route.ts:25-40 | name is the POI's truthy name, else the raw destination; address is the POI's truthy address, else "Unknown"; coordinates are empty exactly when the geocoder found nothing; weather is the non-zero code, else "Unknown" |
| `Enrichment.EnrichedFieldsTruthy` | app/api/chat/route.ts:38-40 | an enriched entry has a truthy weather and a non-empty address, and its name is empty only when the raw destination was |
| `Enrichment.NothingFound` | app/api/chat/route.ts:25-40 | with no POI, no hit and no code, the entry is (destination, "Unknown", no coordinates, "Unknown") |
| `Enrichment.ClearSkyIsUnknown` | app/api/chat/route.ts:38 | weather code 0 becomes "Unknown" |
| `Itinerary.Waypoint` | app/api/chat/route.ts:45 | a waypoint is `lng,lat`, or `undefined,undefined` for empty coordinates; it never holds `;` |
| `Itinerary.Waypoints` | app/api/chat/route.ts:45 | there is one waypoint per destination, and waypoint k comes from destination k |
| `Itinerary.RoutePath` | app/api/chat/route.ts:45 | an empty destination list gives the empty path, and a single destination gives its lone waypoint |
| `Itinerary.RoutePathWaypoints` | app/api/chat/route.ts:45 | the OSRM path splits on `;` back into the destinations' waypoints in order, with n - 1 separators for n destinations |
| `Itinerary.TransitText` | app/api/chat/route.ts:55 | the transit time is a digit string with no leading zero followed by " minutes" |
| `Itinerary.TransitTextReads` | app/api/chat/route.ts:55 | the transit time reads back as the whole number of minutes closest to the leg's duration |
| `Itinerary.Timeline` | app/api/chat/route.ts:53-58 | there is one entry per leg, in leg order. Entry i names destination i+1 when it exists with a non-empty name, else "Return". It carries that destination's truthy weather, else "Unknown". Its transit time comes from leg i and its dwell time is "1 hour" |
| `Itinerary.TimelineWeather` | app/api/chat/route.ts:57 | for enriched destinations, entry i has destination i+1's weather, or "Unknown" past the end |
| `Itinerary.TimelineReturn` | app/api/chat/route.ts:54 | with non-empty names other than "Return", an entry says "Return" exactly when i+1 is past the last destination |
| `Itinerary.TimelineVisitsInOrder` | app/api/chat/route.ts:53-54 | with n-1 legs for n named destinations, entry i names destination i+1 |
| `Itinerary.Assemble` | app/api/chat/route.ts:50-61 | city and endTime pass through unchanged; `destinations` is the enriched list itself; the timeline is the leg-by-leg map of `Timeline` over the route's legs; totalDistance is `toFixed(2)` of meters / 1000 |
| `Itinerary.LisbonExample` | app/api/chat/route.ts:50-61 | two destinations with legs of 600 s and 900 s over 5000 m give the timeline [Aquarium, 10 minutes; Return, 15 minutes, "Unknown"] and "5.00" km |
| `ChatRoute.EnrichDestination` | app/api/chat/route.ts:19-41 | a destination resolves exactly when Overpass, Nominatim (asked with the POI's name) and Open-Meteo (asked with the coordinates found) all resolve; the entry is then the merge of their answers |
| `ChatRoute.EnrichAll` | app/api/chat/route.ts:18-19 | `Promise.all` resolves exactly when every destination does. Its result has one entry per destination, and entry k is destination k's enrichment |
| `ChatRoute.Plan` | app/api/chat/route.ts:18-61 | city and endTime pass through, and there is one enriched entry per requested destination in order. One rejected lookup anywhere fails the whole request |
| `ChatRoute.PlanTimeline` | app/api/chat/route.ts:45-59 | the timeline and distance come from the first route OSRM returned for the path through the enriched destinations |
| `ChatRoute.PlanSucceeds` | app/api/chat/route.ts:18-53 | the request succeeds exactly when every lookup resolves, the routing call resolves and it returns at least one route |
| `ChatRoute.PlanTimelineWeather` | app/api/chat/route.ts:38-57 | in a returned itinerary, each timeline entry shows the weather of the destination it names, or "Unknown" past the last one |

## Left out

- The language-model call and its system prompt (app/api/chat/route.ts:8-13) are left out. They are a foreign service, so the parsed `{ city, destinations, endTime }` is the model's input.
- `JSON.parse` of the model's reply (app/api/chat/route.ts:15) is left out. The reply is taken as a well-formed record of strings.
- The HTTP calls to Overpass, Nominatim, Open-Meteo and OSRM are not modelled as I/O. Each is a function from the request's varying part to a `Reply`, and a rejection covers network errors and non-2xx statuses.
- The Overpass query string (app/api/chat/route.ts:21) is not built. The POI service is keyed by destination and city instead.
- `Promise.all` concurrency and the order in which requests go out are not modelled. Only the order-preserving, all-or-nothing result is.
- `parseFloat` of Nominatim's `lat`/`lon` is folded into the geocoding service, which returns numbers.
- JavaScript's Number-to-text rendering of coordinates is a parameter, `numberText`. Only the absence of `,` and `;` in its output is assumed.
- JsText.Round: durations are exact non-negative reals, so IEEE-754 rounding of `duration / 60` is not modelled.
- Itinerary.TransitText: exact reals as for JsText.Round, and the exponent notation JavaScript uses at or above 1e21 is not modelled.
- JsText.ToFixed2: distances are exact non-negative reals. The double nearest to `distance / 1000` can fall on the other side of a half-hundredth than the exact quotient, and this is not modelled. Exponent notation at or above 1e21 is not modelled either.
- Itinerary.Assemble: its distance text carries the same exact-real simplification as JsText.ToFixed2.
- Response fields of the wrong JSON type (a non-array `destinations`, a non-string tag) are left out. Malformed service bodies (a missing `elements` or `routes` array) are left out as well.
- `Response.json` and `req.json()` (app/api/chat/route.ts:6, 63) are transport and are left out.
- ai/providers.ts is provider configuration with no logic and is left out.
- Re-running the handler with the same service answers gives the same itinerary. This holds because every member is a mathematical function, so there is no separate lemma for it.
