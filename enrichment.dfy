/** The per-destination merge inside `destinations.map(async (dest) => ...)`:
    from what the POI, geocoding and weather services answered for one
    destination, build `{ name, address, coordinates, weather }` with the
    route's `||` fallbacks. */
module Enrichment {
  import opened JsText

  /** The `tags` of an Overpass element: its `name` and `address`, each possibly missing. */
  datatype Tags = Tags(name: Option<string>, address: Option<string>)

  /** One Nominatim search hit, its `lat` and `lon` already read as numbers. */
  datatype Hit = Hit(lat: real, lon: real)

  /** `{ lat, lng }`, or the empty object `{}` when the geocoder found nothing. */
  datatype Coordinates = NoCoordinates | LatLng(lat: real, lng: real)

  /** A WMO weather code as Open-Meteo reports it, or the string "Unknown". */
  datatype Weather = WeatherCode(code: int) | UnknownWeather

  /** One entry of `destinationDetails`. */
  datatype Destination = Destination(name: string, address: string, coordinates: Coordinates, weather: Weather)

  const UnknownAddress := "Unknown"

  /** JavaScript truthiness of a `weather` value: a code is falsy when it is 0,
      the string "Unknown" is truthy. */
  predicate WeatherTruthy(w: Weather) {
    w.WeatherCode? ==> w.code != 0
  }

  /** `overpassResponse.data.elements[0] || { tags: { name: dest } }`, as its tags. */
  function PoiTags(elements: seq<Tags>, dest: string): (poi: Tags)
  {
    if |elements| > 0 then elements[0] else Tags(Some(dest), None)
  }

  /** The Nominatim query `${poi.tags.name}, ${city}`: it uses the POI's own
      name tag, so a nameless element is looked up as "undefined, <city>". */
  function GeocodeQuery(poi: Tags, city: string): (q: string)
  {
    TemplateText(poi.name) + ", " + city
  }

  /** `nominatimResponse.data[0] ? { lat, lng } : {}`. */
  function CoordinatesOf(hits: seq<Hit>): (c: Coordinates)
  {
    if |hits| > 0 then LatLng(hits[0].lat, hits[0].lon) else NoCoordinates
  }

  /** `weatherResponse.data.current_weather?.weathercode || 'Unknown'`, where
      `current` is the code, or None when `current_weather` or its code is missing. */
  function WeatherOf(current: Option<int>): (w: Weather)
    ensures WeatherTruthy(w)
    ensures w == UnknownWeather <==> current.None? || current.value == 0
    ensures w != UnknownWeather ==> w == WeatherCode(current.value)
  {
    if current.Some? && current.value != 0 then WeatherCode(current.value) else UnknownWeather
  }

  /** The object the per-destination callback returns, given the three answers. */
  function Enrich(dest: string, elements: seq<Tags>, hits: seq<Hit>, current: Option<int>): (d: Destination)
    // name: the POI's name when there is a POI and its name is truthy, else the raw destination
    ensures d.name == (if |elements| > 0 && Truthy(elements[0].name) then elements[0].name.value else dest)
    // address: the POI's address when truthy, else "Unknown"
    ensures d.address == (if |elements| > 0 && Truthy(elements[0].address) then elements[0].address.value else UnknownAddress)
    // coordinates: empty exactly when the geocoder had no first hit
    ensures d.coordinates.NoCoordinates? <==> |hits| == 0
    ensures |hits| > 0 ==> d.coordinates == LatLng(hits[0].lat, hits[0].lon)
    // weather: the code when present and non-zero, else "Unknown"
    ensures d.weather == (if current.Some? && current.value != 0 then WeatherCode(current.value) else UnknownWeather)
  {
    var poi := PoiTags(elements, dest);
    Destination(OrElse(poi.name, dest), OrElse(poi.address, UnknownAddress), CoordinatesOf(hits), WeatherOf(current))
  }

  /** An enriched entry's weather is always truthy, and its name is empty only
      when the raw destination was. */
  lemma EnrichedFieldsTruthy(dest: string, elements: seq<Tags>, hits: seq<Hit>, current: Option<int>)
    ensures WeatherTruthy(Enrich(dest, elements, hits, current).weather)
    ensures Enrich(dest, elements, hits, current).name == "" ==> dest == ""
    ensures Enrich(dest, elements, hits, current).address != ""
  {
  }

  /** The geocoder is asked about the name the entry reports when there is no
      POI or the POI's name tag is truthy; a POI without a name tag is looked up
      as "undefined, <city>", and one with an empty name tag as ", <city>",
      although the entry reports the raw destination. */
  lemma GeocodeQueryName(dest: string, city: string, elements: seq<Tags>, hits: seq<Hit>, current: Option<int>)
    ensures var q := GeocodeQuery(PoiTags(elements, dest), city);
      var d := Enrich(dest, elements, hits, current);
      && ((|elements| == 0 || Truthy(elements[0].name)) ==> q == d.name + ", " + city)
      && ((|elements| > 0 && elements[0].name.None?) ==> q == "undefined, " + city && d.name == dest)
      && ((|elements| > 0 && elements[0].name == Some("")) ==> q == ", " + city && d.name == dest)
  {
  }

  /** When every lookup came back empty the entry is the fully degraded one. */
  lemma NothingFound(dest: string)
    ensures Enrich(dest, [], [], None) == Destination(dest, "Unknown", NoCoordinates, UnknownWeather)
  {
  }

  /** Open-Meteo's code 0 (clear sky) is falsy, so it is reported as "Unknown". */
  lemma ClearSkyIsUnknown(dest: string, elements: seq<Tags>, hits: seq<Hit>)
    ensures Enrich(dest, elements, hits, Some(0)).weather == UnknownWeather
  {
  }
}
