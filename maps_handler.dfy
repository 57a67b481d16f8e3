/** The Google Maps side of the backend: `search_places` (a Places Text
    Search whose HTTP exchange is the parameter `fetch`) and the two link
    builders `generate_map_embed` and `generate_directions_link`. */
module MapsHandler {
  import opened Wrappers
  import opened Text

  /** Query parameters of an HTTP request, as the dict handed to `requests.get`. */
  type Params = map<string, string>

  /** An HTTP response: status code, body text, and the outcome of `resp.json()`. */
  datatype HttpResponse<J> = HttpResponse(code: int, text: string, json: Result<J>)

  /** One entry of the Places `results` array. Each field may be absent; the
      coordinates are `geometry.location.lat` / `.lng`, and every value is held
      as the text Python prints for it. */
  datatype RawPlace = RawPlace(
    name: Option<string>,
    formattedAddress: Option<string>,
    placeId: Option<string>,
    lat: Option<string>,
    lng: Option<string>,
    rating: Option<string>)

  /** The decoded Places response: its `status` and `results` keys, each possibly absent. */
  datatype PlacesJson = PlacesJson(status: Option<string>, results: Option<seq<RawPlace>>)

  /** A place as `search_places` emits it: a dict that always has all five keys. */
  datatype Place = Place(
    name: Option<string>,
    address: Option<string>,
    lat: Option<string>,
    lng: Option<string>,
    rating: Option<string>)

  /** What an f-string prints for a JSON value: its text, or `None`. */
  function Render(v: Option<string>): string
  {
    match v
    case None => "None"
    case Some(t) => t
  }

  /** `if not API_KEY`: the key is unset or empty. */
  predicate HasKey(apiKey: Option<string>)
  {
    apiKey.Some? && apiKey.value != ""
  }

  /** `data.get("results", [])`. */
  function ResultsOf(data: PlacesJson): seq<RawPlace>
  {
    if data.results.Some? then data.results.value else []
  }

  /** `xs[:n]`. */
  function Take<T>(xs: seq<T>, n: nat): (r: seq<T>)
    ensures |r| == if |xs| < n then |xs| else n
    ensures forall i :: 0 <= i < |r| ==> r[i] == xs[i]
  {
    if |xs| < n then xs else xs[..n]
  }

  /** The dict built for one raw result. */
  function Project(raw: RawPlace): Place
  {
    Place(raw.name, raw.formattedAddress, raw.lat, raw.lng, raw.rating)
  }

  const MissingKeyMessage := "GOOGLE_MAPS_KEY not set"
  const MaxPlaces := 3

  /** `search_places(query, location)`. Besides its result it returns the query
      parameters of the request it issued, or `None` when it raised before
      building one. `Ok(None)` is the function's `None`: nothing was found. */
  method SearchPlaces(query: string, location: string, apiKey: Option<string>,
                      fetch: Params -> Result<HttpResponse<PlacesJson>>)
    returns (sent: Option<Params>, r: Result<Option<seq<Place>>>)
    ensures !HasKey(apiKey) <==> sent.None?
    ensures !HasKey(apiKey) ==> r == Err(MissingKeyMessage)
    ensures sent.Some? ==> "query" in sent.value && sent.value["query"] == query
    ensures sent.Some? ==> "key" in sent.value && sent.value["key"] == apiKey.value
    ensures sent.Some? ==> ("location" in sent.value <==> location != "")
    ensures sent.Some? && location != "" ==> sent.value["location"] == location
    ensures sent.Some? ==> sent.value.Keys <= {"query", "key", "location"}
    ensures sent.Some? && fetch(sent.value).Err? ==> r == Err(fetch(sent.value).msg)
    ensures sent.Some? && fetch(sent.value).Ok? && fetch(sent.value).value.code != 200
            ==> r == Err("API error: " + fetch(sent.value).value.text)
    ensures sent.Some? && fetch(sent.value).Ok? && fetch(sent.value).value.code == 200
            && fetch(sent.value).value.json.Err?
            ==> r == Err(fetch(sent.value).value.json.msg)
    ensures sent.Some? && fetch(sent.value).Ok? && fetch(sent.value).value.code == 200
            && fetch(sent.value).value.json.Ok?
            ==> var data := fetch(sent.value).value.json.value;
                (data.status != Some("OK") && data.status != Some("ZERO_RESULTS")
                 ==> r == Err("Places API error: " + Render(data.status)))
                && (data.status == Some("OK") || data.status == Some("ZERO_RESULTS") ==> r.Ok?)
    ensures r.Ok? ==> sent.Some? && fetch(sent.value).Ok? && fetch(sent.value).value.json.Ok?
    ensures r.Ok? ==> var results := ResultsOf(fetch(sent.value).value.json.value);
                      (r.value.None? <==> results == [])
                      && (r.value.Some? ==>
                            |r.value.value| == (if |results| < MaxPlaces then |results| else MaxPlaces)
                            && forall i :: 0 <= i < |r.value.value| ==> r.value.value[i] == Project(results[i]))
  {
    if !HasKey(apiKey) {
      return None, Err(MissingKeyMessage);
    }
    var params := map["query" := query, "key" := apiKey.value];
    if location != "" {
      params := params["location" := location];
    }
    sent := Some(params);
    var response := fetch(params);
    if response.Err? {
      return sent, Err(response.msg);
    }
    if response.value.code != 200 {
      return sent, Err("API error: " + response.value.text);
    }
    if response.value.json.Err? {
      return sent, Err(response.value.json.msg);
    }
    var data := response.value.json.value;
    if data.status != Some("OK") && data.status != Some("ZERO_RESULTS") {
      return sent, Err("Places API error: " + Render(data.status));
    }
    var top := Take(ResultsOf(data), MaxPlaces);
    var places: seq<Place> := [];
    for i := 0 to |top|
      invariant |places| == i
      invariant forall k :: 0 <= k < i ==> places[k] == Project(top[k])
    {
      places := places + [Project(top[i])];
    }
    r := Ok(if places != [] then Some(places) else None);
  }

  const EmbedViewBase := "https://www.google.com/maps/embed/v1/view?key="

  /** `generate_map_embed(lat, lng, zoom, width, height)`: an iframe whose source
      is the Embed API view centred on `lat,lng`. The key is the module's
      `API_KEY`, printed as `None` when unset. */
  function GenerateMapEmbed(apiKey: Option<string>, lat: string, lng: string,
                            zoom: int := 15, width: int := 600, height: int := 400): (r: string)
    ensures Contains(r, "&center=" + lat + "," + lng + "&zoom=" + IntToString(zoom) + "\"")
    ensures Contains(r, "width=\"" + IntToString(width) + "\" height=\"" + IntToString(height) + "\"")
  {
    var center := "&center=" + lat + "," + lng + "&zoom=" + IntToString(zoom);
    var embedUrl := EmbedViewBase + Render(apiKey) + center;
    var size := "width=\"" + IntToString(width) + "\" height=\"" + IntToString(height) + "\"";
    var tail := " frameborder=\"0\" style=\"border:0\" allowfullscreen></iframe>";
    var r := "<iframe src=\"" + embedUrl + "\" " + size + tail;
    var head, base := "<iframe src=\"", EmbedViewBase + Render(apiKey);
    assert head + (base + center) + "\" " + size + tail == (head + base) + (center + "\"") + (" " + size + tail);
    ContainsMiddle("<iframe src=\"" + (EmbedViewBase + Render(apiKey)), center + "\"", " " + size + tail);
    ContainsMiddle("<iframe src=\"" + embedUrl + "\" ", size, tail);
    r
  }

  lemma ContainsMiddle(a: string, w: string, b: string)
    ensures Contains(a + w + b, w)
  {
    assert OccursAt(a + w + b, |a|, w);
  }

  /** With no sizes given, the embed uses zoom 15 and a 600 by 400 frame. */
  lemma MapEmbedDefaults(apiKey: Option<string>, lat: string, lng: string)
    ensures Contains(GenerateMapEmbed(apiKey, lat, lng), "&center=" + lat + "," + lng + "&zoom=" + "15" + "\"")
    ensures Contains(GenerateMapEmbed(apiKey, lat, lng), "width=\"" + "600" + "\" height=\"" + "400" + "\"")
  {
    assert IntToString(15) == "15";
    assert IntToString(600) == "600" by { assert NatToString(60) == "60"; }
    assert IntToString(400) == "400" by { assert NatToString(40) == "40"; }
  }

  const DirectionsBase := "https://www.google.com/maps/dir/?api=1&origin="
  const DestinationKey := "&destination="

  /** A Google Maps directions URL; origin and destination are inserted
      verbatim, without URL encoding. */
  function DirectionsUrl(origin: string, destination: string): (r: string)
    ensures |r| == |DirectionsBase| + |origin| + |DestinationKey| + |destination|
    ensures r[..|DirectionsBase|] == DirectionsBase
    ensures r[|DirectionsBase|..|DirectionsBase| + |origin|] == origin
    ensures r[|DirectionsBase| + |origin|..|r| - |destination|] == DestinationKey
    ensures r[|r| - |destination|..] == destination
  {
    DirectionsBase + origin + DestinationKey + destination
  }

  /** `generate_directions_link(origin, destination)`: directions from `origin`
      to the place's coordinates `lat,lng`. */
  function GenerateDirectionsLink(origin: string, destination: Place): (r: string)
    ensures var d := Render(destination.lat) + "," + Render(destination.lng);
      |d| <= |r| && r[|r| - |d|..] == d &&
      ('&' !in origin ==> ParseDirectionsUrl(r) == Some((origin, d)))
  {
    var d := Render(destination.lat) + "," + Render(destination.lng);
    assert '&' !in origin ==> ParseDirectionsUrl(DirectionsUrl(origin, d)) == Some((origin, d)) by {
      if '&' !in origin { DirectionsUrlRoundTrip(origin, d); }
    }
    DirectionsUrl(origin, d)
  }

  /** The prefix of `s` before the first `c` (all of `s` when there is none). */
  function TakeUntil(s: string, c: char): (r: string)
    ensures |r| <= |s| && r == s[..|r|] && c !in r
    ensures |r| == |s| || s[|r|] == c
  {
    if s == [] || s[0] == c then [] else [s[0]] + TakeUntil(s[1..], c)
  }

  lemma {:induction false} TakeUntilPrefix(a: string, c: char, b: string)
    requires c !in a
    ensures TakeUntil(a + [c] + b, c) == a
  {
    if a != [] {
      assert (a + [c] + b)[1..] == a[1..] + [c] + b;
      TakeUntilPrefix(a[1..], c, b);
    }
  }

  /** Reads origin and destination back out of a directions URL: the origin
      runs to the first `&`. */
  function ParseDirectionsUrl(u: string): Option<(string, string)>
  {
    if |u| < |DirectionsBase| || u[..|DirectionsBase|] != DirectionsBase then None
    else
      var rest := u[|DirectionsBase|..];
      var origin := TakeUntil(rest, '&');
      var after := rest[|origin|..];
      if |after| < |DestinationKey| || after[..|DestinationKey|] != DestinationKey then None
      else Some((origin, after[|DestinationKey|..]))
  }

  /** An origin free of `&` is recovered exactly from the link, with the
      destination after it. */
  lemma DirectionsUrlRoundTrip(origin: string, destination: string)
    requires '&' !in origin
    ensures ParseDirectionsUrl(DirectionsUrl(origin, destination)) == Some((origin, destination))
  {
    var u := DirectionsUrl(origin, destination);
    var rest := u[|DirectionsBase|..];
    assert rest == origin + ['&'] + ("destination=" + destination);
    TakeUntilPrefix(origin, '&', "destination=" + destination);
    assert rest[|origin|..] == DestinationKey + destination;
  }

  /** Without URL encoding, an origin that itself holds `&destination=` makes
      two different requests produce the same link. */
  lemma DirectionsUrlAmbiguous(a: string, b: string, c: string)
    ensures (a + DestinationKey + b, c) != (a, b + DestinationKey + c)
    ensures DirectionsUrl(a + DestinationKey + b, c) == DirectionsUrl(a, b + DestinationKey + c)
  {
    assert DirectionsBase + (a + DestinationKey + b) + DestinationKey + c
        == DirectionsBase + a + DestinationKey + (b + DestinationKey + c);
  }
}
