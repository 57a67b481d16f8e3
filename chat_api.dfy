/** The HTTP endpoints of the backend (`main.py`): `/chat`, `/search`,
    `/directions` and `/embed/{place_id}`. Framework plumbing is reduced to
    status codes: an endpoint either answers with a body or raises an
    `HTTPException` with a status and a detail. */
module ChatApi {
  import opened Wrappers
  import opened Text
  import opened LlmHandler
  import opened MapsHandler

  /** The body of a `/chat` request; `user_location` defaults to "". */
  datatype ChatRequest = ChatRequest(prompt: string, userLocation: string)

  /** What an endpoint gives back: its body, or an `HTTPException`. */
  datatype Reply<T> = Success(body: T) | HttpException(status: int, detail: string)

  /** The detail FastAPI reports for an exception no handler catches. */
  const InternalError := "Internal Server Error"

  const NoPlacesNotice := "\nNo places found\U{2014}try a different query!"
  const Star := "\U{2B50}"

  /** `request.user_location or "current location"`. */
  function Origin(userLocation: string): (r: string)
    ensures r != []
    ensures userLocation != "" ==> r == userLocation
    ensures userLocation == "" ==> r == "current location"
  {
    if userLocation == "" then "current location" else userLocation
  }

  /** The block `chat` appends for the top place. `place.get('rating', '-')`
      is `Render(place.rating)`: the dict always has a `rating` key, so the
      dash is never used and a missing rating prints as `None`. */
  function TopSpot(place: Place, origin: string, mapsKey: Option<string>): string
  {
    "\n\nTop spot: " + Render(place.name) + " (" + Render(place.rating) + Star + ")\n"
    + GenerateMapEmbed(mapsKey, Render(place.lat), Render(place.lng))
    + "\n[Directions](" + GenerateDirectionsLink(origin, place) + ")"
  }

  /** The block names the place and shows its rating, `None` when it has none. */
  lemma TopSpotNamesPlace(place: Place, origin: string, mapsKey: Option<string>)
    ensures "\n\nTop spot: " + Render(place.name) + " (" + Render(place.rating) + Star + ")\n"
            <= TopSpot(place, origin, mapsKey)
    ensures place.rating.None? ==>
              "\n\nTop spot: " + Render(place.name) + " (" + "None" + Star + ")\n"
              <= TopSpot(place, origin, mapsKey)
  {
    var head := "\n\nTop spot: " + Render(place.name) + " (" + Render(place.rating) + Star + ")\n";
    var rest := GenerateMapEmbed(mapsKey, Render(place.lat), Render(place.lng))
      + "\n[Directions](" + GenerateDirectionsLink(origin, place) + ")";
    assert TopSpot(place, origin, mapsKey) == head + rest;
  }

  /** The block ends with a directions link to the place's coordinates. */
  lemma TopSpotEndsWithDirections(place: Place, origin: string, mapsKey: Option<string>)
    ensures var link := DirectionsUrl(origin, Render(place.lat) + "," + Render(place.lng));
            var t := TopSpot(place, origin, mapsKey);
            |t| >= |link| + 1 && t[|t| - |link| - 1..] == link + ")"
  {
  }

  /** `chat`: the model's reply to the prompt, followed, for a location
      query, by the top place found or by a notice that none was. The model
      call, the refinement and the place search are the parameters `llm` and
      `searchPlaces`; any exception they raise becomes a 500 whose detail is
      the exception's message, and no partial reply is given. */
  method Chat(request: ChatRequest, mapsKey: Option<string>,
              llm: string -> Result<string>,
              searchPlaces: (string, string) -> Result<Option<seq<Place>>>)
    returns (r: Reply<string>)
    ensures llm(request.prompt).Err? ==> r == HttpException(500, llm(request.prompt).msg)
    ensures llm(request.prompt).Ok? && !IsLocationQuery(request.prompt)
            ==> r == Success(llm(request.prompt).value)
    ensures r.Success? ==> llm(request.prompt).Ok? && llm(request.prompt).value <= r.body
    ensures r.HttpException? ==> r.status == 500
    ensures llm(request.prompt).Ok? && IsLocationQuery(request.prompt) ==>
              var base := llm(request.prompt).value;
              match RefineSearchQuery(request.prompt, llm)
              case Err(e) => r == HttpException(500, e)
              case Ok(query) =>
                match searchPlaces(query, request.userLocation)
                case Err(e) => r == HttpException(500, e)
                case Ok(found) =>
                  if found.Some? && found.value != [] then
                    r == Success(base + TopSpot(found.value[0], Origin(request.userLocation), mapsKey))
                  else
                    r == Success(base + NoPlacesNotice)
  {
    var prompt := request.prompt;
    var reply := llm(prompt);
    if reply.Err? {
      return HttpException(500, reply.msg);
    }
    var response := reply.value;
    if IsLocationQuery(prompt) {
      var searchQ := RefineSearchQuery(prompt, llm);
      if searchQ.Err? {
        return HttpException(500, searchQ.msg);
      }
      var placesData := searchPlaces(searchQ.value, request.userLocation);
      if placesData.Err? {
        return HttpException(500, placesData.msg);
      }
      if placesData.value.Some? && placesData.value.value != [] {
        var place := placesData.value.value[0];
        response := response + TopSpot(place, Origin(request.userLocation), mapsKey);
      } else {
        response := response + NoPlacesNotice;
      }
    }
    return Success(response);
  }

  // ---------------------------------------------------------------------
  // /search

  /** One entry of the `/search` answer. */
  datatype SearchResult = SearchResult(
    name: Option<string>,
    address: Option<string>,
    placeId: Option<string>,
    lat: Option<string>,
    lng: Option<string>,
    mapsLink: string,
    embedUrl: string)

  const MaxSearchResults := 5
  const PlaceEmbedBase := "https://www.google.com/maps/embed/v1/place?key="
  const PlaceIdKey := "&q=place_id:"

  /** The Embed API URL that shows one place by its id. */
  function PlaceEmbedUrl(key: string, placeId: string): (r: string)
    ensures |r| == |PlaceEmbedBase| + |key| + |PlaceIdKey| + |placeId|
    ensures r[..|PlaceEmbedBase|] == PlaceEmbedBase
    ensures r[|PlaceEmbedBase|..|PlaceEmbedBase| + |key|] == key
    ensures r[|PlaceEmbedBase| + |key|..|r| - |placeId|] == PlaceIdKey
    ensures r[|r| - |placeId|..] == placeId
  {
    PlaceEmbedBase + key + PlaceIdKey + placeId
  }

  /** The answer entry for one raw Places result. */
  function ToSearchResult(raw: RawPlace, key: string): SearchResult
  {
    SearchResult(raw.name, raw.formattedAddress, raw.placeId, raw.lat, raw.lng,
                 "https://www.google.com/maps/search/?api=1&query=" + Render(raw.lat) + "," + Render(raw.lng),
                 PlaceEmbedUrl(key, Render(raw.placeId)))
  }

  /** `/search?query=`: the first five Places results in upstream order. Only
      the HTTP code is checked; unlike `search_places`, the API `status` is
      ignored. The framework rejects an empty query before the handler runs. */
  method SearchEndpoint(query: string, key: string, fetch: Params -> Result<HttpResponse<PlacesJson>>)
    returns (r: Reply<seq<SearchResult>>)
    requires query != ""
    ensures var resp := fetch(map["query" := query, "key" := key]);
            (resp.Err? ==> r == HttpException(500, InternalError))
            && (resp.Ok? && resp.value.code != 200 ==> r == HttpException(502, "Google Places API error"))
            && (resp.Ok? && resp.value.code == 200 && resp.value.json.Err? ==> r == HttpException(500, InternalError))
            && (r.Success? <==> resp.Ok? && resp.value.code == 200 && resp.value.json.Ok?)
    ensures r.Success? ==>
              var results := ResultsOf(fetch(map["query" := query, "key" := key]).value.json.value);
              |r.body| == (if |results| < MaxSearchResults then |results| else MaxSearchResults)
              && forall i :: 0 <= i < |r.body| ==> r.body[i] == ToSearchResult(results[i], key)
  {
    var params := map["query" := query, "key" := key];
    var resp := fetch(params);
    if resp.Err? {
      return HttpException(500, InternalError);
    }
    if resp.value.code != 200 {
      return HttpException(502, "Google Places API error");
    }
    if resp.value.json.Err? {
      return HttpException(500, InternalError);
    }
    var top := Take(ResultsOf(resp.value.json.value), MaxSearchResults);
    var results: seq<SearchResult> := [];
    for i := 0 to |top|
      invariant |results| == i
      invariant forall k :: 0 <= k < i ==> results[k] == ToSearchResult(top[k], key)
    {
      results := results + [ToSearchResult(top[i], key)];
    }
    return Success(results);
  }

  // ---------------------------------------------------------------------
  // /directions

  /** One entry of the Directions `routes` array: `overview_polyline.points`, if present. */
  datatype Route = Route(overviewPolyline: Option<string>)

  /** The decoded Directions response: its `routes` key, possibly absent. */
  datatype DirectionsJson = DirectionsJson(routes: Option<seq<Route>>)

  /** The `/directions` answer. */
  datatype Directions = Directions(overviewPolyline: Option<string>, mapsLink: string)

  /** `/directions?origin=&destination=`: 502 when the upstream HTTP code is not
      200, 404 when there is no route, otherwise the first route's polyline
      and a link with origin and destination inserted verbatim. */
  function DirectionsEndpoint(origin: string, destination: string, key: string,
                              fetch: Params -> Result<HttpResponse<DirectionsJson>>): (r: Reply<Directions>)
    ensures var resp := fetch(map["origin" := origin, "destination" := destination, "key" := key]);
            (r.HttpException? && r.status == 502 <==> resp.Ok? && resp.value.code != 200)
            && (r.HttpException? && r.status == 404 <==>
                  resp.Ok? && resp.value.code == 200 && resp.value.json.Ok?
                  && (resp.value.json.value.routes.None? || resp.value.json.value.routes.value == []))
            && (r.Success? <==>
                  resp.Ok? && resp.value.code == 200 && resp.value.json.Ok?
                  && resp.value.json.value.routes.Some? && resp.value.json.value.routes.value != [])
            && (r.Success? ==>
                  r.body.overviewPolyline == resp.value.json.value.routes.value[0].overviewPolyline
                  && r.body.mapsLink == DirectionsUrl(origin, destination))
            && (r.HttpException? ==> r.status in {404, 500, 502})
            && (r.HttpException? && r.status == 502 ==> r.detail == "Google Directions API error")
            && (r.HttpException? && r.status == 404 ==> r.detail == "No route found")
            && (r.HttpException? && r.status == 500 ==> r.detail == InternalError)
  {
    var resp := fetch(map["origin" := origin, "destination" := destination, "key" := key]);
    if resp.Err? then HttpException(500, InternalError)
    else if resp.value.code != 200 then HttpException(502, "Google Directions API error")
    else if resp.value.json.Err? then HttpException(500, InternalError)
    else
      var routes := resp.value.json.value.routes;
      if routes.None? || routes.value == [] then HttpException(404, "No route found")
      else Success(Directions(routes.value[0].overviewPolyline, DirectionsUrl(origin, destination)))
  }

  /** The link `/directions` answers with gives back its origin and destination
      whenever the origin holds no `&`. */
  lemma DirectionsLinkRoundTrip(origin: string, destination: string, key: string,
                                fetch: Params -> Result<HttpResponse<DirectionsJson>>)
    requires '&' !in origin
    requires DirectionsEndpoint(origin, destination, key, fetch).Success?
    ensures ParseDirectionsUrl(DirectionsEndpoint(origin, destination, key, fetch).body.mapsLink)
            == Some((origin, destination))
  {
    DirectionsUrlRoundTrip(origin, destination);
  }

  // ---------------------------------------------------------------------
  // /embed/{place_id}

  const EmbedHtmlHead := "\n    <html>\n      <body style='margin:0;padding:0;'>\n        <iframe width='100%' height='400' frameborder='0' style='border:0' src='"
  const EmbedHtmlTail := "' allowfullscreen></iframe>\n      </body>\n    </html>\n    "

  /** `/embed/{place_id}`: an HTML page whose only content is an iframe on the
      place's Embed API URL; the place id closes the URL verbatim. */
  function EmbedEndpoint(placeId: string, key: string): (html: string)
    ensures |html| == |EmbedHtmlHead| + |PlaceEmbedUrl(key, placeId)| + |EmbedHtmlTail|
    ensures html[..|EmbedHtmlHead|] == EmbedHtmlHead
    ensures html[|EmbedHtmlHead|..|html| - |EmbedHtmlTail|] == PlaceEmbedUrl(key, placeId)
    ensures html[|html| - |EmbedHtmlTail|..] == EmbedHtmlTail
    ensures html[|html| - |EmbedHtmlTail| - |placeId|..|html| - |EmbedHtmlTail|] == placeId
  {
    var url := PlaceEmbedUrl(key, placeId);
    var html := EmbedHtmlHead + url + EmbedHtmlTail;
    assert html[|EmbedHtmlHead|..|html| - |EmbedHtmlTail|] == url;
    assert html[|html| - |EmbedHtmlTail| - |placeId|..|html| - |EmbedHtmlTail|] == url[|url| - |placeId|..];
    html
  }

  /** The `embed_url` that `/search` gives for a place is exactly the iframe
      source that `/embed` serves for that place's id. */
  lemma SearchEmbedMatchesEmbedPage(raw: RawPlace, key: string)
    ensures var h := EmbedEndpoint(Render(raw.placeId), key);
      h[|EmbedHtmlHead|..|h| - |EmbedHtmlTail|] == ToSearchResult(raw, key).embedUrl
  {
  }
}
