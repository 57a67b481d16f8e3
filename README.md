# Local LLM Maps Chat backend: a Dafny model

This project models the decision and formatting layer of a small chat backend.
The backend answers a prompt with a reply from a local language model. When the
prompt asks for a place, it adds the best Google Places match, an embedded map and
a directions link. It also serves three thin Maps endpoints: `/search`,
`/directions` and `/embed/{place_id}`.

Modules, one per source file plus two helper modules:

- `Wrappers` (`wrappers.dfy`): `Option` for Python's `None` and for absent JSON
  keys. `Result` for a call that may raise: `Err` carries the exception's
  `str(e)`.
- `Text` (`text.dfy`): ASCII lower-casing, substring occurrence, Python's
  `str.strip()`, and the decimal rendering of integers.
- `LlmHandler` (`llm_handler.dfy`): the intent classifier and the query refiner.
  - Each of the three regular expressions is a keyword-order condition, `MatchAt`:
    a word of one list starts at `i`, then a word of a second list starts at
    or after its end, with no newline between them. `directions to` is a plain
    phrase.
  - `Search` tries every start position, as `re.search` does. It is proved to
    agree with that definition.
  - `LocationIntent` is the disjunction of the three patterns over the
    lower-cased prompt. `IsLocationQuery` equals it on every prompt, so the
    lemmas stated about `LocationIntent` hold for the classifier.
  - The model call `query_llm` is a parameter `llm: string -> Result<string>`.
- `MapsHandler` (`maps_handler.dfy`): `search_places` as a method, and the two
  link builders.
  - The HTTP exchange is a parameter `fetch: Params -> Result<HttpResponse<J>>`.
    `Err` is an exception from `requests.get`. `HttpResponse.json` is the
    outcome of `resp.json()`.
- `ChatApi` (`chat_api.dfy`): `main.py`'s four endpoints. An endpoint either
  returns a body (`Success`) or raises `HTTPException(status, detail)`.

JSON values that the code prints through f-strings are kept as their printed
text: `Some(text)`, or `None`, which prints as `None`. The place dict that
`search_places` builds always has all five keys, including `rating`. The record
`Place` expresses this. So `place.get('rating', '-')` in `chat` prints `None` for
a place without a rating, and the `-` placeholder is never used.

## Model

| member | source | states |
|---|---|---|
| `Text.Strip` | backend/llm_handler.py:25 | the result is a slice of the input with no leading or trailing whitespace (Python's `isspace` set), and everything removed on either side is whitespace |
| `Text.StripIdempotent` | backend/llm_handler.py:25 | stripping a stripped query changes nothing |
| `Text.NatToStringRoundTrip` | backend/maps_handler.py:46-47 | the decimal text printed for zoom, width and height reads back as the same number |
| `LlmHandler.TailFrom` | backend/llm_handler.py:13 | `.*(w1 or w2 ...)` matches from `j` iff some word starts at some `k >= j` with no newline in `s[j..k]` |
| `LlmHandler.Search` | backend/llm_handler.py:14 | the position-by-position search succeeds iff the pattern matches at some start index (unanchored `re.search`) |
| `LlmHandler.AnySearch` | backend/llm_handler.py:14 | `any(...)` over the patterns is true iff one of them matches |
| `LlmHandler.IsLocationQuery` | backend/llm_handler.py:11-14 | the verdict equals `LocationIntent`: one of the three patterns matches the lower-cased prompt ("where" then eat/go/find/stay; restaurant/cafe/hotel then "near"; or "directions to") |
| `LlmHandler.WhereVerbIsLocation` | backend/llm_handler.py:13 | "where" at `i` and eat/go/find/stay at `j >= i + 5`, with no newline between them, makes a location query |
| `LlmHandler.VenueNearIsLocation` | backend/llm_handler.py:13 | restaurant/cafe/hotel followed later on the same line by "near" makes a location query |
| `LlmHandler.DirectionsToIsLocation` | backend/llm_handler.py:13-14 | a prompt containing "directions to" in any letter case is a location query |
| `LlmHandler.SushiPromptIsLocation` | backend/llm_handler.py:11-14 | "Where can I eat sushi tonight?" is classified as a location query |
| `LlmHandler.MatchNeedsKeyword` | backend/llm_handler.py:13 | every match of one of the three patterns contains one of the five leading keywords |
| `LlmHandler.NoKeywordNotLocation` | backend/llm_handler.py:13-14 | a prompt without "where", "restaurant", "cafe", "hotel" and "directions to" (after lower-casing) is not a location query |
| `LlmHandler.CaseInsensitive` | backend/llm_handler.py:14 | the verdict for a prompt equals the verdict for its lower-cased form |
| `LlmHandler.MatchAtShift` | backend/llm_handler.py:14 | a match at `i` is still a match, at `i` plus the length of the added prefix, once text is added before and after |
| `LlmHandler.Unanchored` | backend/llm_handler.py:14 | if `p` is a location query then so are `p + s` and `s + p`, for every `s` |
| `LlmHandler.RefinePrompt` | backend/llm_handler.py:24 | the instruction is the fixed lead-in, then the prompt verbatim, then the fixed closing |
| `LlmHandler.RefinePromptInjective` | backend/llm_handler.py:24 | different prompts give different instructions |
| `LlmHandler.RefineSearchQuery` | backend/llm_handler.py:22-25 | a model error propagates unchanged; otherwise the query is the model's answer with surrounding whitespace stripped |
| `MapsHandler.Take` | backend/maps_handler.py:31 | `xs[:n]` has min(n, length of xs) elements, the first ones of `xs` in order |
| `MapsHandler.SearchPlaces` | backend/maps_handler.py:11-40 | a missing key raises before any request is sent; the request carries query and key, plus `location` iff it is non-empty; transport, HTTP (non-200), JSON and API-status (outside OK/ZERO_RESULTS) failures raise with their messages; otherwise min(3, n) projected places in upstream order, and `None` exactly when there are none |
| `MapsHandler.GenerateMapEmbed` | backend/maps_handler.py:42-47 | the iframe contains `&center=lat,lng&zoom=Z"` and `width="W" height="H"` |
| `MapsHandler.MapEmbedDefaults` | backend/maps_handler.py:42 | without explicit sizes, zoom is 15 and the frame is 600 by 400 |
| `MapsHandler.DirectionsUrl` | backend/maps_handler.py:54 | the link is the fixed directions base, then the origin verbatim (not URL-encoded), then `&destination=`, then the destination verbatim |
| `MapsHandler.GenerateDirectionsLink` | backend/maps_handler.py:49-54 | the link ends with the place's `lat,lng`; when the origin has no `&`, origin and `lat,lng` are read back from the link exactly |
| `MapsHandler.TakeUntil` | backend/maps_handler.py:54 | the result is a prefix of the input without the character, and it stops only at the end of the input or at the character, so it is the part before its first occurrence |
| `MapsHandler.DirectionsUrlRoundTrip` | backend/maps_handler.py:53-54 | an origin without `&` and the destination are read back exactly from the link |
| `MapsHandler.DirectionsUrlAmbiguous` | backend/maps_handler.py:54 | for all strings a, b, c the requests (a + `&destination=` + b, c) and (a, b + `&destination=` + c) differ but give the same link, because nothing is URL-encoded |
| `ChatApi.Origin` | backend/main.py:52 | the directions origin is `user_location` when it is non-empty, else "current location" |
| `ChatApi.TopSpotNamesPlace` | backend/main.py:53 | the appended block starts with `\n\nTop spot: name (rating⭐)\n`, the rating in its slot right after the name; a place without a rating shows `None` there, never `-` |
| `ChatApi.TopSpotEndsWithDirections` | backend/main.py:51-53 | the appended block ends with the directions link to the place's coordinates, then `)` |
| `ChatApi.Chat` | backend/main.py:42-58 | a model error gives 500 with its message. A non-location prompt gives the base reply exactly. Otherwise a refine or search error gives 500; no places gives base + the "No places found" notice; places give base + the first place's block. Every success starts with the base reply |
| `ChatApi.PlaceEmbedUrl` | backend/main.py:82 | the place embed URL is the Embed API place base, then the key, then `&q=place_id:`, then the place id, each verbatim |
| `ChatApi.SearchEndpoint` | backend/main.py:64-92 | non-200 gives 502, transport and JSON failures give 500, and the API status is never consulted; otherwise min(5, n) results in upstream order, each with its maps and embed links |
| `ChatApi.DirectionsEndpoint` | backend/main.py:96-110 | 502 iff the HTTP code is not 200; 404 iff `routes` is missing or empty; otherwise the first route's polyline and a link with origin and destination verbatim; the details are "Google Directions API error" for 502, "No route found" for 404 and "Internal Server Error" for 500 |
| `ChatApi.DirectionsLinkRoundTrip` | backend/main.py:109 | the `/directions` link gives back its origin (when free of `&`) and its destination |
| `ChatApi.EmbedEndpoint` | backend/main.py:115-124 | the page is the fixed HTML head, the place's embed URL and the fixed tail; the place id closes the URL verbatim |
| `ChatApi.SearchEmbedMatchesEmbedPage` | backend/main.py:82 | the `embed_url` from `/search` is exactly the slice of the `/embed` page between the fixed HTML head and tail, i.e. the iframe source |

## Left out

- `query_llm` (`backend/llm_handler.py:16-20`): the Ollama client call is the parameter `llm`. The model name, host and message format are not modelled.
- HTTP calls (`requests.get` in `backend/maps_handler.py:24` and `backend/main.py:69,101`) and JSON decoding are the parameter `fetch`. Only the keys the code reads are modelled: `status`, `results`, and per result `name`, `formatted_address`, `place_id`, `geometry.location.lat/lng` and `rating` for the Places API (`backend/maps_handler.py:31-38` and `backend/main.py:74-80`), and `routes` with the first route's `overview_polyline.points` for the Directions API (`backend/main.py:101`). A wrongly typed JSON value (for example `"results": null`) is not modelled.
- Environment and `.env` loading, and the startup check for `GOOGLE_MAPS_KEY` (`backend/main.py:13-18`). `main.py`'s key is a `string` parameter. `maps_handler.py`'s `API_KEY` is an `Option<string>` parameter.
- The FastAPI application, CORS middleware, slowapi rate limits and `/healthz` are configuration or constants. They are not logic to prove.
- Float formatting: coordinates and ratings are opaque text.
- `str.lower` is ASCII-only here. Python lower-cases all of Unicode.
- Regular expressions in general: only the three fixed patterns are modelled.
- `ChatApi.Chat`: `search_places` is the parameter `searchPlaces`, not a call to `MapsHandler.SearchPlaces`. The `mapsKey` used for the embed is a separate parameter.
- `MapsHandler.SearchPlaces`: `location` is a `string`, and `None` behaves like `""`. The `sent` out-parameter makes the issued request observable. The source returns only the dict.
- `ChatApi.SearchEndpoint`: FastAPI's 422 rejection of a missing or empty `query` becomes `requires query != ""`.
- `ChatApi.SearchEndpoint` and `ChatApi.DirectionsEndpoint`: an exception that no handler catches is a 500 with FastAPI's default detail "Internal Server Error".
- `MapsHandler.GenerateMapEmbed`: the contract states the center, zoom and frame size the iframe contains, not its whole text.
