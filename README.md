# TVmaze client: the fetch-and-normalise layer, in Dafny

This project models the data layer of a small TypeScript web client for the
TVmaze catalogue API (`tvmaze.ts`). The client has two operations:

- `getShowsByTerm(term)` sends `GET http://api.tvmaze.com/search/shows?q=<term>`.
  The endpoint answers with an array of search hits, each wrapped in a `show`
  envelope. The client unwraps each hit into a flat show record
  `{id, name, summary, image}`. The image is the raw image's `medium` URL, or
  the placeholder `https://tinyurl.com/tv-missing` when the raw image is null.
- `getEpisodesOfShow(id)` sends `GET http://api.tvmaze.com/shows/<id>/episodes`.
  It cuts each flat episode record down to `{id, name, season, number}`.

Files:

- `wrappers.dfy` (module `Wrappers`): `Option` and `Result`.
- `decimal.dfy` (module `Decimal`): the exact decimal rendering of an integer
  id. For safe integers (magnitude at most 2^53 - 1) it is what a template
  string writes for `${id}`. `ParseInt` reads that rendering back. It serves
  only as the partner that proves the rendering is a bijection onto canonical
  decimal strings.
- `tvmaze.dfy` (module `TvMaze`): the raw and normalised records, the two
  requests, the two transforms, and the two client operations. It also holds
  worked scenarios.

The HTTP exchange is a parameter of each operation:
`server: Request -> Result<seq<Raw>, TransportError>`. This function gives the
catalogue's response to a request, or says how the request failed
(`NetworkFailure` or `UpstreamError(status)`). The operation rejects with that
failure, wrapped as `Transport(...)`, and produces no records. The one failure
the transform itself raises, `ShapeMismatch`, is a separate value, so a
transport failure can never look like a shape failure.

Each client operation is a single deterministic function of the term (or id)
and the response. Two calls with the same upstream response therefore return
identical results. No state is kept between calls.

Two points where the model states what the code does rather than what its
comments suggest:

- The doc comment of `getShowsByTerm` (`tvmaze.ts:43-45`) says that a default
  image URL is put in when the API gives none. The code tests only whether
  the raw `image` object is present (`tvmaze.ts:61`). A present image whose
  `medium` is the empty string is passed through, so the show's image is then
  empty. `TvMaze.ShowImageEmptyIff` states exactly when the image is empty.
- The transforms do no validation. Reading a field of a missing value throws
  a `TypeError`, which rejects the promise. In the typed records of this model
  the one such case that can arise is a search hit without its `show`
  envelope (`show.show.id` at `tvmaze.ts:58`), which the model rejects with
  `ShapeMismatch`. A missing field one level further down does not throw.
  A missing `image` reads as `undefined`, which is falsy, so it gets the
  placeholder, like a null one; the model writes both as `None`. Any other
  missing field is copied as `undefined` (see "Left out"). The other throwing
  inputs (null elements, a body that is not an array) are listed under
  "Left out".

## Model

| member | source | states |
|---|---|---|
| `TvMaze.SearchRequest` | tvmaze.ts:50-52 | the search request goes to BASE_URL + "/search/shows", where `TvMaze.BaseUrl` is the constant 'http://api.tvmaze.com' of tvmaze.ts:9, and has exactly one query parameter; looking up `q` gives the term unchanged, for every term, the empty one included |
| `TvMaze.EpisodesUrl` | tvmaze.ts:120 | builds BASE_URL + "/shows/" + decimal id + "/episodes"; its contract is stated by `TvMaze.EpisodesUrlRoundTrip`, `TvMaze.EpisodesUrlOnlyForm` and `TvMaze.EpisodesUrlInjective` |
| `TvMaze.EpisodesRequest` | tvmaze.ts:119-122 | the episode-list request's URL parses back to the show id it was built for, and the request has no query parameters |
| `TvMaze.EpisodesUrlRoundTrip` | tvmaze.ts:120 | parsing the episode-list URL built for a show id gives back that id: the URL is BASE_URL, "/shows/", the decimal id and "/episodes" |
| `TvMaze.EpisodesUrlOnlyForm` | tvmaze.ts:120 | every string that parses as an episode-list URL is exactly the URL built for the id it names |
| `TvMaze.EpisodesUrlInjective` | tvmaze.ts:120 | different show ids give different episode-list URLs |
| `TvMaze.NormaliseShows` | tvmaze.ts:57-62 | the transform succeeds exactly when every hit has its `show` envelope, and otherwise rejects with ShapeMismatch; on success it returns one show per hit, and the i-th show is the normalisation of the i-th hit's envelope (length and order preserved) |
| `TvMaze.NormaliseShow` | tvmaze.ts:57-62 | flattens one raw show into `{id, name, summary, image}`; its contract is stated by `TvMaze.NormaliseShowFields` and `TvMaze.ShowImageEmptyIff` |
| `TvMaze.NormaliseShowFields` | tvmaze.ts:58-61 | id, name and summary are copied from the envelope; the image is the placeholder `TvMaze.PlaceholderImg`, the constant 'https://tinyurl.com/tv-missing' of tvmaze.ts:10, when the raw image is null or missing, and exactly the raw `medium` when it is present |
| `TvMaze.ShowImageEmptyIff` | tvmaze.ts:61 | the normalised image is empty exactly when the raw image is present with an empty `medium`, so it can be empty |
| `TvMaze.ProjectEpisode` | tvmaze.ts:126-131 | cuts one raw episode down to `{id, name, season, number}`; its contract is stated by `TvMaze.ProjectEpisodes` (fields copied) and `TvMaze.ProjectEpisodesOfProjected` |
| `TvMaze.ProjectEpisodes` | tvmaze.ts:126-131 | one episode per raw record, in order, with id, name, season and number copied unchanged |
| `TvMaze.ProjectEpisodesOfProjected` | tvmaze.ts:124-131 | projecting records that already have only the four episode fields returns them unchanged |
| `TvMaze.ProjectEpisodesIdempotent` | tvmaze.ts:126-131 | applying the projection to its own output changes nothing |
| `TvMaze.GetShowsByTerm` | tvmaze.ts:48-67 | sends the search request for the term; a failed request rejects with its own transport error; a response rejects only when a hit lacks its envelope; otherwise the result is one normalised show per hit, in order |
| `TvMaze.GetEpisodesOfShow` | tvmaze.ts:118-135 | sends the episode-list request for the id; for the typed raw records it rejects exactly when the request fails, with the same transport error; otherwise one episode per raw record, in order, with the four fields copied unchanged |
| `TvMaze.SearchWithImage` | tvmaze.ts:57-62 | a search answered with one hit whose image is present gives that single show with the image's medium URL |
| `TvMaze.SearchWithoutImage` | tvmaze.ts:61 | a search answered with one hit whose image is null gives that single show with the placeholder image |
| `TvMaze.SearchServerError` | tvmaze.ts:49-53 | a search answered with HTTP 500 rejects with that error and produces no shows |
| `TvMaze.EpisodesOfShow139` | tvmaze.ts:118-135 | the episode list of show 139 is requested from .../shows/139/episodes, and a record with only the four fields comes back unchanged |
| `Decimal.NatToDecimal` | tvmaze.ts:120 | a natural number is written as a non-empty string of digits with no superfluous leading zero; exactly the numbers below 10 take one digit |
| `Decimal.IntToDecimal` | tvmaze.ts:120 | an integer id is written as a non-empty string that starts with '-' exactly when the id is negative, followed by its exact digits, as JavaScript writes safe integers |
| `Decimal.NatToDecimalValue` | tvmaze.ts:120 | the digits written for n have the value n |
| `Decimal.CanonicalIsNatToDecimal` | tvmaze.ts:120 | every canonical digit string is the rendering of its own value |
| `Decimal.IntToDecimalRoundTrip` | tvmaze.ts:120 | parsing the rendering of any integer gives that integer back |
| `Decimal.ParseIntCanonical` | tvmaze.ts:120 | whatever the parser accepts is exactly the rendering of the value it yields |
| `Decimal.IntToDecimalInjective` | tvmaze.ts:120 | different integers are written differently |

## Left out

- The axios HTTP calls and the `await`/Promise plumbing (tvmaze.ts:49-53, 119-122) are not modelled. The response or failure is the `server` parameter. Transport and HTTP-status failures are the `NetworkFailure` and `UpstreamError` values of `TransportError`, passed through wrapped as `Transport(...)`.
- Percent-encoding of the `q` parameter is left out. axios does it internally, and this code never shows it. The model keeps the parameter as a key/value pair.
- The `console.log` diagnostics (tvmaze.ts:55, 64, 123, 132) are left out. They have no functional effect.
- The jQuery rendering and event wiring are left out: `populateShows`, `populateEpisodes`, `searchForShowAndDisplay` and the submit and click handlers (tvmaze.ts:72-110, 141-163). This includes reading `data-show-id` from the page. These are UI code with no decision logic, and their HTML templating does no escaping.
- Races between overlapping requests are left out. Nothing in the code guards them, and they are a concurrency concern.
- Decimal.IntToDecimal: renders the exact digits of any integer. JavaScript renders a `number` that way only up to 2^53 - 1 in magnitude. Above that it prints the shortest digits that round-trip, padded with zeros (`${2**64}` is "18446744073709552000"), and from 10^21 on it uses exponent notation. Neither form is modelled, because TVmaze ids are small integers.
- JavaScript `number` is modelled as an unbounded `int` for ids, seasons and numbers. Non-integral values and NaN are not modelled. The search score is a `real`.
- Raw records are typed as the code declares them (tvmaze.ts:35-40). Two missing values are modelled: an absent `show` envelope (`SearchHit.show` is `None`, and the search rejects with `ShapeMismatch`) and an absent or null `image` (`ShowApi.image` is `None`, and the show gets the placeholder). A missing `id`, `name`, `summary`, `season` or `number`, or a missing `medium` inside a present image, would be copied as `undefined` in JavaScript; the typed records cannot express that. A `null` summary, which the catalogue can send, is not modelled either.
- Fields of the raw records that the client never reads are dropped by the transforms. `SearchHit.score` and `ImageApi.original` are typed fields. All other fields are carried as opaque JSON in `others`.
- TvMaze.NormaliseShows: a search hit that is itself `null` throws at `show.show` (tvmaze.ts:58). The typed `SearchHit` cannot express it, so that rejection is not modelled.
- TvMaze.GetEpisodesOfShow: an episode record that is `null` throws at `e.id` (tvmaze.ts:127). The typed `RawEpisode` cannot express it, so that rejection is not modelled.
- TvMaze.GetShowsByTerm: a successful response whose body is not an array has no `.map` and throws (tvmaze.ts:57). This is not modelled for either operation (tvmaze.ts:126 too), because the response is typed as a sequence. For example, axios hands back a non-JSON body as a string.
