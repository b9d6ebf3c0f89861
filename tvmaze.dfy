/**
 * The data-fetch-and-normalise layer of the TVmaze client (tvmaze.ts).
 *
 * Two stateless operations ask the TVmaze catalogue API for data and reshape
 * its response into the client's own records:
 *   - GetShowsByTerm: search shows by a term; each search hit arrives wrapped in
 *     a `show` envelope, which is unwrapped, and a missing image is replaced by
 *     a fixed placeholder URL;
 *   - GetEpisodesOfShow: list the episodes of a show; each flat record is cut
 *     down to its four fields.
 * The HTTP exchange itself is a parameter `server`: the response that the
 * catalogue gives to a request, or the failure of that request.
 */
module TvMaze {
  import opened Wrappers
  import Decimal

  const BaseUrl: string := "http://api.tvmaze.com"
  const PlaceholderImg: string := "https://tinyurl.com/tv-missing"

  /** The part of every episode-list URL before the show id. */
  const EpisodesPrefix: string := BaseUrl + "/shows/"
  /** The part of every episode-list URL after the show id. */
  const EpisodesSuffix: string := "/episodes"

  // ---------------------------------------------------------------------------
  // Data model
  // ---------------------------------------------------------------------------

  /** A JSON value, for the response fields the client never reads. */
  datatype Json =
    | JNull
    | JBool(b: bool)
    | JNumber(n: real)
    | JString(s: string)
    | JArray(items: seq<Json>)
    | JObject(fields: map<string, Json>)

  /** The `image` object of a raw show. */
  datatype ImageApi = ImageApi(medium: string, original: string)

  /** A raw show as the search endpoint sends it; `image` is None when null or missing. */
  datatype ShowApi = ShowApi(
    id: int,
    name: string,
    summary: string,
    image: Option<ImageApi>,
    others: map<string, Json>)

  /** One search hit: a score and the `show` envelope (None when the entry has no `show`). */
  datatype SearchHit = SearchHit(score: real, show: Option<ShowApi>)

  /** A show as the client hands it on: exactly these four fields. */
  datatype Show = Show(id: int, name: string, summary: string, image: string)

  /** A raw episode as the episode-list endpoint sends it: flat, with more fields. */
  datatype RawEpisode = RawEpisode(
    id: int,
    name: string,
    season: int,
    number: int,
    others: map<string, Json>)

  /** An episode as the client hands it on: exactly these four fields. */
  datatype Episode = Episode(id: int, name: string, season: int, number: int)

  /** Why a request fails before any response body reaches the client. */
  datatype TransportError =
    | NetworkFailure              // no response at all
    | UpstreamError(status: int)  // a response with a non-success HTTP status

  /** Why an operation rejects: the request failed, or the response had the wrong shape. */
  datatype FetchError =
    | Transport(cause: TransportError)
    | ShapeMismatch               // a search hit without its `show` envelope

  /** An HTTP GET request: the URL and the query parameters, in order. */
  datatype Request = Get(url: string, params: seq<(string, string)>)

  // ---------------------------------------------------------------------------
  // Requests
  // ---------------------------------------------------------------------------

  /** The value of the first query parameter named `key`, if any. */
  function Lookup(params: seq<(string, string)>, key: string): Option<string> {
    if params == [] then None
    else if params[0].0 == key then Some(params[0].1)
    else Lookup(params[1..], key)
  }

  /**
   * The show-search request. Every term, the empty one included, is sent as
   * it is, as the only query parameter, `q`.
   */
  function SearchRequest(term: string): (r: Request)
    ensures r.url == BaseUrl + "/search/shows"
    ensures Lookup(r.params, "q") == Some(term)
    ensures |r.params| == 1
  {
    Get(BaseUrl + "/search/shows", [("q", term)])
  }

  /** The episode-list URL of a show: the id written in decimal between two fixed parts. */
  function EpisodesUrl(id: int): string {
    EpisodesPrefix + Decimal.IntToDecimal(id) + EpisodesSuffix
  }

  /** Recovers the show id from an episode-list URL; None for any other string. */
  function ParseEpisodesUrl(url: string): Option<int> {
    var lo, hi := |EpisodesPrefix|, |url| - |EpisodesSuffix|;
    if lo <= hi && url[..lo] == EpisodesPrefix && url[hi..] == EpisodesSuffix
    then Decimal.ParseInt(url[lo..hi])
    else None
  }


  /** The episode-list URL names the show it was built for. */
  lemma EpisodesUrlRoundTrip(id: int)
    ensures ParseEpisodesUrl(EpisodesUrl(id)) == Some(id)
  {
    var digits := Decimal.IntToDecimal(id);
    var url := EpisodesUrl(id);
    var lo, hi := |EpisodesPrefix|, |url| - |EpisodesSuffix|;
    assert url[..lo] == EpisodesPrefix;
    assert url[hi..] == EpisodesSuffix;
    assert url[lo..hi] == digits;
    Decimal.IntToDecimalRoundTrip(id);
  }

  /** Every URL that names a show id is the episode-list URL of that show. */
  lemma EpisodesUrlOnlyForm(url: string, id: int)
    requires ParseEpisodesUrl(url) == Some(id)
    ensures EpisodesUrl(id) == url
  {
    var lo, hi := |EpisodesPrefix|, |url| - |EpisodesSuffix|;
    Decimal.ParseIntCanonical(url[lo..hi], id);
    assert url == url[..lo] + url[lo..hi] + url[hi..];
  }

  /** The episode-list request of a show: its URL names the show, and it has no query parameters. */
  function EpisodesRequest(id: int): (r: Request)
    ensures ParseEpisodesUrl(r.url) == Some(id)
    ensures r.params == []
  {
    EpisodesUrlRoundTrip(id);
    Get(EpisodesUrl(id), [])
  }

  /** Distinct shows have distinct episode-list URLs. */
  lemma EpisodesUrlInjective(a: int, b: int)
    requires EpisodesUrl(a) == EpisodesUrl(b)
    ensures a == b
  {
    EpisodesUrlRoundTrip(a);
    EpisodesUrlRoundTrip(b);
  }

  // ---------------------------------------------------------------------------
  // Show normalisation
  // ---------------------------------------------------------------------------

  /** One raw show, flattened; a null image becomes the placeholder. */
  function NormaliseShow(s: ShowApi): Show {
    var image := match s.image
      case Some(img) => img.medium
      case None => PlaceholderImg;
    Show(s.id, s.name, s.summary, image)
  }

  /**
   * All search hits, in order. Reading the envelope of a hit that has none
   * throws, which rejects the whole operation.
   */
  function NormaliseShows(hits: seq<SearchHit>): (r: Result<seq<Show>, FetchError>)
    ensures r.Ok? <==> forall i :: 0 <= i < |hits| ==> hits[i].show.Some?
    ensures r.Err? ==> r.error == ShapeMismatch
    ensures r.Ok? ==>
      |r.value| == |hits| &&
      forall i :: 0 <= i < |hits| ==> r.value[i] == NormaliseShow(hits[i].show.value)
  {
    if hits == [] then Ok([])
    else match hits[0].show
      case None => Err(ShapeMismatch)
      case Some(s) =>
        match NormaliseShows(hits[1..])
        case Err(e) => Err(e)
        case Ok(rest) => Ok([NormaliseShow(s)] + rest)
  }

  /** id, name and summary are copied from the envelope; the image is medium or the placeholder. */
  lemma NormaliseShowFields(s: ShowApi)
    ensures NormaliseShow(s).id == s.id
    ensures NormaliseShow(s).name == s.name
    ensures NormaliseShow(s).summary == s.summary
    ensures s.image.None? ==> NormaliseShow(s).image == PlaceholderImg
    ensures s.image.Some? ==> NormaliseShow(s).image == s.image.value.medium
  {
  }

  /**
   * The image of a normalised show is empty exactly when the raw image is
   * present with an empty `medium`: a present image is never checked.
   */
  lemma ShowImageEmptyIff(s: ShowApi)
    ensures NormaliseShow(s).image == [] <==> s.image.Some? && s.image.value.medium == []
  {
  }

  // ---------------------------------------------------------------------------
  // Episode projection
  // ---------------------------------------------------------------------------

  /** One raw episode, cut down to its four fields. */
  function ProjectEpisode(e: RawEpisode): Episode {
    Episode(e.id, e.name, e.season, e.number)
  }

  /** All raw episodes, in order, each field copied unchanged. */
  function ProjectEpisodes(raw: seq<RawEpisode>): (r: seq<Episode>)
    ensures |r| == |raw|
    ensures forall i :: 0 <= i < |raw| ==>
      r[i].id == raw[i].id && r[i].name == raw[i].name &&
      r[i].season == raw[i].season && r[i].number == raw[i].number
  {
    if raw == [] then [] else [ProjectEpisode(raw[0])] + ProjectEpisodes(raw[1..])
  }

  /** An episode seen as a raw record: the JSON object with only its four fields. */
  function EpisodeAsRaw(e: Episode): RawEpisode {
    RawEpisode(e.id, e.name, e.season, e.number, map[])
  }

  function EpisodesAsRaw(eps: seq<Episode>): seq<RawEpisode> {
    seq(|eps|, i requires 0 <= i < |eps| => EpisodeAsRaw(eps[i]))
  }

  /** Projecting episodes that are already in the client's shape changes nothing. */
  lemma ProjectEpisodesOfProjected(eps: seq<Episode>)
    ensures ProjectEpisodes(EpisodesAsRaw(eps)) == eps
  {
  }

  /** The projection is idempotent. */
  lemma ProjectEpisodesIdempotent(raw: seq<RawEpisode>)
    ensures ProjectEpisodes(EpisodesAsRaw(ProjectEpisodes(raw))) == ProjectEpisodes(raw)
  {
  }

  // ---------------------------------------------------------------------------
  // The two client operations
  // ---------------------------------------------------------------------------

  /**
   * Search shows by `term`. A failed request rejects with its own error; a
   * response rejects only when a hit lacks its envelope; otherwise there is
   * one show per hit, in the order of the hits.
   */
  function GetShowsByTerm(term: string, server: Request -> Result<seq<SearchHit>, TransportError>)
    : (r: Result<seq<Show>, FetchError>)
    ensures server(SearchRequest(term)).Err? ==> r == Err(Transport(server(SearchRequest(term)).error))
    ensures server(SearchRequest(term)).Ok? ==>
      var hits := server(SearchRequest(term)).value;
      (r.Ok? <==> forall i :: 0 <= i < |hits| ==> hits[i].show.Some?) &&
      (r.Err? ==> r.error == ShapeMismatch) &&
      (r.Ok? ==>
        |r.value| == |hits| &&
        forall i :: 0 <= i < |hits| ==> r.value[i] == NormaliseShow(hits[i].show.value))
  {
    match server(SearchRequest(term))
    case Err(e) => Err(Transport(e))
    case Ok(hits) => NormaliseShows(hits)
  }

  /**
   * List the episodes of show `id`. A failed request rejects with its own
   * error; otherwise there is one episode per raw record, in order, with its
   * four fields copied unchanged.
   */
  function GetEpisodesOfShow(id: int, server: Request -> Result<seq<RawEpisode>, TransportError>)
    : (r: Result<seq<Episode>, FetchError>)
    ensures r.Err? <==> server(EpisodesRequest(id)).Err?
    ensures r.Err? ==> r.error == Transport(server(EpisodesRequest(id)).error)
    ensures r.Ok? ==>
      var raw := server(EpisodesRequest(id)).value;
      |r.value| == |raw| &&
      forall i :: 0 <= i < |raw| ==>
        r.value[i].id == raw[i].id && r.value[i].name == raw[i].name &&
        r.value[i].season == raw[i].season && r.value[i].number == raw[i].number
  {
    match server(EpisodesRequest(id))
    case Err(e) => Err(Transport(e))
    case Ok(raw) => Ok(ProjectEpisodes(raw))
  }

  // ---------------------------------------------------------------------------
  // Worked scenarios
  // ---------------------------------------------------------------------------

  /** A hit with an image yields that image's medium URL. */
  lemma SearchWithImage(server: Request -> Result<seq<SearchHit>, TransportError>)
    requires server(SearchRequest("girls")) == Ok([SearchHit(0.9, Some(ShowApi(
      139, "Girls", "<p>...</p>",
      Some(ImageApi("http://x/img.jpg", "http://x/orig.jpg")), map[])))])
    ensures GetShowsByTerm("girls", server) == Ok([Show(139, "Girls", "<p>...</p>", "http://x/img.jpg")])
  {
    var hits := server(SearchRequest("girls")).value;
    assert hits[1..] == [];
    var shown := NormaliseShow(hits[0].show.value);
    assert [shown] + [] == [shown];
  }

  /** A hit with a null image yields the placeholder. */
  lemma SearchWithoutImage(server: Request -> Result<seq<SearchHit>, TransportError>)
    requires server(SearchRequest("obscure")) == Ok([SearchHit(0.5, Some(ShowApi(
      7, "Obscure", "", None, map[])))])
    ensures GetShowsByTerm("obscure", server) == Ok([Show(7, "Obscure", "", PlaceholderImg)])
  {
    var hits := server(SearchRequest("obscure")).value;
    assert hits[1..] == [];
    var shown := NormaliseShow(hits[0].show.value);
    assert [shown] + [] == [shown];
  }

  /** A server error rejects the search and produces no shows. */
  lemma SearchServerError(term: string, server: Request -> Result<seq<SearchHit>, TransportError>)
    requires server(SearchRequest(term)) == Err(UpstreamError(500))
    ensures GetShowsByTerm(term, server) == Err(Transport(UpstreamError(500)))
  {
  }

  /** An episode record with no extra fields comes back unchanged. */
  lemma EpisodesOfShow139(server: Request -> Result<seq<RawEpisode>, TransportError>)
    requires server(Get("http://api.tvmaze.com/shows/139/episodes", [])) ==
      Ok([RawEpisode(1, "Pilot", 1, 1, map[])])
    ensures GetEpisodesOfShow(139, server) == Ok([Episode(1, "Pilot", 1, 1)])
  {
    assert Decimal.NatToDecimal(1) == "1";
    assert Decimal.NatToDecimal(13) == "13";
    assert Decimal.NatToDecimal(139) == "139";
    assert Decimal.IntToDecimal(139) == "139";
    assert EpisodesUrl(139) == "http://api.tvmaze.com/shows/139/episodes";
    var raw := server(EpisodesRequest(139)).value;
    assert ProjectEpisodes(raw[1..]) == [];
    assert [ProjectEpisode(raw[0])] + [] == [ProjectEpisode(raw[0])];
  }
}
