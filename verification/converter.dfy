/** The conversion pipeline of the page: `convertLink`, the four fetchers, the error
    classification of their `catch` blocks, and the presenter state they write. The network,
    the oEmbed metadata and the scraped embed markup are inputs (`Env`). */
module Converter {
  import opened Wrappers
  import opened Text
  import opened JsValues
  import opened Resource
  import opened LinkParser
  import opened DeezerSearch
  import opened AlbumTitle

  /** The four fetchers `convertLink` can start. */
  datatype Handler = FetchTrackInfo | FetchArtistInfo | FetchAlbumInfo | FetchPlaylistInfo

  /** The kind a fetcher looks up and names in its messages. */
  function HandlerKind(h: Handler): Kind {
    match h
    case FetchTrackInfo => Track
    case FetchArtistInfo => Artist
    case FetchAlbumInfo => Album
    case FetchPlaylistInfo => Playlist
  }

  /** The `switch (type)` of `convertLink`: each kind has its own fetcher. */
  function HandlerFor(k: Kind): (h: Handler)
    ensures HandlerKind(h) == k
  {
    match k
    case Track => FetchTrackInfo
    case Artist => FetchArtistInfo
    case Album => FetchAlbumInfo
    case Playlist => FetchPlaylistInfo
  }

  /** Dispatch is one-to-one: every fetcher is reached from exactly one kind. */
  lemma DispatchOneToOne(k: Kind, h: Handler)
    ensures HandlerFor(k) == h <==> HandlerKind(h) == k
  {
  }

  /** What the `#result` region shows. `Earlier` is whatever the page showed before the
      conversion started. */
  datatype Status =
    | Earlier
    | Converting
    | InvalidLink
    | LinkShown(link: string)
    | CorsHelp
    | NotFoundOnDeezer(kind: Kind)

  /** The page state the converter writes: the `#result` region, whether the
      `.output-container` panel is displayed, and the value of the `#outputLink` field. */
  datatype Presenter = Presenter(status: Status, panelVisible: bool, outputLink: string)

  /** The plain text a status writes with `textContent`; the link and the CORS help are
      `innerHTML` markup, which the model does not spell out. */
  function StatusText(st: Status): (r: Option<string>)
    ensures r.Some? <==> st.Converting? || st.InvalidLink? || st.NotFoundOnDeezer?
    ensures st.NotFoundOnDeezer? ==> Label(st.kind) <= r.value
  {
    match st
    case Converting => Some("Converting...")
    case InvalidLink => Some("Please enter a valid Spotify link.")
    case NotFoundOnDeezer(k) => Some(Label(k) + " not found on Deezer.")
    case _ => None
  }

  /** The plain-text statuses never share a text, so the user can tell each one apart. */
  lemma StatusTextDistinct(a: Status, b: Status)
    requires StatusText(a).Some? && StatusText(a) == StatusText(b)
    ensures a == b
  {
    if a.NotFoundOnDeezer? && b.NotFoundOnDeezer? {
      assert StatusText(a).value[0] == Label(a.kind)[0];
      assert StatusText(b).value[0] == Label(b.kind)[0];
      assert |StatusText(a).value| == |Label(a.kind)| + 21;
      assert |StatusText(b).value| == |Label(b.kind)| + 21;
    }
  }

  /** A fetcher started by `convertLink`, with the id it was given. */
  datatype Dispatch = Dispatch(handler: Handler, id: string)

  /** The page right after the synchronous part of `convertLink`, and the fetcher it started. */
  datatype Started = Started(presenter: Presenter, dispatched: Option<Dispatch>)

  /** The synchronous part of `convertLink`: hide the panel, show "Converting...", then the
      guard, the pattern and the switch. A thrown destructuring leaves "Converting..." up. */
  function ConvertLink(p: Presenter, input: string): (r: Started)
    ensures !r.presenter.panelVisible && r.presenter.outputLink == p.outputLink
    ensures r.presenter.status == InvalidLink <==> !Contains(input, Host)
    ensures r.presenter.status != InvalidLink ==> r.presenter.status == Converting
    ensures r.dispatched.Some? <==> Parse(input).Parsed?
    ensures r.dispatched.Some? ==>
      && HandlerKind(r.dispatched.value.handler) == Parse(input).kind
      && r.dispatched.value.id == Parse(input).id
  {
    var converting := Presenter(Converting, false, p.outputLink);
    match Parse(input)
    case Invalid => Started(converting.(status := InvalidLink), None)
    case Crash => Started(converting, None)
    case Parsed(k, id) => Started(converting, Some(Dispatch(HandlerFor(k), id)))
  }

  /** How a fetcher ends: a link to show, the CORS help, or the kind's "not found" message. */
  datatype Outcome = Found(link: string) | CorsFailure | NotFound(kind: Kind)

  /** The `catch` blocks: an error is a CORS failure exactly when its message is the one
      `fetchWithProxy` throws; every other error reads as "not found". */
  function Classify(k: Kind, e: JsError): (o: Outcome)
    ensures o == CorsFailure <==> e.message == NetworkNotOk
    ensures o != CorsFailure ==> o == NotFound(k)
  {
    if e.message == NetworkNotOk then CorsFailure else NotFound(k)
  }

  /** The error a fetcher throws when the search resolves to nothing ("Track not found", ...). */
  function NotFoundError(k: Kind): (e: JsError)
    ensures Label(k) <= e.message
    ensures e.message != NetworkNotOk
  {
    var e := JsError(Label(k) + " not found");
    assert |e.message| != |NetworkNotOk|;
    e
  }

  /** The `if (result) displayResult(result.link) else throw` step and its `catch`. */
  function SearchOutcome(k: Kind, r: Result<Option<Item>, JsError>): (o: Outcome)
    ensures o.Found? <==> r.Ok? && r.value.Some?
    ensures o.Found? ==> o.link == r.value.value.link
    ensures r == Ok(None) ==> o == NotFound(k)
    ensures r.Err? ==> o == Classify(k, r.error)
  {
    match r
    case Ok(Some(item)) => Found(item.link)
    case Ok(None) => Classify(k, NotFoundError(k))
    case Err(e) => Classify(k, e)
  }

  /** `displayResult`, `handleCORSError` and the not-found branch: only a found link touches
      the output field and shows the panel. */
  function Present(p: Presenter, o: Outcome): (q: Presenter)
    ensures q.status.LinkShown? <==> o.Found?
    ensures o.Found? ==> q.status.link == o.link && q.outputLink == o.link && q.panelVisible
    ensures !o.Found? ==> q.outputLink == p.outputLink && q.panelVisible == p.panelVisible
    ensures o == CorsFailure <==> q.status == CorsHelp
    ensures o.NotFound? <==> q.status.NotFoundOnDeezer?
    ensures o.NotFound? ==> q.status.kind == o.kind
  {
    match o
    case Found(link) => Presenter(LinkShown(link), true, link)
    case CorsFailure => p.(status := CorsHelp)
    case NotFound(k) => p.(status := NotFoundOnDeezer(k))
  }

  /** The title and artist scraped from a track's embed player. */
  datatype TrackInfo = TrackInfo(title: string, artist: string)

  /** The outside world of one conversion:
      - `trackInfo`: the track path's oEmbed fetch, embed fetch and markup scrape, for a track
        id; None when any of them throws. None of them can throw the `fetchWithProxy` message,
        so the message of such an error never matters;
      - `oembedTitle`: the unproxied oEmbed fetch of the other three paths, for a kind and id;
        None when it fails, which is never caught;
      - `deezer`: the proxied search response for a request. */
  datatype Env = Env(
    trackInfo: string -> Option<TrackInfo>,
    oembedTitle: (Kind, string) -> Option<string>,
    deezer: Request -> Response)

  /** The search a fetcher issues once its metadata step succeeded, or None when that step
      failed. Each fetcher searches its own kind with the query built from its metadata: the
      track's title and scraped artist, the artist or playlist title as it is, and the album
      title split at " by ". */
  function PlannedSearch(h: Handler, id: string, env: Env): (r: Option<Request>)
    ensures r.Some? ==> r.value.kind == HandlerKind(h)
    ensures r.Some? ==> (r.value.q.UriEncoded? <==> h == FetchTrackInfo)
    ensures h == FetchTrackInfo ==> (r.None? <==> env.trackInfo(id).None?)
    ensures h != FetchTrackInfo ==> (r.None? <==> env.oembedTitle(HandlerKind(h), id).None?)
    ensures h == FetchTrackInfo && r.Some? ==>
      var info := env.trackInfo(id).value;
      r.value.q.text == SongQuery(info.title, Str(info.artist))
    ensures h == FetchArtistInfo && r.Some? ==>
      r.value == SearchArtist(env.oembedTitle(Artist, id).value)
    ensures h == FetchAlbumInfo && r.Some? ==>
      var names := SplitAlbumTitle(env.oembedTitle(Album, id).value);
      r.value == SearchAlbum(names.album, names.artist)
    ensures h == FetchPlaylistInfo && r.Some? ==>
      r.value.q == Raw(env.oembedTitle(Playlist, id).value)
  {
    match h
    case FetchTrackInfo =>
      (match env.trackInfo(id)
       case None => None
       case Some(info) => Some(SearchSong(info.title, Str(info.artist))))
    case FetchArtistInfo =>
      (match env.oembedTitle(Artist, id)
       case None => None
       case Some(title) => Some(SearchArtist(title)))
    case FetchAlbumInfo =>
      (match env.oembedTitle(Album, id)
       case None => None
       case Some(title) =>
         var names := SplitAlbumTitle(title);
         Some(SearchAlbum(names.album, names.artist)))
    case FetchPlaylistInfo =>
      (match env.oembedTitle(Playlist, id)
       case None => None
       case Some(title) => Some(SearchPlaylist(title)))
  }

  /** An album titled `album by artist` (no separator starting inside the album, none in the
      artist, no double quotes) makes the album fetcher search for that artist clause followed
      by that album clause. */
  lemma AlbumFetcherQuery(id: string, env: Env, album: string, artist: string)
    requires env.oembedTitle(Album, id) == Some(album + By + artist)
    requires !Contains(album + " ", By) && !Contains(artist, By)
    requires QuoteFree(album) && QuoteFree(artist)
    ensures PlannedSearch(FetchAlbumInfo, id, env).Some?
    ensures DecodeAlbumQuery(PlannedSearch(FetchAlbumInfo, id, env).value.q.text) == Some((album, artist))
  {
    OneSeparator(album, artist);
    AlbumQueryRoundTrip(album, Str(artist));
  }

  /** One fetcher run to completion. The track fetcher's `try` covers its metadata step, and
      any error there reads as "not found"; the other three leave a failed oEmbed fetch
      uncaught, so the page is left as it was. */
  function RunHandler(p: Presenter, d: Dispatch, env: Env): (q: Presenter)
    requires p.status == Converting
    ensures q == p || q.status.LinkShown? || q.status == CorsHelp
         || q.status == NotFoundOnDeezer(HandlerKind(d.handler))
    ensures q.status.LinkShown? ==> q.panelVisible && q.outputLink == q.status.link
    ensures !q.status.LinkShown? ==> q.panelVisible == p.panelVisible && q.outputLink == p.outputLink
  {
    match PlannedSearch(d.handler, d.id, env)
    case None =>
      if d.handler == FetchTrackInfo then Present(p, NotFound(Track)) else p
    case Some(req) =>
      Present(p, SearchOutcome(HandlerKind(d.handler), SearchResult(env.deezer(req))))
  }

  /** A whole conversion, from the page before it to the page after it. */
  function Convert(p: Presenter, input: string, env: Env): (q: Presenter)
    ensures q.panelVisible <==> q.status.LinkShown?
    ensures q.status.LinkShown? ==> q.outputLink == q.status.link
    ensures !q.status.LinkShown? ==> q.outputLink == p.outputLink
    ensures !q.status.Earlier?
    ensures q.status == InvalidLink <==> !Contains(input, Host)
    ensures Parse(input).Crash? ==> q.status == Converting
    ensures q.status.NotFoundOnDeezer? ==> Parse(input).Parsed? && Parse(input).kind == q.status.kind
    ensures q.status.LinkShown? || q.status == CorsHelp ==> Parse(input).Parsed?
  {
    var started := ConvertLink(p, input);
    match started.dispatched
    case None => started.presenter
    case Some(d) => RunHandler(started.presenter, d, env)
  }

  /** Once the metadata step succeeded, the search response alone decides the outcome: the
      CORS help exactly for a response that is not ok, the parsed kind's "not found" for an
      empty `data` or a rejected request, and the first link of a non-empty `data`. */
  lemma SearchDecidesOutcome(p: Presenter, input: string, env: Env)
    ensures Parse(input).Parsed? ==>
      var planned := PlannedSearch(HandlerFor(Parse(input).kind), Parse(input).id, env);
      var q := Convert(p, input, env);
      planned.Some? ==>
        var resp := env.deezer(planned.value);
        && (q.status == CorsHelp <==> resp.NotOk?)
        && (q.status == NotFoundOnDeezer(Parse(input).kind) <==> (resp.Json? && |resp.data| == 0) || resp.Rejected?)
        && (q.status.LinkShown? <==> resp.Json? && |resp.data| > 0)
        && (q.status.LinkShown? ==> q == Presenter(LinkShown(resp.data[0].link), true, resp.data[0].link))
  {
  }

  /** A failed metadata step: the track fetcher shows "Track not found on Deezer." whatever
      went wrong, the other three fetchers leave "Converting..." on screen with the panel
      hidden. */
  lemma MetadataFailure(p: Presenter, input: string, env: Env)
    ensures Parse(input).Parsed? ==>
      var planned := PlannedSearch(HandlerFor(Parse(input).kind), Parse(input).id, env);
      var q := Convert(p, input, env);
      planned.None? ==>
        && (Parse(input).kind == Track ==> q == Presenter(NotFoundOnDeezer(Track), false, p.outputLink))
        && (Parse(input).kind != Track ==> q == Presenter(Converting, false, p.outputLink))
  {
  }

  /** The CORS help only ever comes from a search: a track link whose metadata step failed
      always ends in "Track not found on Deezer.", never in the CORS help. */
  lemma TrackMetadataNeverCors(p: Presenter, input: string, env: Env)
    ensures (Parse(input).Parsed? && Parse(input).kind == Track && env.trackInfo(Parse(input).id).None?)
      ==> Convert(p, input, env).status == NotFoundOnDeezer(Track)
  {
  }

  /** Without the host in the input nothing is fetched: the result does not depend on the
      network at all, and it is the invalid-link message with the panel hidden. */
  lemma NoHostNoFetch(p: Presenter, input: string, env1: Env, env2: Env)
    requires !Contains(input, Host)
    ensures ConvertLink(p, input).dispatched.None?
    ensures Convert(p, input, env1) == Convert(p, input, env2)
        == Presenter(InvalidLink, false, p.outputLink)
  {
  }

  /** The artist link of the end-to-end example, cut into the parts `ParseLink` names. */
  lemma ArtistLinkPieces(input: string, lead: string, id: string)
    requires input == "https://open.spotify.com/artist/1234"
    requires lead == "https://" && id == "1234"
    ensures lead + Prefix(Artist) + id + "" == input
  {
    var prefix := Prefix(Artist);
    assert prefix == "open.spotify.com/artist/";
    assert lead + prefix == "https://open.spotify.com/artist/";
    assert lead + prefix + id == "https://open.spotify.com/artist/1234";
  }

  /** The artist link of the end-to-end example parses to its kind and id. */
  lemma ArtistLinkParses(input: string)
    requires input == "https://open.spotify.com/artist/1234"
    ensures Parse(input) == Parsed(Artist, "1234")
  {
    var lead := input[..8];
    var id := input[32..];
    assert lead == "https://" && id == "1234";
    ArtistLinkPieces(input, lead, id);
    assert forall j :: 0 <= j < |lead| ==> lead[j] != 'o';
    assert forall j :: 0 <= j < |id| ==> IsAlnum(id[j]);
    ParseLink(lead, Artist, id, "");
  }

  /** An artist link whose oEmbed title is "Daft Punk" searches for `artist:"Daft Punk"` and
      shows the first result's link. */
  lemma ArtistLinkEndToEnd(p: Presenter, input: string, env: Env, first: Item, others: seq<Item>)
    requires input == "https://open.spotify.com/artist/1234"
    requires env.oembedTitle(Artist, "1234") == Some("Daft Punk")
    requires env.deezer(SearchArtist("Daft Punk")) == Json([first] + others)
    ensures Convert(p, input, env) == Presenter(LinkShown(first.link), true, first.link)
  {
    ArtistLinkParses(input);
    SearchDecidesOutcome(p, input, env);
  }
}
