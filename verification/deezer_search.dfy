/** The `DeezerSearch` client: one query builder per search kind, the `fetchWithProxy` error
    rule, and `response.data[0]` as the search result. The network itself is an input. */
module DeezerSearch {
  import opened Wrappers
  import opened Text
  import opened JsValues
  import opened Resource

  /** How the query reaches the URL: spliced in verbatim, or passed through
      `encodeURIComponent` (whose character table is not modelled). */
  datatype Query = Raw(text: string) | UriEncoded(text: string)

  /** One search request: the endpoint is fixed by the kind, the query follows `q=`. */
  datatype Request = Request(kind: Kind, q: Query)

  /** The part every search URL shares. */
  const SearchBase := "https://api.deezer.com/search/"

  /** The text of each endpoint up to and including `q=`: the kind's path under the search
      base, and `order=RANKING` for every kind but the playlist, which uses `strict=on`. */
  function Endpoint(k: Kind): (e: string)
    ensures SearchBase + Keyword(k) + "?" <= e
    ensures |e| >= 3 && e[|e| - 3..] == "&q="
    ensures var ranking := "order=RANKING";
      k != Playlist <==> OccursAt(e, ranking, |SearchBase + Keyword(k) + "?"|)
    ensures k == Playlist ==> OccursAt(e, "strict=on", |SearchBase + Keyword(k) + "?"|)
  {
    var path := SearchBase + Keyword(k) + "?";
    var e := path + (if k == Playlist then "strict=on&q=" else "order=RANKING&q=");
    assert e[|path|..] == (if k == Playlist then "strict=on&q=" else "order=RANKING&q=");
    assert e[|e| - 3..] == "&q=";
    if k == Playlist then
      assert e[|path|] == 's';
      assert e[|path|..|path| + 9] == "strict=on";
      e
    else
      assert e[|path|..|path| + 13] == "order=RANKING";
      e
  }

  /** The URL handed to the proxy, given how `encodeURIComponent` maps a string. */
  function Url(r: Request, encodeUriComponent: string -> string): (url: string)
    ensures Endpoint(r.kind) <= url
    ensures r.q.Raw? ==> url[|Endpoint(r.kind)|..] == r.q.text
  {
    Endpoint(r.kind) + (match r.q
      case Raw(text) => text
      case UriEncoded(text) => encodeUriComponent(text))
  }

  /** A fielded search term `field:"value"`. */
  function Clause(field: string, value: string): string {
    field + ":\"" + value + "\""
  }

  /** `searchArtist(artist)`: the clause `artist:"<name>"`, not encoded. */
  function SearchArtist(artist: string): (r: Request)
    ensures r.kind == Artist && r.q.Raw?
  {
    Request(Artist, Raw(Clause("artist", artist)))
  }

  /** `searchAlbum(albumTitle, artist)`: the artist clause first, then the album clause,
      not encoded; an `undefined` artist is printed as the word "undefined". */
  function SearchAlbum(albumTitle: string, artist: JsValue): (r: Request)
    ensures r.kind == Album && r.q.Raw?
  {
    Request(Album, Raw(Clause("artist", Interpolate(artist)) + " " + Clause("album", albumTitle)))
  }

  /** The query `searchSong` builds: the track clause, then the artist clause only when the
      artist is truthy. */
  function SongQuery(trackTitle: string, artist: JsValue): (q: string)
    ensures Clause("track", trackTitle) <= q
    ensures q == Clause("track", trackTitle) <==> !Truthy(artist)
  {
    var query := Clause("track", trackTitle);
    if Truthy(artist) then query + " " + Clause("artist", artist.s) else query
  }

  /** `searchSong(trackTitle, artist)`: the only search whose query is URI-encoded. */
  function SearchSong(trackTitle: string, artist: JsValue): (r: Request)
    ensures r.kind == Track && r.q == UriEncoded(SongQuery(trackTitle, artist))
  {
    Request(Track, UriEncoded(SongQuery(trackTitle, artist)))
  }

  /** `searchPlaylist(playlistName)`: the name itself is the query, not encoded. */
  function SearchPlaylist(playlistName: string): (r: Request)
    ensures r.kind == Playlist && r.q == Raw(playlistName)
  {
    Request(Playlist, Raw(playlistName))
  }

  /** No double quote inside: a value a fielded clause can carry unambiguously. */
  predicate QuoteFree(v: string) {
    forall j :: 0 <= j < |v| ==> v[j] != '"'
  }

  /** Reads a leading `field:"value"` off `q`: the value runs to the next double quote; also
      returns what follows the closing quote. */
  function ReadClause(q: string, field: string): Option<(string, string)> {
    var opening := field + ":\"";
    if opening <= q then
      match IndexOf(q, "\"", |opening|)
      case None => None
      case Some(e) => Some((q[|opening|..e], q[e + 1..]))
    else None
  }

  /** A clause whose value is quote-free reads back as that value and the text after it. */
  lemma ReadClauseRoundTrip(field: string, value: string, rest: string)
    requires QuoteFree(value)
    ensures ReadClause(Clause(field, value) + rest, field) == Some((value, rest))
  {
    var opening := field + ":\"";
    var q := Clause(field, value) + rest;
    var e := |opening| + |value|;
    assert q == opening + value + "\"" + rest;
    assert opening <= q;
    assert OccursAt(q, "\"", e) by {
      assert q[e..e + 1] == "\"";
    }
    forall j: nat | |opening| <= j < e
      ensures !OccursAt(q, "\"", j)
    {
      assert q[j] == value[j - |opening|];
      assert q[j..j + 1] == [q[j]];
    }
    assert IndexOf(q, "\"", |opening|) == Some(e);
    assert q[|opening|..e] == value;
    assert q[e + 1..] == rest;
  }

  /** Recovers (title, artist) from a song query; the inverse of `SongQuery`. */
  function DecodeSongQuery(q: string): Option<(string, Option<string>)> {
    match ReadClause(q, "track")
    case None => None
    case Some((title, rest)) =>
      if rest == "" then Some((title, None))
      else if rest[0] != ' ' then None
      else match ReadClause(rest[1..], "artist")
        case Some((artist, tail)) => if tail == "" then Some((title, Some(artist))) else None
        case None => None
  }

  /** The song query carries exactly the title and, when truthy, the artist. */
  lemma SongQueryRoundTrip(trackTitle: string, artist: JsValue)
    requires QuoteFree(trackTitle)
    requires artist.Str? ==> QuoteFree(artist.s)
    ensures DecodeSongQuery(SongQuery(trackTitle, artist))
         == Some((trackTitle, if Truthy(artist) then Some(artist.s) else None))
  {
    var q := SongQuery(trackTitle, artist);
    if Truthy(artist) {
      var rest := " " + Clause("artist", artist.s);
      assert q == Clause("track", trackTitle) + rest;
      ReadClauseRoundTrip("track", trackTitle, rest);
      assert ReadClause(q, "track") == Some((trackTitle, rest));
      assert rest[1..] == Clause("artist", artist.s) + "";
      ReadClauseRoundTrip("artist", artist.s, "");
      assert ReadClause(rest[1..], "artist") == Some((artist.s, ""));
    } else {
      assert q == Clause("track", trackTitle) + "";
      ReadClauseRoundTrip("track", trackTitle, "");
      assert ReadClause(q, "track") == Some((trackTitle, ""));
    }
  }

  /** Recovers (album, artist) from an album query, reading the artist clause first. */
  function DecodeAlbumQuery(q: string): Option<(string, string)> {
    match ReadClause(q, "artist")
    case None => None
    case Some((artist, rest)) =>
      if rest == "" || rest[0] != ' ' then None
      else match ReadClause(rest[1..], "album")
        case Some((album, tail)) => if tail == "" then Some((album, artist)) else None
        case None => None
  }

  /** The album query carries the album title and the printed artist, artist clause first. */
  lemma AlbumQueryRoundTrip(albumTitle: string, artist: JsValue)
    requires QuoteFree(albumTitle) && QuoteFree(Interpolate(artist))
    ensures DecodeAlbumQuery(SearchAlbum(albumTitle, artist).q.text)
         == Some((albumTitle, Interpolate(artist)))
  {
    var q := SearchAlbum(albumTitle, artist).q.text;
    var rest := " " + Clause("album", albumTitle);
    assert q == Clause("artist", Interpolate(artist)) + rest;
    ReadClauseRoundTrip("artist", Interpolate(artist), rest);
    assert ReadClause(q, "artist") == Some((Interpolate(artist), rest));
    assert rest[1..] == Clause("album", albumTitle) + "";
    ReadClauseRoundTrip("album", albumTitle, "");
    assert ReadClause(rest[1..], "album") == Some((albumTitle, ""));
  }

  /** Recovers the name from an artist query. */
  function DecodeArtistQuery(q: string): Option<string> {
    match ReadClause(q, "artist")
    case Some((artist, tail)) => if tail == "" then Some(artist) else None
    case None => None
  }

  /** The artist query carries exactly the artist name. */
  lemma ArtistQueryRoundTrip(artist: string)
    requires QuoteFree(artist)
    ensures DecodeArtistQuery(SearchArtist(artist).q.text) == Some(artist)
  {
    ReadClauseRoundTrip("artist", artist, "");
    assert Clause("artist", artist) + "" == Clause("artist", artist);
  }

  /** Without the quote-free condition the clauses are ambiguous: a title holding a quote can
      produce the very query of another title with an artist. */
  lemma SongQueryAmbiguousWithQuotes()
    ensures SongQuery("a\" artist:\"b", Undefined) == SongQuery("a", Str("b"))
  {
  }

  /** One entry of the `data` array of a search response. */
  datatype Item = Item(link: string)

  /** The message `fetchWithProxy` throws, which the fetchers compare against. */
  const NetworkNotOk := "Network response was not ok"

  /** The message of an error the browser itself raises: the `TypeError` of a rejected `fetch`
      or the `SyntaxError` of a body that is not JSON. It is never the `fetchWithProxy` one. */
  type BrowserMessage = m: string | m != NetworkNotOk witness ""

  /** What the proxied request yields: `fetch` or `response.json()` rejected with the browser's
      error, a response that is not ok, or an ok one whose JSON body has a `data` array. */
  datatype Response = Rejected(message: BrowserMessage) | NotOk | Json(data: seq<Item>)

  /** `fetchWithProxy`: a rejected request passes its error on; a response that is not ok makes
      it throw, always with the same message; otherwise it yields the body's `data`. */
  function FetchWithProxy(resp: Response): (r: Result<seq<Item>, JsError>)
    ensures r.Err? <==> !resp.Json?
    ensures resp.NotOk? ==> r.error.message == NetworkNotOk
    ensures resp.Rejected? ==> r.error.message == resp.message
    ensures (r.Err? && r.error.message == NetworkNotOk) <==> resp.NotOk?
    ensures r.Ok? ==> r.value == resp.data
  {
    match resp
    case Rejected(message) => Err(JsError(message))
    case NotOk => Err(JsError(NetworkNotOk))
    case Json(data) => Ok(data)
  }

  /** What each `search*` method resolves to: `response.data[0]`, `undefined` when the list
      is empty; it rejects with the error of `fetchWithProxy`. */
  function SearchResult(resp: Response): (r: Result<Option<Item>, JsError>)
    ensures r.Err? <==> !resp.Json?
    ensures r.Err? ==> r.error == FetchWithProxy(resp).error
    ensures r == Ok(None) <==> resp.Json? && |resp.data| == 0
    ensures r.Ok? && r.value.Some? ==> resp.Json? && |resp.data| > 0 && r.value.value == resp.data[0]
  {
    match FetchWithProxy(resp)
    case Err(e) => Err(e)
    case Ok(data) => if |data| == 0 then Ok(None) else Ok(Some(data[0]))
  }
}
