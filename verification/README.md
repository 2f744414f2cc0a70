# Spotify-to-Deezer link converter, modelled in Dafny

The converter is a single browser page. The user pastes a Spotify link and `convertLink` runs.
It hides the output panel, shows "Converting...", and checks that the input contains
`open.spotify.com`. It then matches the unanchored pattern
`open\.spotify\.com\/(track|artist|album|playlist)\/([a-zA-Z0-9]+)` and starts one of four
fetchers. Each fetcher gets a title (and, for a track, an artist) for the Spotify resource.
It then builds a Deezer search query and takes the first entry of the response's `data`.
Last, it writes one of three outcomes to the page:
- the link, with the output panel shown;
- the CORS help text, when a Deezer search threw "Network response was not ok";
- "<Kind> not found on Deezer.", for any other error that is caught.

This project models that core as pure functions over immutable datatypes:

- `text.dfy` — module `Text`: substring search (`includes`, `indexOf`), the maximal
  `[a-zA-Z0-9]` run a greedy class consumes, and `String.prototype.split` with a string
  separator, characterised exactly (`IsSplit`) and inverted by `Join`. Module `JsValues`:
  `undefined`-or-string values, template interpolation (`undefined` prints as "undefined"),
  truthiness, and thrown errors identified by their message.
- `resource.dfy` — module `Resource`: the four resource kinds, with their path keyword and
  their display label.
- `link_parser.dfy` — module `LinkParser`: the `includes` guard and the pattern with
  JavaScript's leftmost-match semantics. The alternatives are tried in order at each index,
  and the id is the maximal alphanumeric run. The result is `Invalid | Crash | Parsed(kind, id)`.
- `deezer_search.dfy` — module `DeezerSearch`: the four query builders, the endpoints, and
  `fetchWithProxy`. `encodeURIComponent` is applied to the song query only. A search response
  is a rejected request (with the browser's own error message), a response that is not ok,
  or a JSON `data` list. Each search resolves to `data[0]`. The artist, album and song queries
  have decoders that recover their inputs when those contain no double quote; the playlist
  query is the name itself.
- `album_title.dfy` — module `AlbumTitle`: `const [album, artist] = title.split(" by ")`.
- `converter.dfy` — module `Converter`: the page state (`Presenter`), the dispatch switch, the
  `catch` classification by exact message, the four fetchers, and a whole conversion
  `Convert`. The network, the oEmbed metadata and the scraped embed markup are the inputs
  in `Env`.

Some behaviours of the code are easy to expect otherwise; the model follows the code:

- An input that contains `open.spotify.com` but does not match the pattern is not reported
  as invalid. `match` returns `null`, destructuring it throws, and "Converting..." stays on
  screen (`Crash`).
- There is no "(feat. ...)" title splitting, and tracks are not split at " by ". A track's
  title and artist come from the scraped embed markup. The " by " split is used for albums
  only.
- An album title without " by " leaves `artist` `undefined`. The album query then reads
  `artist:"undefined" album:"<title>"`, and the model keeps that.
- For artists, albums and playlists, a failure of the oEmbed fetch is never caught. The page
  keeps "Converting..." and the panel stays hidden. The track fetcher's `try` covers its
  metadata step, so there such a failure is caught.
- A failed track metadata step always shows "Track not found on Deezer.", never the CORS
  help. The oEmbed fetch, the embed fetch and the scraping do not go through
  `fetchWithProxy`, so none of them throws "Network response was not ok", and the message
  check in the `catch` cannot succeed there.
- A rejected proxied request, such as a network failure, throws the browser's own error, not
  "Network response was not ok". It therefore shows "not found", not the CORS help.

## Model

| member | source | states |
|---|---|---|
| `Text.IndexOf` | script.js:48 | the result is the leftmost occurrence at or after the start index, and there is none when nothing occurs |
| `Text.Includes` | script.js:48 | `includes` is true exactly when the pattern occurs somewhere in the input |
| `Text.AlnumRun` | script.js:53 | the id class takes the longest run of ASCII letters and digits: it stops at the first other character or at the end |
| `Text.MaximalAlnumRunUnique` | script.js:53 | from a given index there is only one maximal alphanumeric run, so the id is determined |
| `Text.Split` | script.js:145 | `split` with a non-empty separator gives at least one piece |
| `Text.SplitIsSplit` | script.js:145 | `split` gives at least one piece; joining the pieces with the separator gives the input back; each separator used was the first one left; the last piece holds none |
| `Text.SplitUnique` | script.js:145 | any decomposition with those properties is the one `split` returns |
| `Text.SplitCharacterized` | script.js:145 | both directions: a list of pieces is the split exactly when it is such a left-to-right decomposition |
| `Text.SepFollowsFirstExcludes` | script.js:145 | a piece that ends at the first separator contains no separator itself |
| `JsValues.Interpolate` | script.js:5-17 | a template literal prints a string as itself and `undefined` as the word "undefined" |
| `JsValues.Truthy` | script.js:16 | `if (artist)` passes for every value except `undefined` and the empty string |
| `LinkParser.PrefixesExclusive` | script.js:53 | no two of track/artist/album/playlist can match at the same index |
| `LinkParser.MatchAtUnique` | script.js:53 | a match at one index has exactly one kind and one id |
| `LinkParser.MatchFor` | script.js:53 | the captures for an alternative are that kind and a non-empty maximal id |
| `LinkParser.MatchAt` | script.js:53 | at one index, the pattern gives a match exactly when some alternative matches there, and the match it gives has the right captures |
| `LinkParser.FindMatch` | script.js:53 | the unanchored search reports the first start index that matches, or none when no index matches |
| `LinkParser.MatchContainsHost` | script.js:48-53 | every match contains `open.spotify.com`, so the guard never rejects a link the pattern would accept |
| `LinkParser.Parse` | script.js:48-53 | Invalid exactly when the host is absent; Crash exactly when the host is present but nothing matches; a parsed id is non-empty and all letters and digits |
| `LinkParser.ParsedIffSomeMatch` | script.js:48-53 | the input parses exactly when the pattern matches somewhere in it |
| `LinkParser.ParseSound` | script.js:53 | a parsed kind and id come from a leftmost match |
| `LinkParser.ParseComplete` | script.js:53 | the leftmost match with its maximal id is what the parser returns |
| `LinkParser.ParseCharacterized` | script.js:53 | both directions: the parse equals (kind, id) exactly when they are the captures of the leftmost match |
| `LinkParser.ParseLink` | script.js:53 | a link whose text before the host contains no letter `o` (so no earlier match can start there), with a non-empty alphanumeric id followed by a non-alphanumeric character, such as `?`, or by nothing, parses to exactly that kind and id |
| `DeezerSearch.Endpoint` | script.js:5-24 | each endpoint is the search base followed by the kind's path and `?`, ends in `&q=`, and asks for `order=RANKING` exactly when the kind is not the playlist; the playlist endpoint asks for `strict=on` instead |
| `DeezerSearch.Url` | script.js:5-29 | the URL starts with the kind's endpoint; an unencoded query follows it verbatim |
| `DeezerSearch.SearchArtist` | script.js:4-5 | the artist search goes to the artist endpoint with an unencoded query |
| `DeezerSearch.SearchAlbum` | script.js:9-10 | the album search goes to the album endpoint with an unencoded query |
| `DeezerSearch.SongQuery` | script.js:15-18 | the song query starts with the `track:"T"` clause, and it is only that clause exactly when the artist is not truthy |
| `DeezerSearch.SearchSong` | script.js:14-19 | the song search goes to the track endpoint, and its query is the one passed through `encodeURIComponent` |
| `DeezerSearch.SearchPlaylist` | script.js:23-24 | the playlist search sends the name itself, unencoded |
| `DeezerSearch.ReadClauseRoundTrip` | script.js:5-17 | a `field:"value"` clause with a quote-free value reads back as that value and the rest of the text |
| `DeezerSearch.SongQueryRoundTrip` | script.js:15-18 | decoding the song query gives back the title, plus the artist exactly when it is truthy |
| `DeezerSearch.AlbumQueryRoundTrip` | script.js:10 | decoding the album query, artist clause first, gives back the album title and the printed artist ("undefined" when absent) |
| `DeezerSearch.ArtistQueryRoundTrip` | script.js:5 | decoding the artist query gives back the artist name |
| `DeezerSearch.SongQueryAmbiguousWithQuotes` | script.js:15-17 | values are inserted unescaped, so a title that holds a double quote can produce the query of a different title and artist |
| `DeezerSearch.FetchWithProxy` | script.js:28-34 | throws exactly when the request was rejected or the response is not ok; it throws "Network response was not ok" exactly when the response is not ok, and a rejection keeps the browser's own message, which is never that one; otherwise yields the body's data |
| `DeezerSearch.SearchResult` | script.js:3-34 | a search throws exactly when `fetchWithProxy` does, with its error; it resolves to nothing exactly when `data` is empty, and otherwise to `data[0]` |
| `AlbumTitle.SplitAlbumTitle` | script.js:145 | the album is a prefix of the title, and it is the whole title whenever the artist is undefined |
| `AlbumTitle.FirstPiece` | script.js:145 | with a separator present, the first piece is the text before the leftmost one |
| `AlbumTitle.SecondPiece` | script.js:145 | the second piece runs from the leftmost separator to the next separator or to the end: no separator starts inside its span of the title, even one that overlaps its end, and it contains none |
| `AlbumTitle.SplitAlbumTitleShape` | script.js:145 | the artist is undefined exactly when the title has no " by ", and then the album is the whole title; otherwise the album is the text before the leftmost " by ", the artist runs to the next " by " or the end, with no " by " starting inside its span of the title, and anything after is dropped |
| `AlbumTitle.NoSeparatorAllAlbum` | script.js:145 | a title without " by " gives the whole title as album and an undefined artist |
| `AlbumTitle.OneSeparator` | script.js:145 | `album by artist` splits into exactly those two names when the album followed by a space contains no " by " (so no separator starts in the album) and the artist contains none |
| `Converter.HandlerFor` | script.js:55-68 | the fetcher the switch starts looks up the kind that was parsed |
| `Converter.DispatchOneToOne` | script.js:55-68 | each kind goes to exactly one fetcher and each fetcher serves exactly one kind |
| `Converter.StatusText` | script.js:46-182 | exactly "Converting...", the invalid-link message and the four not-found messages are plain text, and each not-found message starts with its kind's label |
| `Converter.StatusTextDistinct` | script.js:46-182 | no two plain-text statuses ("Converting...", the invalid-link message, the four not-found messages) have the same text |
| `Converter.ConvertLink` | script.js:39-69 | the panel is hidden and the output field is untouched. The status is the invalid-link message exactly when the host is absent, and "Converting..." otherwise. A fetcher starts exactly when the link parses, and it gets the parsed kind and id |
| `Converter.Classify` | script.js:109-114 | an error gives the CORS help exactly when its message is the `fetchWithProxy` one; every other error gives the kind's "not found" |
| `Converter.NotFoundError` | script.js:105-175 | each fetcher's "not found" error starts with its kind's label and is never the `fetchWithProxy` message, so it never reads as a CORS failure |
| `Converter.SearchOutcome` | script.js:103-114 | a link is shown exactly when the search gave a result; an empty result is "not found", never the CORS help; a thrown error is classified |
| `Converter.Present` | script.js:188-196 | a found link sets the link status, the output field and the visible panel; the CORS help and "not found" change the status only |
| `Converter.PlannedSearch` | script.js:79-186 | a fetcher searches its own kind's endpoint; only the track fetcher encodes its query; the search happens exactly when the metadata step succeeded. The query is built from that metadata: the track's title and scraped artist, the artist name, the album title split at " by ", the playlist name as it is |
| `Converter.AlbumFetcherQuery` | script.js:141-147 | an album titled `album by artist`, with no separator starting in the album, none in the artist and no quotes, searches a query that decodes to exactly that album and artist |
| `Converter.RunHandler` | script.js:79-186 | started on the "Converting..." page, a fetcher leaves it unchanged or ends in the link, the CORS help, or its own kind's "not found"; a shown link also shows the panel and fills the output field, and nothing else changes them |
| `Converter.Convert` | script.js:39-196 | after a conversion, the panel is visible exactly when a link is shown, and the output field holds that link. Otherwise the field is unchanged. The invalid-link message appears exactly when the host is absent, and a crash leaves "Converting...". A "not found" names the parsed kind |
| `Converter.SearchDecidesOutcome` | script.js:103-136 | once metadata is in, the CORS help comes exactly from a not-ok response; the kind's "not found" comes exactly from an empty `data` or a rejected request; a non-empty `data` shows `data[0].link` with the panel visible (each an iff) |
| `Converter.MetadataFailure` | script.js:79-186 | a failed track metadata step shows "Track not found on Deezer." with the panel hidden; the other fetchers leave "Converting..." with the panel hidden |
| `Converter.TrackMetadataNeverCors` | script.js:80-115 | a track link whose metadata step failed ends in "Track not found on Deezer.", never in the CORS help |
| `Converter.NoHostNoFetch` | script.js:48-51 | without the host nothing is dispatched; the outcome does not depend on the network and is the invalid-link message with the panel hidden |
| `Converter.ArtistLinkParses` | script.js:53 | `https://open.spotify.com/artist/1234` parses to the artist kind with id `1234` |
| `Converter.ArtistLinkEndToEnd` | script.js:118-139 | that artist link with oEmbed title "Daft Punk" searches `artist:"Daft Punk"` and shows the first result's link with the panel visible |

## Left out

- `fetch`, the CORS proxy prefix and `response.json()` are network I/O. Their results are the
  inputs in `Env`: a rejected search request with its message, a response that is not ok, or
  a `data` list; a title string or a failure; a track's title and artist or a failure. A
  `json()` that throws is folded into the rejected case.
- The exact text of the browser's `TypeError` and `SyntaxError` messages is not modelled.
  `BrowserMessage` records only that it is never "Network response was not ok".
- The DOMParser scraping of the Spotify embed markup (script.js:93-98) depends on third-party
  markup. It is folded into `Env.trackInfo`, which either yields a title and artist or fails. The
  message of such a failure is dropped, because it can never be the `fetchWithProxy` one.
- The character table of `encodeURIComponent` is not modelled. A query is marked
  `UriEncoded`, and `Url` takes the encoding function as a parameter.
- The oEmbed request URLs (script.js:82, 119, 142, 166) and the embed URL are not built. The
  metadata for a kind and id is an input.
- A JSON body without `data`, or a title or `link` that is not a string, is not modelled.
  Responses are assumed to have the documented shape.
- Promise chaining and overlapping conversions are concurrency. A conversion is modelled as
  one sequential run from the page before it to the page after it.
- The clipboard copy and its alert (script.js:198-203), the `innerHTML` markup of the link and
  of the CORS help, and `console.log` are left out. `StatusText` gives only the plain-text
  statuses.
- JavaScript strings are UTF-16 code units, and Dafny `char` is a Unicode scalar value. The
  characters the pattern and the separators test are all ASCII, so this does not affect the
  results.
- `DeezerSearch.Url` states only the endpoint prefix and the verbatim unencoded query, because
  the encoded form is produced by the unmodelled `encodeURIComponent`.
