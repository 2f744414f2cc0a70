/** The four kinds of Spotify resource the converter understands. */
module Resource {

  datatype Kind = Track | Artist | Album | Playlist

  /** The lower-case word naming a kind, both in Spotify paths and in Deezer search endpoints. */
  function Keyword(k: Kind): string {
    match k
    case Track => "track"
    case Artist => "artist"
    case Album => "album"
    case Playlist => "playlist"
  }

  /** The capitalised word naming a kind in the messages shown to the user. */
  function Label(k: Kind): string {
    match k
    case Track => "Track"
    case Artist => "Artist"
    case Album => "Album"
    case Playlist => "Playlist"
  }
}
