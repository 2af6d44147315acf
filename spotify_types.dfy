/** The client's data: the now-playing record and the per-artist fetch states. */
module SpotifyTypes {
  import opened Wrappers

  datatype ArtistStatus = Idle | Loading | Loaded | Error

  /** One entry of the client's artist map: a status with an optional text or error message. */
  datatype ArtistState = ArtistState(status: ArtistStatus, text: Option<string>, error: Option<string>)

  /** Exact artist name to fetch state; keys are not case-normalised. */
  type ArtistMap = map<string, ArtistState>

  datatype Artist = Artist(name: string)
  datatype Image = Image(url: string)
  datatype Album = Album(name: string, images: seq<Image>)
  datatype Track = Track(id: string, name: string, artists: seq<Artist>, album: Album, durationMs: int)

  /**
   * The currently-playing payload. `item` is optional because the client
   * reads it through optional chaining.
   */
  datatype Playback = Playback(isPlaying: bool, progressMs: int, item: Option<Track>, contextUri: string)

  /** `nowPlaying?.item?.artists[0]?.name`: the first artist's name, when there is one. */
  function FirstArtistName(np: Option<Playback>): (r: Option<string>)
    ensures r.Some? <==> np.Some? && np.value.item.Some? && |np.value.item.value.artists| > 0
    ensures r.Some? ==> r.value == np.value.item.value.artists[0].name
  {
    match np
    case None => None
    case Some(p) =>
      match p.item
      case None => None
      case Some(t) => if |t.artists| > 0 then Some(t.artists[0].name) else None
  }
}
