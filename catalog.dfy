/** The catalogue entities the store holds and the pages list
    (src/context/MusicContext.jsx:6-127 shows their shape). */
module Catalog {
  import opened Text

  datatype Option<T> = None | Some(value: T)

  /** A playable track. `duration` is whole seconds; `audioUrl` is the opaque media locator
      handed to the audio element. The display-only `cover` emoji is not modelled. */
  datatype Track = Track(
    id: int,
    title: string,
    artist: string,
    album: string,
    duration: nat,
    genre: string,
    audioUrl: string)

  /** A user playlist: its `tracks` are track ids, in order, duplicates allowed. */
  datatype Playlist = Playlist(id: int, name: string, description: string, tracks: seq<int>)

  /** A catalogue album. Its own `trackIds` list is never read by the pages: they join
      albums to tracks by title and artist instead. */
  datatype Album = Album(id: int, title: string, artist: string, trackIds: seq<int>, year: int)

  datatype Genre = Genre(id: int, name: string, color: string)

  /** Case-insensitive containment of `query` in `field`: `field.toLowerCase().includes(query.toLowerCase())`.
      The empty query is contained in every field. */
  predicate FieldMatches(field: string, query: string)
    ensures query == "" ==> FieldMatches(field, query)
  {
    Includes(Lower(field), Lower(query))
  }

  /** The track-search predicate: the query occurs, ignoring case, in the title, the
      artist, the album or the genre. The empty query matches every track. */
  predicate TrackMatches(t: Track, query: string)
    ensures query == "" ==> TrackMatches(t, query)
  {
    FieldMatches(t.title, query) || FieldMatches(t.artist, query)
    || FieldMatches(t.album, query) || FieldMatches(t.genre, query)
  }

  /** The query's own case does not matter: lower-casing it first changes no match. */
  lemma TrackMatchesIgnoresCase(t: Track, query: string)
    ensures TrackMatches(t, Lower(query)) == TrackMatches(t, query)
  {
    LowerIdempotent(query);
  }

  /** Total playing time of a list of tracks, in seconds (`reduce((sum, t) => sum + t.duration, 0)`):
      zero for no tracks, and never less than any one track's duration. */
  function TotalDuration(ts: seq<Track>): (r: nat)
    ensures ts == [] ==> r == 0
    ensures forall i :: 0 <= i < |ts| ==> ts[i].duration <= r
  {
    if ts == [] then 0 else ts[0].duration + TotalDuration(ts[1..])
  }
}
