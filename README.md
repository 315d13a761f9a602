# Music player store and catalogue pages, modelled in Dafny

This project models the state logic of a React music-streaming front end.

- **The store** (`MusicProvider` in `src/context/MusicContext.jsx`) is the one stateful object. It holds
  the current track, the play/pause flag, the playback position, duration and volume, the shuffle and
  repeat flags, a FIFO play queue, the catalogue, the user's playlists and a two-phase track search.
  It is modelled as the class `MusicContext.MusicStore`. Each handler is a method that changes only the
  fields its `modifies` clause names. Each method's `ensures` states the new value of those fields.
- **Pure derivations on the pages** are modelled as functions over sequences, with lemmas about them:
  - the search page's filtered track, album and genre lists and its "no results" condition;
  - the genres page's genre/track join with durations, and the selected-genre lookup;
  - the albums page's album/track join, year filter, multi-key sort, play button and preview;
  - the `m:ss` time formatter and the "same track, do nothing" play guard that every page repeats.

Model choices:

- The audio element stands for two things. It is *attached* exactly while there is a current track,
  because the element is only rendered then. Every command a handler sends to it (set position,
  play, set volume) is appended to the field `audioCommands`; the play and volume effects are
  not logged there. So "restart the track at 0" on
  end-of-track with repeat on shows up as the commands `SetPosition(0.0), Play`.
- The element's time, metadata and end events are method calls. The position or duration the element
  reports is passed in as a parameter.
- The 500 ms search timer does not run in real time. `SearchTracks` returns a `PendingSearch` value,
  which holds the query and the catalogue its closure captured. Whoever plays the role of the event loop
  later hands that value to `CompleteSearch`. No token or check ties a completion to the latest query.
  `StaleSearchIsPublished` shows that an older completion can publish results for an older query
  and clear `isSearching` while `searchQuery` already holds a newer query.
- Where a stricter behaviour might be expected, the model follows the code:
  - seek and volume are stored unclamped;
  - `playTrack` always sets the track and `isPlaying`;
  - there is no loading state;
  - the current track may also sit in the queue (`CurrentTrackMayBeQueued`);
  - the repeat branch of end-of-track restarts only the element and does not set the store's
    `currentTime`.
- Case-insensitive matching lower-cases only ASCII letters. `localeCompare` is replaced by code-point
  lexicographic order (`Text.CompareStrings`), a total order. Times and volume are `real`; track
  durations are whole seconds (`nat`).
- The pages' `[...filteredAlbums].sort(...)` sorts a copy. In the model every list is a value, so the
  filtered list cannot be changed by the sort.

## Model

| member | source | states |
|---|---|---|
| `MusicContext.MusicStore.constructor` | src/context/MusicContext.jsx:130-144 | Initial state: no current track, paused, time and duration 0, volume 0.7, flags off, empty queue, empty search, the given catalogue and playlists; the store invariant (`isPlaying` implies a current track) holds |
| `MusicContext.MusicStore.HandleTimeUpdate` | src/context/MusicContext.jsx:149-153 | `currentTime` becomes the reported position only while the element is attached; nothing else changes |
| `MusicContext.MusicStore.HandleLoadedMetadata` | src/context/MusicContext.jsx:155-159 | `duration` becomes the reported length only while attached; nothing else changes |
| `MusicContext.MusicStore.HandleEnded` | src/context/MusicContext.jsx:161-179 | Repeat first: track, queue, play state and time kept, and an attached element is told to go to 0 and play. Else a non-empty queue is dequeued as by skip-next. Else playback stops with time 0 and the current track kept |
| `MusicContext.MusicStore.PlayTrack` | src/context/MusicContext.jsx:182-185 | The given track becomes current and playing; queue, time and volume untouched |
| `MusicContext.MusicStore.PauseTrack` | src/context/MusicContext.jsx:187-189 | Only `isPlaying` changes, to false |
| `MusicContext.MusicStore.TogglePlayPause` | src/context/MusicContext.jsx:191-195 | No-op without a current track, otherwise negates `isPlaying`; nothing else changes |
| `MusicContext.MusicStore.SkipToNext` | src/context/MusicContext.jsx:197-204 | Non-empty queue: old head becomes current, old tail is the queue, playing. Empty queue: nothing changes |
| `MusicContext.MusicStore.SkipToPrevious` | src/context/MusicContext.jsx:206-217 | Past 3 s: time reset to 0, an attached element is sent to 0, the track stays. At 3 s or less: nothing changes |
| `MusicContext.MusicStore.SeekTo` | src/context/MusicContext.jsx:219-224 | Attached: time becomes exactly the argument (unclamped) and the element is sent there; detached: nothing changes |
| `MusicContext.MusicStore.SetVolumeLevel` | src/context/MusicContext.jsx:226-231 | Volume becomes exactly the argument (unclamped); it is forwarded to an attached element |
| `MusicContext.MusicStore.SetIsShuffled` | src/context/MusicContext.jsx:135 | Only the shuffle flag changes; no handler reads it |
| `MusicContext.MusicStore.SetIsRepeated` | src/context/MusicContext.jsx:136 | Only the repeat flag changes |
| `MusicContext.MusicStore.SetSearchQuery` | src/context/MusicContext.jsx:142 | Only `searchQuery` changes (the raw setter the search box uses) |
| `MusicContext.MusicStore.SearchTracks` | src/context/MusicContext.jsx:234-238 | `isSearching` set and `searchQuery` recorded at once; returns the pending completion carrying the captured query and catalogue |
| `MusicContext.MusicStore.CompleteSearch` | src/context/MusicContext.jsx:239-248 | Publishes the results for the completion's own query and catalogue, not the current `searchQuery`, and clears `isSearching` |
| `MusicContext.MusicStore.CreatePlaylist` | src/context/MusicContext.jsx:252-262 | Appends one playlist with the given id, name, description and no tracks, returns it; existing playlists unchanged |
| `MusicContext.MusicStore.AddTrackToPlaylist` | src/context/MusicContext.jsx:264-270 | Playlists become `WithTrackAdded` of the old ones |
| `MusicContext.MusicStore.RemoveTrackFromPlaylist` | src/context/MusicContext.jsx:272-278 | Playlists become `WithTrackRemoved` of the old ones |
| `MusicContext.MusicStore.AddToQueue` | src/context/MusicContext.jsx:281-283 | The track is appended at the tail; the old queue is the prefix; duplicates allowed |
| `MusicContext.MusicStore.ClearQueue` | src/context/MusicContext.jsx:285-287 | The queue becomes empty; the current track is untouched |
| `MusicContext.MusicStore.PlayEffect` | src/context/MusicContext.jsx:290-300 | The play effect acts iff an element is attached, and then calls `play()` iff the store is playing, `pause()` otherwise |
| `MusicContext.MusicStore.PlayingReachesElement` | src/context/MusicContext.jsx:290-300 | Under the store invariant, the play effect always finds an element and calls `play()` on it while the store is playing; it never starts the element while paused |
| `MusicContext.WithTrackAdded` | src/context/MusicContext.jsx:264-270 | Same number of playlists; the id is appended only to playlists with the given id, every other playlist is unchanged |
| `MusicContext.WithTrackRemoved` | src/context/MusicContext.jsx:272-278 | Same number of playlists; only playlists with the given id lose the track id, others unchanged |
| `MusicContext.WithoutIdRemovesAll` | src/context/MusicContext.jsx:275 | Every occurrence of the id is removed; every other id keeps its order and its number of occurrences |
| `MusicContext.RemoveUndoesAdd` | src/context/MusicContext.jsx:264-278 | Removing a track id right after adding it gives the same playlists as removing it alone |
| `MusicContext.SearchResultsFor` | src/context/MusicContext.jsx:240-245 | Every published result is a catalogue track that matches the query; there are never more results than catalogue tracks |
| `MusicContext.SearchResultsCharacterised` | src/context/MusicContext.jsx:240-245 | The results are an order-preserving subsequence of the catalogue; a track is in them iff its title, artist, album or genre contains the query ignoring case, with its catalogue multiplicity |
| `MusicContext.EmptySearchReturnsCatalogue` | src/context/MusicContext.jsx:240-245 | The empty query publishes the whole catalogue |
| `MusicContext.QueueIsFifo` | src/context/MusicContext.jsx:197-204 | FIFO law with `addToQueue` (lines 281-283): queue A then B on an empty queue; the returned tracks show the 1st skip plays A, the 2nd plays B and the 3rd leaves B current, ending with an empty queue while playing |
| `MusicContext.ToggleTwiceRestores` | src/context/MusicContext.jsx:191-195 | Two toggles restore the play state; track, queue, time and volume untouched |
| `MusicContext.StaleSearchIsPublished` | src/context/MusicContext.jsx:234-249 | Search `first` then `second` and deliver only the first completion: the results are `first`'s, `isSearching` is false, the recorded query is `second`, and `second`'s completion is still pending |
| `MusicContext.CurrentTrackMayBeQueued` | src/context/MusicContext.jsx:281-283 | The playing track can be appended to the queue; nothing keeps it out |
| `Catalog.TotalDuration` | src/pages/Genres.jsx:28 | The `reduce` sum of durations (also Albums.jsx:27): zero for no tracks, and at least each listed track's duration |
| `Catalog.FieldMatches` | src/context/MusicContext.jsx:241 | Case-insensitive containment; the empty query is contained in every field (`includes('')` is true) |
| `Catalog.TrackMatches` | src/context/MusicContext.jsx:240-245 | The four-field disjunction; the empty query matches every track |
| `Catalog.TrackMatchesIgnoresCase` | src/context/MusicContext.jsx:240-245 | Lower-casing the query first changes no match: the query's own case is irrelevant |
| `Text.Lower` | src/context/MusicContext.jsx:241 | `toLowerCase`: same length, each upper-case ASCII letter becomes its lower-case letter, every other character kept |
| `Text.LowerIdempotent` | src/context/MusicContext.jsx:241 | Lower-casing an already lower-cased string changes nothing |
| `Text.Includes` | src/context/MusicContext.jsx:241 | `includes`: true for the empty needle, false for a needle longer than the haystack |
| `Text.CompareStrings` | src/pages/Albums.jsx:49 | The three-way comparison (stand-in for `localeCompare`) returns -1, 0 or 1 |
| `Text.IncludesIffOccurs` | src/context/MusicContext.jsx:241 | `includes` holds iff the needle occurs at some offset of the haystack |
| `Text.CompareStringsZero` | src/pages/Albums.jsx:49 | The string order ties only equal strings |
| `Text.CompareStringsAntisymmetric` | src/pages/Albums.jsx:49 | Swapping the operands negates the comparison |
| `Text.CompareStringsTransitive` | src/pages/Albums.jsx:49 | "Sorts no later than" is transitive |
| `Text.NatToString` | src/pages/Search.jsx:21 | A non-empty string of decimal digits, without a leading zero unless it is "0" |
| `Text.ParseNatToString` | src/pages/Search.jsx:21 | Reading the decimal rendering back gives the number |
| `Text.PadStart` | src/pages/Search.jsx:21 | `padStart`: the result has the target width (or is the input if longer), ends with the input and is filled before it |
| `PageHelpers.FormatTime` | src/pages/Search.jsx:18-22 | The formatted time has at least four characters and its colon is third from the end, so the seconds are always two characters |
| `PageHelpers.FormatTimeShape` | src/pages/Search.jsx:18-22 | `formatTime(s)` is `m:ss` with m = s div 60, two digits for ss = s mod 60, ss < 60 and 60·m + ss = s; Genres.jsx:8-12 and Albums.jsx:9-13 are identical |
| `PageHelpers.ParseFormatTime` | src/pages/Search.jsx:18-22 | Parsing a formatted time gives back the seconds |
| `PageHelpers.HandlePlayTrack` | src/pages/Search.jsx:24-30 | No-op when the current track has the clicked track's id, else `playTrack`; a track with that id is current afterwards; Genres.jsx:14-19 and Albums.jsx:15-20 are identical |
| `SearchPage.FilteredTracks` | src/pages/Search.jsx:37-44 | Every listed track is a catalogue track matching the query (the empty query included); never longer than the catalogue |
| `SearchPage.FilteredAlbums` | src/pages/Search.jsx:46-51 | Every listed album is one of the albums and its title or artist matches; never longer than the album list |
| `SearchPage.FilteredGenres` | src/pages/Search.jsx:53-57 | Every listed genre is one of the genres and its name matches; never longer than the genre list |
| `SearchPage.EmptyQueryKeepsAll` | src/pages/Search.jsx:37-57 | With the empty query the three lists are the full lists |
| `SearchPage.FilteredTracksCharacterised` | src/pages/Search.jsx:37-44 | Order-preserving subsequence; a track is kept iff title, artist, album or genre contains the query ignoring case, with its multiplicity |
| `SearchPage.FilteredAlbumsCharacterised` | src/pages/Search.jsx:46-51 | Order-preserving subsequence; an album is kept iff its title or artist matches, with its multiplicity in the list |
| `SearchPage.FilteredGenresCharacterised` | src/pages/Search.jsx:53-57 | Order-preserving subsequence; a genre is kept iff its name matches, with its multiplicity in the list |
| `SearchPage.FilteredTracksAgreeWithSearch` | src/pages/Search.jsx:37-44 | For every query, including the empty one, the page's track list equals what the store's search completion would publish |
| `SearchPage.NoResultsIffNothingMatches` | src/pages/Search.jsx:59-190 | "No results" is shown iff no search is pending (the spinner return, lines 59-66), the query is non-empty (line 81) and no track, album or genre matches it (line 187) |
| `GenresPage.WithTracks` | src/pages/Genres.jsx:26-35 | One entry keeps the genre's id, name and colour; every listed track is a catalogue track of exactly that genre; the count is the list's length (at most the catalogue's) and the duration its sum |
| `GenresPage.GenresWithTracks` | src/pages/Genres.jsx:26-36 | One entry per genre, same length and order |
| `GenresPage.GenreEntryCharacterised` | src/pages/Genres.jsx:26-36 | Each entry keeps id, name and colour; its tracks are the order-preserving subsequence whose genre equals the name exactly (case-sensitive), each with its catalogue multiplicity; duration is their sum, count their number |
| `GenresPage.GenreListsDisjoint` | src/pages/Genres.jsx:27 | With distinct genre names no track is in two genres' lists |
| `GenresPage.TrackCountsAddUp` | src/pages/Genres.jsx:27-34 | With distinct names the counts sum to the number of tracks whose genre is a listed name, so at most the catalogue size |
| `GenresPage.FindById` | src/pages/Genres.jsx:39 | `find`: none iff no entry has the id; otherwise the first entry with it |
| `GenresPage.CurrentGenreData` | src/pages/Genres.jsx:38-40 | Nothing without a selection; with one, nothing iff no entry has the selected id, otherwise an entry with that id |
| `GenresPage.SelectedGenreShown` | src/pages/Genres.jsx:38-40 | With distinct genre ids, selecting a genre shows exactly that genre's entry |
| `AlbumsPage.WithTracks` | src/pages/Albums.jsx:23-34 | One entry keeps the album's id, title, artist and year; every listed track is a catalogue track with that album title and artist; the count is the list's length (at most the catalogue's) and the duration its sum |
| `AlbumsPage.AlbumsWithTracks` | src/pages/Albums.jsx:23-35 | One entry per album, same length and order |
| `AlbumsPage.AlbumEntryCharacterised` | src/pages/Albums.jsx:23-35 | Each entry keeps id, title, artist and year; tracks are exactly those whose album equals the title and artist equals the artist, in catalogue order with multiplicity; duration is their sum, count their number |
| `AlbumsPage.FilterAlbums` | src/pages/Albums.jsx:38-43 | Every kept album is one of the albums and passes the year filter; never longer than the input |
| `AlbumsPage.NonYearFilterKeepsAll` | src/pages/Albums.jsx:38-43 | `'all'` and every unknown filter value keep every album, in order |
| `AlbumsPage.RecentAndClassicPartition` | src/pages/Albums.jsx:38-43 | `'recent'` keeps year ≥ 2020, `'classic'` keeps year < 2020; together they form the whole list as a multiset |
| `AlbumsPage.Compare` | src/pages/Albums.jsx:46-58 | `'year'` puts a first iff its year is not smaller; `'tracks'` likewise on track count; unknown keys tie; every album ties with itself |
| `AlbumsPage.CompareTotal` | src/pages/Albums.jsx:47-58 | The comparator is total: if a sorts after b then b sorts before a |
| `AlbumsPage.CompareTransitive` | src/pages/Albums.jsx:47-58 | The comparator's "no later than" is transitive for every key |
| `AlbumsPage.SortAlbums` | src/pages/Albums.jsx:46-59 | The sorted copy has the same length and the same albums with the same multiplicities as the filtered list |
| `AlbumsPage.SortAlbumsCorrect` | src/pages/Albums.jsx:46-59 | The sorted list is a permutation of the filtered list and is ordered by the comparator |
| `AlbumsPage.SortKeys` | src/pages/Albums.jsx:47-55 | `'year'` gives non-increasing year; `'tracks'` gives non-increasing track count; `'title'` and `'artist'` give non-decreasing string order |
| `AlbumsPage.UnknownSortKeepsOrder` | src/pages/Albums.jsx:56-57 | An unknown key ties every pair, and the stable sort returns the filtered order unchanged |
| `AlbumsPage.PlayAlbum` | src/pages/Albums.jsx:120 | Acts only when the album has a track, then applies the same-id guard to its first track |
| `AlbumsPage.PreviewTracks` | src/pages/Albums.jsx:142 | `slice(0, 3)`: a prefix of the album's tracks of length min(3, n) |
| `AlbumsPage.MoreTracksCount` | src/pages/Albums.jsx:163-170 | The "more" note exists iff n > 3, and then shows n - 3 |
| `AlbumsPage.PreviewAccountsForAll` | src/pages/Albums.jsx:142-170 | The preview is a prefix of at most three tracks; "more" appears iff n > 3; preview length plus the "more" count is n |

## Left out

- Rendering: JSX, inline styles, hover handlers, routing and the sidebar. These have no state logic.
- The home and library pages: they only repeat `formatTime` and the play guard. The library's
  create-playlist button reads its input from a browser `prompt`, which is I/O.
- The player bar's seek and volume arithmetic: it is floating-point math on element bounding boxes.
  It holds the only volume clamp in the repository. The store's methods take any value.
- The search box: it calls the search only for a query whose trimmed form is non-empty. The store
  accepts any query, so the model does not require this of callers.
- The audio element's own behaviour: the volume effect (src/context/MusicContext.jsx:302-306), what
  `play()` and `pause()` do to the element, and `play()` promise rejections and their logging. The
  element is only its attached flag plus the command log. The play effect (lines 290-300) is modelled
  only as the call it would make for the current state (`PlayEffect`), not as a command sent after
  each render.
- Real time: the 500 ms delay is not modelled; only the order in which completions are delivered is.
- React mechanics: state batching and stale closures are not modelled. Each handler is one atomic
  update that sees the effects of the previous handler.
- Unused raw setters: the store also exports setters such as `setCurrentTrack`, `setIsPlaying` and
  `setQueue` (lines 311-357). The modelled callers do not use them, so they are not modelled. Called
  directly, they could break the invariant `isPlaying ==> currentTrack.Some?`.
- Playlist ids come from the clock `Date.now()`; the model takes the id as a parameter.
- Display-only fields (`cover` emojis) are left out. The album's own track-id list is kept but
  never read, as on the page.
- The sample catalogue (src/context/MusicContext.jsx:6-127) is constant data; the constructor takes
  the catalogue as parameters instead.
- Unicode lower-casing and locale-aware comparison are replaced by the ASCII and code-point versions
  described above. Times are exact reals, not IEEE doubles.
- PageHelpers.FormatTimeShape: whole, non-negative seconds only. Fractional or negative inputs to
  `formatTime` are not modelled; the modelled pages only format whole track durations.
- AlbumsPage.SortAlbumsCorrect: it does not state that ties under a known key keep their filtered
  order. Stability is proved only for an unknown key (`UnknownSortKeepsOrder`).
