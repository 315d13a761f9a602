/** The application's single state store (`MusicProvider`): playback, the play queue,
    the catalogue, playlists and the deferred track search. Every handler is one
    atomic update of the store's fields. */
module MusicContext {
  import opened Seqs
  import opened Catalog

  /** A command the store sends to the rendered audio element. */
  datatype AudioCommand = SetPosition(seconds: real) | Play | SetVolume(level: real)

  /** The element method the play effect calls. */
  datatype ElementCall = CallPlay | CallPause

  /** The deferred completion scheduled by a search: the query and the catalogue its
      closure captured. Nothing ties it to the store's later `searchQuery`. */
  datatype PendingSearch = PendingSearch(query: string, catalogue: seq<Track>)

  /** What a search completion publishes: the catalogue tracks matching `query`, in
      catalogue order. Every result is a matching catalogue track, and there are no more
      results than tracks. */
  function SearchResultsFor(catalogue: seq<Track>, query: string): (r: seq<Track>)
    ensures |r| <= |catalogue|
    ensures forall i :: 0 <= i < |r| ==> TrackMatches(r[i], query) && r[i] in catalogue
  {
    Filter(catalogue, t => TrackMatches(t, query))
  }

  /** The published results are the order-preserving subsequence of the catalogue made
      of exactly the matching tracks, each with its catalogue multiplicity. */
  lemma SearchResultsCharacterised(catalogue: seq<Track>, query: string)
    ensures IsSubsequence(SearchResultsFor(catalogue, query), catalogue)
    ensures forall t :: t in SearchResultsFor(catalogue, query) <==> t in catalogue && TrackMatches(t, query)
    ensures forall t :: multiset(SearchResultsFor(catalogue, query))[t]
                        == if TrackMatches(t, query) then multiset(catalogue)[t] else 0
  {
    var p := t => TrackMatches(t, query);
    FilterIsSubsequence(catalogue, p);
    forall t ensures t in Filter(catalogue, p) <==> t in catalogue && TrackMatches(t, query) {
      FilterMembership(catalogue, p, t);
    }
    forall t ensures multiset(Filter(catalogue, p))[t] == if TrackMatches(t, query) then multiset(catalogue)[t] else 0 {
      FilterCount(catalogue, p, t);
    }
  }

  /** The empty query publishes the whole catalogue. */
  lemma EmptySearchReturnsCatalogue(catalogue: seq<Track>)
    ensures SearchResultsFor(catalogue, "") == catalogue
  {
    var p := t => TrackMatches(t, "");
    assert forall i :: 0 <= i < |catalogue| ==> p(catalogue[i]);
    FilterAll(catalogue, p);
  }

  /** `playlists.map(...)` with the track id appended to every playlist whose id is `playlistId`. */
  function WithTrackAdded(playlists: seq<Playlist>, playlistId: int, trackId: int): (r: seq<Playlist>)
    ensures |r| == |playlists|
    ensures forall i :: 0 <= i < |r| ==>
      r[i] == if playlists[i].id == playlistId
              then playlists[i].(tracks := playlists[i].tracks + [trackId])
              else playlists[i]
  {
    if playlists == [] then []
    else
      var p := playlists[0];
      [if p.id == playlistId then p.(tracks := p.tracks + [trackId]) else p]
        + WithTrackAdded(playlists[1..], playlistId, trackId)
  }

  /** The ids of `ids` other than `trackId`, in order (`ids.filter(id => id !== trackId)`). */
  function WithoutId(ids: seq<int>, trackId: int): seq<int>
  {
    Filter(ids, id => id != trackId)
  }

  /** Every occurrence of `trackId` goes; every other id keeps its order and multiplicity. */
  lemma WithoutIdRemovesAll(ids: seq<int>, trackId: int)
    ensures trackId !in WithoutId(ids, trackId)
    ensures forall x :: x != trackId ==> multiset(WithoutId(ids, trackId))[x] == multiset(ids)[x]
    ensures IsSubsequence(WithoutId(ids, trackId), ids)
  {
    var p := id => id != trackId;
    FilterMembership(ids, p, trackId);
    forall x | x != trackId ensures multiset(Filter(ids, p))[x] == multiset(ids)[x] {
      FilterCount(ids, p, x);
    }
    FilterIsSubsequence(ids, p);
  }

  /** `playlists.map(...)` with every occurrence of the track id removed from every
      playlist whose id is `playlistId`. */
  function WithTrackRemoved(playlists: seq<Playlist>, playlistId: int, trackId: int): (r: seq<Playlist>)
    ensures |r| == |playlists|
    ensures forall i :: 0 <= i < |r| ==>
      r[i] == if playlists[i].id == playlistId
              then playlists[i].(tracks := WithoutId(playlists[i].tracks, trackId))
              else playlists[i]
  {
    if playlists == [] then []
    else
      var p := playlists[0];
      [if p.id == playlistId then p.(tracks := WithoutId(p.tracks, trackId)) else p]
        + WithTrackRemoved(playlists[1..], playlistId, trackId)
  }

  /** Removing a track id just after adding it leaves the same playlists as removing it
      without the addition. */
  lemma RemoveUndoesAdd(playlists: seq<Playlist>, playlistId: int, trackId: int)
    ensures WithTrackRemoved(WithTrackAdded(playlists, playlistId, trackId), playlistId, trackId)
         == WithTrackRemoved(playlists, playlistId, trackId)
  {
    var added := WithTrackAdded(playlists, playlistId, trackId);
    var p := id => id != trackId;
    forall i | 0 <= i < |playlists| && playlists[i].id == playlistId
      ensures WithoutId(added[i].tracks, trackId) == WithoutId(playlists[i].tracks, trackId)
    {
      FilterConcat(playlists[i].tracks, [trackId], p);
      assert Filter([trackId], p) == [];
    }
  }

  class MusicStore {
    var currentTrack: Option<Track>
    var isPlaying: bool
    var currentTime: real
    var duration: real
    var volume: real
    var isShuffled: bool
    var isRepeated: bool
    var queue: seq<Track>
    var playlists: seq<Playlist>
    var albums: seq<Album>
    var genres: seq<Genre>
    var tracks: seq<Track>
    var searchQuery: string
    var searchResults: seq<Track>
    var isSearching: bool
    /** The commands sent to the audio element so far, oldest first. */
    var audioCommands: seq<AudioCommand>

    /** The store only plays when there is a track to play: nothing ever clears
        `currentTrack`, and every handler that sets `isPlaying` sets a track too. */
    ghost predicate Valid()
      reads this
    {
      isPlaying ==> currentTrack.Some?
    }

    /** The audio element is rendered, and so reachable through its ref, exactly while
        there is a current track. */
    predicate AudioAttached()
      reads this
    {
      currentTrack.Some?
    }

    /** What the play effect does to the element after a render that changed the
        play state or the track: nothing while no element is attached, otherwise
        `play()` while playing and `pause()` while paused. */
    function PlayEffect(): (r: Option<ElementCall>)
      reads this
      ensures r.Some? <==> AudioAttached()
      ensures r.Some? ==> (r.value == CallPlay <==> isPlaying)
    {
      if AudioAttached() then Some(if isPlaying then CallPlay else CallPause) else None
    }

    /** While the store says it is playing, the play effect always reaches an element
        and starts it; while paused it never starts one. */
    lemma PlayingReachesElement()
      requires Valid()
      ensures isPlaying ==> PlayEffect() == Some(CallPlay)
      ensures !isPlaying ==> PlayEffect() != Some(CallPlay)
    {
    }

    /** The store as first rendered: nothing playing, volume 0.7, an empty queue and
        search, and the given catalogue and playlists. */
    constructor (catalogue: seq<Track>, initialPlaylists: seq<Playlist>,
                 initialAlbums: seq<Album>, initialGenres: seq<Genre>)
      ensures Valid()
      ensures currentTrack == None && !isPlaying && currentTime == 0.0 && duration == 0.0
      ensures volume == 0.7 && !isShuffled && !isRepeated && queue == []
      ensures playlists == initialPlaylists && albums == initialAlbums && genres == initialGenres
      ensures tracks == catalogue && searchQuery == "" && searchResults == [] && !isSearching
      ensures audioCommands == []
    {
      currentTrack, isPlaying, currentTime, duration, volume := None, false, 0.0, 0.0, 0.7;
      isShuffled, isRepeated, queue := false, false, [];
      playlists, albums, genres, tracks := initialPlaylists, initialAlbums, initialGenres, catalogue;
      searchQuery, searchResults, isSearching := "", [], false;
      audioCommands := [];
    }

    /** The element reports its playback position; it is copied only while attached. */
    method HandleTimeUpdate(reported: real)
      requires Valid()
      modifies this`currentTime
      ensures Valid()
      ensures currentTime == if AudioAttached() then reported else old(currentTime)
    {
      if AudioAttached() {
        currentTime := reported;
      }
    }

    /** The element reports the media's length; it is copied only while attached. */
    method HandleLoadedMetadata(reported: real)
      requires Valid()
      modifies this`duration
      ensures Valid()
      ensures duration == if AudioAttached() then reported else old(duration)
    {
      if AudioAttached() {
        duration := reported;
      }
    }

    /** End of track: repeat wins over the queue, the queue wins over stopping. */
    method HandleEnded()
      requires Valid()
      modifies this`queue, this`currentTrack, this`isPlaying, this`currentTime, this`audioCommands
      ensures Valid()
      ensures old(isRepeated) ==>
        && queue == old(queue) && currentTrack == old(currentTrack) && isPlaying == old(isPlaying)
        && currentTime == old(currentTime)
        && audioCommands == old(audioCommands) + (if old(AudioAttached()) then [SetPosition(0.0), Play] else [])
      ensures !old(isRepeated) && old(queue) != [] ==>
        && currentTrack == Some(old(queue)[0]) && queue == old(queue)[1..] && isPlaying
        && currentTime == old(currentTime) && audioCommands == old(audioCommands)
      ensures !old(isRepeated) && old(queue) == [] ==>
        && !isPlaying && currentTime == 0.0 && currentTrack == old(currentTrack)
        && queue == old(queue) && audioCommands == old(audioCommands)
    {
      if isRepeated {
        if AudioAttached() {
          audioCommands := audioCommands + [SetPosition(0.0), Play];
        }
      } else if |queue| > 0 {
        var next := queue[0];
        queue := queue[1..];
        currentTrack := Some(next);
        isPlaying := true;
      } else {
        isPlaying := false;
        currentTime := 0.0;
      }
    }

    /** Makes `track` current and playing, even when it already is. */
    method PlayTrack(track: Track)
      requires Valid()
      modifies this`currentTrack, this`isPlaying
      ensures Valid()
      ensures currentTrack == Some(track) && isPlaying
    {
      currentTrack := Some(track);
      isPlaying := true;
    }

    method PauseTrack()
      requires Valid()
      modifies this`isPlaying
      ensures Valid()
      ensures !isPlaying
    {
      isPlaying := false;
    }

    /** Flips play/pause, but only when there is a current track. */
    method TogglePlayPause()
      requires Valid()
      modifies this`isPlaying
      ensures Valid()
      ensures isPlaying == if currentTrack.Some? then !old(isPlaying) else old(isPlaying)
    {
      if currentTrack.Some? {
        isPlaying := !isPlaying;
      }
    }

    /** Dequeues the head of the queue and plays it; with an empty queue, nothing changes. */
    method SkipToNext()
      requires Valid()
      modifies this`queue, this`currentTrack, this`isPlaying
      ensures Valid()
      ensures old(queue) != [] ==>
        currentTrack == Some(old(queue)[0]) && queue == old(queue)[1..] && isPlaying
      ensures old(queue) == [] ==>
        queue == old(queue) && currentTrack == old(currentTrack) && isPlaying == old(isPlaying)
    {
      if |queue| > 0 {
        var next := queue[0];
        queue := queue[1..];
        currentTrack := Some(next);
        isPlaying := true;
      }
    }

    /** More than three seconds in: restart the current track. Otherwise nothing happens,
        since no play history is kept. */
    method SkipToPrevious()
      requires Valid()
      modifies this`currentTime, this`audioCommands
      ensures Valid()
      ensures old(currentTime) > 3.0 ==>
        currentTime == 0.0
        && audioCommands == old(audioCommands) + (if AudioAttached() then [SetPosition(0.0)] else [])
      ensures old(currentTime) <= 3.0 ==>
        currentTime == old(currentTime) && audioCommands == old(audioCommands)
    {
      if currentTime > 3.0 {
        currentTime := 0.0;
        if AudioAttached() {
          audioCommands := audioCommands + [SetPosition(0.0)];
        }
      }
    }

    /** Moves the element to `time`, unclamped, and records it; does nothing while no
        element is attached. */
    method SeekTo(time: real)
      requires Valid()
      modifies this`currentTime, this`audioCommands
      ensures Valid()
      ensures AudioAttached() ==>
        currentTime == time && audioCommands == old(audioCommands) + [SetPosition(time)]
      ensures !AudioAttached() ==>
        currentTime == old(currentTime) && audioCommands == old(audioCommands)
    {
      if AudioAttached() {
        audioCommands := audioCommands + [SetPosition(time)];
        currentTime := time;
      }
    }

    /** Stores exactly `level`, unclamped, and forwards it to an attached element. */
    method SetVolumeLevel(level: real)
      requires Valid()
      modifies this`volume, this`audioCommands
      ensures Valid()
      ensures volume == level
      ensures audioCommands == old(audioCommands) + (if AudioAttached() then [SetVolume(level)] else [])
    {
      volume := level;
      if AudioAttached() {
        audioCommands := audioCommands + [SetVolume(level)];
      }
    }

    /** The shuffle flag is stored and displayed; no handler reads it. */
    method SetIsShuffled(flag: bool)
      requires Valid()
      modifies this`isShuffled
      ensures Valid()
      ensures isShuffled == flag
    {
      isShuffled := flag;
    }

    method SetIsRepeated(flag: bool)
      requires Valid()
      modifies this`isRepeated
      ensures Valid()
      ensures isRepeated == flag
    {
      isRepeated := flag;
    }

    /** The raw query setter the search box calls on every keystroke. */
    method SetSearchQuery(query: string)
      requires Valid()
      modifies this`searchQuery
      ensures Valid()
      ensures searchQuery == query
    {
      searchQuery := query;
    }

    /** First phase of a search: record the query, mark searching, and schedule the
        completion, returned here as a value for the event loop to deliver later. */
    method SearchTracks(query: string) returns (pending: PendingSearch)
      requires Valid()
      modifies this`isSearching, this`searchQuery
      ensures Valid()
      ensures isSearching && searchQuery == query
      ensures pending == PendingSearch(query, tracks)
    {
      isSearching := true;
      searchQuery := query;
      pending := PendingSearch(query, tracks);
    }

    /** Second phase: publish the results for the captured query, whatever the current
        `searchQuery` is, and clear the searching flag. */
    method CompleteSearch(pending: PendingSearch)
      requires Valid()
      modifies this`searchResults, this`isSearching
      ensures Valid()
      ensures searchResults == SearchResultsFor(pending.catalogue, pending.query)
      ensures !isSearching
    {
      searchResults := SearchResultsFor(pending.catalogue, pending.query);
      isSearching := false;
    }

    /** Appends a new, empty playlist; its id is supplied by the caller (the source uses
        the clock). Returns the new playlist. */
    method CreatePlaylist(id: int, name: string, description: string) returns (created: Playlist)
      requires Valid()
      modifies this`playlists
      ensures Valid()
      ensures created == Playlist(id, name, description, [])
      ensures playlists == old(playlists) + [created]
    {
      created := Playlist(id, name, description, []);
      playlists := playlists + [created];
    }

    method AddTrackToPlaylist(playlistId: int, trackId: int)
      requires Valid()
      modifies this`playlists
      ensures Valid()
      ensures playlists == WithTrackAdded(old(playlists), playlistId, trackId)
    {
      playlists := WithTrackAdded(playlists, playlistId, trackId);
    }

    method RemoveTrackFromPlaylist(playlistId: int, trackId: int)
      requires Valid()
      modifies this`playlists
      ensures Valid()
      ensures playlists == WithTrackRemoved(old(playlists), playlistId, trackId)
    {
      playlists := WithTrackRemoved(playlists, playlistId, trackId);
    }

    /** Appends at the tail; the same track may be queued many times. */
    method AddToQueue(track: Track)
      requires Valid()
      modifies this`queue
      ensures Valid()
      ensures queue == old(queue) + [track]
    {
      queue := queue + [track];
    }

    method ClearQueue()
      requires Valid()
      modifies this`queue
      ensures Valid()
      ensures queue == []
    {
      queue := [];
    }
  }

  /** The queue is first in, first out: enqueue A and B on an empty queue, and the next
      two skips play A then B; a third skip changes nothing. */
  method QueueIsFifo(store: MusicStore, a: Track, b: Track)
    returns (firstPlayed: Option<Track>, secondPlayed: Option<Track>, thirdPlayed: Option<Track>)
    requires store.Valid() && store.queue == []
    modifies store
    ensures store.Valid()
    ensures firstPlayed == Some(a) && secondPlayed == Some(b) && thirdPlayed == Some(b)
    ensures store.queue == [] && store.isPlaying
  {
    store.AddToQueue(a);
    store.AddToQueue(b);
    store.SkipToNext();
    firstPlayed := store.currentTrack;
    store.SkipToNext();
    secondPlayed := store.currentTrack;
    store.SkipToNext();
    thirdPlayed := store.currentTrack;
  }

  /** Toggling twice restores the play state, with or without a current track. */
  method ToggleTwiceRestores(store: MusicStore)
    requires store.Valid()
    modifies store
    ensures store.Valid()
    ensures store.isPlaying == old(store.isPlaying) && store.currentTrack == old(store.currentTrack)
    ensures store.queue == old(store.queue) && store.currentTime == old(store.currentTime)
    ensures store.volume == old(store.volume)
  {
    store.TogglePlayPause();
    store.TogglePlayPause();
  }

  /** Searches are not guarded against stale completions: after searching `first` then
      `second`, the first completion to arrive publishes `first`'s results and clears
      the searching flag while the recorded query is already `second`, and the second
      search is still pending. */
  method StaleSearchIsPublished(store: MusicStore, first: string, second: string)
    returns (stillPending: PendingSearch)
    requires store.Valid()
    modifies store
    ensures store.Valid()
    ensures store.searchQuery == second && !store.isSearching
    ensures store.searchResults == SearchResultsFor(old(store.tracks), first)
    ensures stillPending == PendingSearch(second, old(store.tracks))
  {
    var p1 := store.SearchTracks(first);
    stillPending := store.SearchTracks(second);
    store.CompleteSearch(p1);
  }

  /** Nothing keeps the current track out of the queue: it can be queued while it plays. */
  method CurrentTrackMayBeQueued(store: MusicStore, t: Track)
    requires store.Valid()
    modifies store
    ensures store.Valid()
    ensures store.currentTrack == Some(t) && store.queue == old(store.queue) + [t]
  {
    store.PlayTrack(t);
    store.AddToQueue(t);
  }
}
