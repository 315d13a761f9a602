/** The search page's derived lists: the catalogue filtered by the store's current
    `searchQuery`, and when it shows "No results found". */
module SearchPage {
  import opened Seqs
  import opened Catalog
  import opened MusicContext

  /** An album matches on its title or its artist only. */
  predicate AlbumMatches(a: Album, query: string)
  {
    FieldMatches(a.title, query) || FieldMatches(a.artist, query)
  }

  /** A genre matches on its name only. */
  predicate GenreMatches(g: Genre, query: string)
  {
    FieldMatches(g.name, query)
  }

  /** `filteredTracks`: the whole catalogue for the empty query, otherwise the matching
      tracks. Either way every listed track is a matching catalogue track. */
  function FilteredTracks(tracks: seq<Track>, query: string): (r: seq<Track>)
    ensures |r| <= |tracks|
    ensures forall i :: 0 <= i < |r| ==> TrackMatches(r[i], query) && r[i] in tracks
  {
    if query == "" then tracks else Filter(tracks, t => TrackMatches(t, query))
  }

  /** `filteredAlbums`: every listed album is one of the albums and matches the query. */
  function FilteredAlbums(albums: seq<Album>, query: string): (r: seq<Album>)
    ensures |r| <= |albums|
    ensures forall i :: 0 <= i < |r| ==> AlbumMatches(r[i], query) && r[i] in albums
  {
    if query == "" then albums else Filter(albums, a => AlbumMatches(a, query))
  }

  /** `filteredGenres`: every listed genre is one of the genres and matches the query. */
  function FilteredGenres(genres: seq<Genre>, query: string): (r: seq<Genre>)
    ensures |r| <= |genres|
    ensures forall i :: 0 <= i < |r| ==> GenreMatches(r[i], query) && r[i] in genres
  {
    if query == "" then genres else Filter(genres, g => GenreMatches(g, query))
  }

  /** The empty query leaves all three lists whole. */
  lemma EmptyQueryKeepsAll(tracks: seq<Track>, albums: seq<Album>, genres: seq<Genre>)
    ensures FilteredTracks(tracks, "") == tracks
    ensures FilteredAlbums(albums, "") == albums
    ensures FilteredGenres(genres, "") == genres
  {
  }

  /** A track is listed exactly when it is in the catalogue and matches; the list keeps
      catalogue order and multiplicities. */
  lemma FilteredTracksCharacterised(tracks: seq<Track>, query: string)
    ensures IsSubsequence(FilteredTracks(tracks, query), tracks)
    ensures forall t :: t in FilteredTracks(tracks, query) <==> t in tracks && TrackMatches(t, query)
    ensures forall t :: multiset(FilteredTracks(tracks, query))[t]
                        == if TrackMatches(t, query) then multiset(tracks)[t] else 0
  {
    FilteredTracksAgreeWithSearch(tracks, query);
    SearchResultsCharacterised(tracks, query);
  }

  /** An album is listed exactly when it is in the list and its title or artist matches,
      in list order and with its multiplicity in the list. */
  lemma FilteredAlbumsCharacterised(albums: seq<Album>, query: string)
    ensures IsSubsequence(FilteredAlbums(albums, query), albums)
    ensures forall a :: a in FilteredAlbums(albums, query) <==> a in albums && AlbumMatches(a, query)
    ensures forall a :: multiset(FilteredAlbums(albums, query))[a]
                        == if AlbumMatches(a, query) then multiset(albums)[a] else 0
  {
    var p := a => AlbumMatches(a, query);
    if query == "" {
      SubsequenceOfItself(albums);
    } else {
      FilterIsSubsequence(albums, p);
      forall a ensures a in Filter(albums, p) <==> a in albums && AlbumMatches(a, query) {
        FilterMembership(albums, p, a);
      }
      forall a ensures multiset(Filter(albums, p))[a] == if p(a) then multiset(albums)[a] else 0 {
        FilterCount(albums, p, a);
      }
    }
  }

  /** A genre is listed exactly when it is in the list and its name matches, in list
      order and with its multiplicity in the list. */
  lemma FilteredGenresCharacterised(genres: seq<Genre>, query: string)
    ensures IsSubsequence(FilteredGenres(genres, query), genres)
    ensures forall g :: g in FilteredGenres(genres, query) <==> g in genres && GenreMatches(g, query)
    ensures forall g :: multiset(FilteredGenres(genres, query))[g]
                        == if GenreMatches(g, query) then multiset(genres)[g] else 0
  {
    var p := g => GenreMatches(g, query);
    if query == "" {
      SubsequenceOfItself(genres);
    } else {
      FilterIsSubsequence(genres, p);
      forall g ensures g in Filter(genres, p) <==> g in genres && GenreMatches(g, query) {
        FilterMembership(genres, p, g);
      }
      forall g ensures multiset(Filter(genres, p))[g] == if p(g) then multiset(genres)[g] else 0 {
        FilterCount(genres, p, g);
      }
    }
  }

  /** The page's track list and the store's search completion agree for every query,
      the empty one included: the page's empty-query shortcut changes nothing. */
  lemma FilteredTracksAgreeWithSearch(tracks: seq<Track>, query: string)
    ensures FilteredTracks(tracks, query) == SearchResultsFor(tracks, query)
  {
    if query == "" {
      EmptySearchReturnsCatalogue(tracks);
    }
  }

  /** "No results found" is shown inside the results view when all three filtered lists
      are empty. The results view needs a non-empty query, and while a search is pending
      the page shows only the spinner instead. */
  predicate ShowsNoResults(tracks: seq<Track>, albums: seq<Album>, genres: seq<Genre>,
                           query: string, isSearching: bool)
  {
    !isSearching && query != "" && |FilteredTracks(tracks, query)| == 0
    && |FilteredAlbums(albums, query)| == 0 && |FilteredGenres(genres, query)| == 0
  }

  /** "No results" appears exactly when no search is pending, the query is non-empty and
      nothing in any of the three lists matches it. */
  lemma NoResultsIffNothingMatches(tracks: seq<Track>, albums: seq<Album>, genres: seq<Genre>,
                                   query: string, isSearching: bool)
    ensures ShowsNoResults(tracks, albums, genres, query, isSearching) <==>
      && !isSearching
      && query != ""
      && (forall t :: t in tracks ==> !TrackMatches(t, query))
      && (forall a :: a in albums ==> !AlbumMatches(a, query))
      && (forall g :: g in genres ==> !GenreMatches(g, query))
  {
    if query != "" {
      FilteredTracksCharacterised(tracks, query);
      FilteredAlbumsCharacterised(albums, query);
      FilteredGenresCharacterised(genres, query);
      var ft, fa, fg := FilteredTracks(tracks, query), FilteredAlbums(albums, query), FilteredGenres(genres, query);
      assert |ft| == 0 <==> forall t :: t in tracks ==> !TrackMatches(t, query) by {
        if |ft| > 0 { assert ft[0] in ft; }
      }
      assert |fa| == 0 <==> forall a :: a in albums ==> !AlbumMatches(a, query) by {
        if |fa| > 0 { assert fa[0] in fa; }
      }
      assert |fg| == 0 <==> forall g :: g in genres ==> !GenreMatches(g, query) by {
        if |fg| > 0 { assert fg[0] in fg; }
      }
    }
  }
}
