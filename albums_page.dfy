/** The albums page: albums joined with their tracks, a filter by release year, a
    sort by the selected key, the album play button and the three-track preview. */
module AlbumsPage {
  import opened Seqs
  import opened Text
  import opened Catalog
  import opened MusicContext
  import opened PageHelpers

  /** An album as the page shows it. The spread `{...album, tracks: albumTracks}`
      replaces the album's own track-id list by the joined tracks. */
  datatype AlbumView = AlbumView(
    id: int,
    title: string,
    artist: string,
    year: int,
    tracks: seq<Track>,
    totalDuration: nat,
    trackCount: nat)

  /** The catalogue tracks whose album is the album's title and whose artist is the
      album's artist, both compared exactly. */
  predicate OnAlbum(t: Track, a: Album)
  {
    t.album == a.title && t.artist == a.artist
  }

  /** One album's entry: its own fields, the tracks on it, their total length and count. */
  function WithTracks(a: Album, tracks: seq<Track>): (r: AlbumView)
    ensures r.id == a.id && r.title == a.title && r.artist == a.artist && r.year == a.year
    ensures forall k :: 0 <= k < |r.tracks| ==> OnAlbum(r.tracks[k], a) && r.tracks[k] in tracks
    ensures r.trackCount == |r.tracks| <= |tracks|
    ensures r.totalDuration == TotalDuration(r.tracks)
  {
    var at := Filter(tracks, (t: Track) => OnAlbum(t, a));
    AlbumView(a.id, a.title, a.artist, a.year, at, TotalDuration(at), |at|)
  }

  /** `albumsWithTracks`: one entry per album, in album order. */
  function AlbumsWithTracks(albums: seq<Album>, tracks: seq<Track>): (r: seq<AlbumView>)
    ensures |r| == |albums|
    ensures forall i :: 0 <= i < |r| ==> r[i] == WithTracks(albums[i], tracks)
  {
    if albums == [] then []
    else [WithTracks(albums[0], tracks)] + AlbumsWithTracks(albums[1..], tracks)
  }

  /** Each entry keeps its album's id, title, artist and year; its tracks are exactly the
      catalogue tracks on that album by that artist, in catalogue order; the duration and
      count are their sum and number. */
  lemma AlbumEntryCharacterised(albums: seq<Album>, tracks: seq<Track>, i: nat)
    requires i < |albums|
    ensures var v := AlbumsWithTracks(albums, tracks)[i];
      && v.id == albums[i].id && v.title == albums[i].title
      && v.artist == albums[i].artist && v.year == albums[i].year
      && IsSubsequence(v.tracks, tracks)
      && (forall t :: t in v.tracks <==> t in tracks && t.album == albums[i].title && t.artist == albums[i].artist)
      && (forall t :: multiset(v.tracks)[t] == if OnAlbum(t, albums[i]) then multiset(tracks)[t] else 0)
      && v.totalDuration == TotalDuration(v.tracks)
      && v.trackCount == |v.tracks|
  {
    var p := (t: Track) => OnAlbum(t, albums[i]);
    FilterIsSubsequence(tracks, p);
    forall t ensures t in Filter(tracks, p) <==> t in tracks && p(t) {
      FilterMembership(tracks, p, t);
    }
    forall t ensures multiset(Filter(tracks, p))[t] == if p(t) then multiset(tracks)[t] else 0 {
      FilterCount(tracks, p, t);
    }
  }

  /** The year filter: `'recent'` keeps 2020 and later, `'classic'` keeps earlier years,
      `'all'` and any other value keep everything. */
  predicate KeepForFilter(filterBy: string, a: AlbumView)
  {
    if filterBy == "all" then true
    else if filterBy == "recent" then a.year >= 2020
    else if filterBy == "classic" then a.year < 2020
    else true
  }

  /** `filteredAlbums`: the albums the year filter keeps, each one of the given albums. */
  function FilterAlbums(views: seq<AlbumView>, filterBy: string): (r: seq<AlbumView>)
    ensures |r| <= |views|
    ensures forall i :: 0 <= i < |r| ==> KeepForFilter(filterBy, r[i]) && r[i] in views
  {
    Filter(views, (a: AlbumView) => KeepForFilter(filterBy, a))
  }

  /** `'all'` and every unknown filter value return the albums unchanged. */
  lemma NonYearFilterKeepsAll(views: seq<AlbumView>, filterBy: string)
    requires filterBy != "recent" && filterBy != "classic"
    ensures FilterAlbums(views, filterBy) == views
  {
    FilterAll(views, (a: AlbumView) => KeepForFilter(filterBy, a));
  }

  /** `'recent'` and `'classic'` split the albums by year, together losing and
      duplicating nothing. */
  lemma RecentAndClassicPartition(views: seq<AlbumView>)
    ensures forall a :: a in FilterAlbums(views, "recent") <==> a in views && a.year >= 2020
    ensures forall a :: a in FilterAlbums(views, "classic") <==> a in views && a.year < 2020
    ensures multiset(FilterAlbums(views, "recent")) + multiset(FilterAlbums(views, "classic")) == multiset(views)
  {
    var recent := (a: AlbumView) => KeepForFilter("recent", a);
    var classic := (a: AlbumView) => KeepForFilter("classic", a);
    forall a ensures a in Filter(views, recent) <==> a in views && a.year >= 2020 {
      FilterMembership(views, recent, a);
    }
    forall a ensures a in Filter(views, classic) <==> a in views && a.year < 2020 {
      FilterMembership(views, classic, a);
    }
    FilterPartition(views, recent, classic);
  }

  /** The comparator passed to `sort`: negative when `a` goes first. Titles and artists
      by string order, years and track counts descending, anything else ties. */
  function Compare(sortBy: string, a: AlbumView, b: AlbumView): (r: int)
    ensures sortBy == "year" ==> (r <= 0 <==> a.year >= b.year)
    ensures sortBy == "tracks" ==> (r <= 0 <==> a.trackCount >= b.trackCount)
    ensures sortBy !in ["title", "artist", "year", "tracks"] ==> r == 0
    ensures a == b ==> r == 0
  {
    CompareStringsZero(a.title, b.title);
    CompareStringsZero(a.artist, b.artist);
    if sortBy == "title" then CompareStrings(a.title, b.title)
    else if sortBy == "artist" then CompareStrings(a.artist, b.artist)
    else if sortBy == "year" then b.year - a.year
    else if sortBy == "tracks" then b.trackCount - a.trackCount
    else 0
  }

  lemma CompareTotal(sortBy: string, a: AlbumView, b: AlbumView)
    ensures Compare(sortBy, a, b) > 0 ==> Compare(sortBy, b, a) < 0
  {
    CompareStringsAntisymmetric(a.title, b.title);
    CompareStringsAntisymmetric(a.artist, b.artist);
  }

  lemma CompareTransitive(sortBy: string, a: AlbumView, b: AlbumView, c: AlbumView)
    requires Compare(sortBy, a, b) <= 0 && Compare(sortBy, b, c) <= 0
    ensures Compare(sortBy, a, c) <= 0
  {
    if sortBy == "title" {
      CompareStringsTransitive(a.title, b.title, c.title);
    } else if sortBy == "artist" {
      CompareStringsTransitive(a.artist, b.artist, c.artist);
    }
  }

  /** No album is ordered after one that follows it. */
  ghost predicate SortedBy(sortBy: string, s: seq<AlbumView>)
  {
    forall i, j :: 0 <= i < j < |s| ==> Compare(sortBy, s[i], s[j]) <= 0
  }

  /** Inserts `x` before the first element it does not sort after. */
  function Insert(sortBy: string, x: AlbumView, s: seq<AlbumView>): seq<AlbumView>
  {
    if s == [] || Compare(sortBy, x, s[0]) <= 0 then [x] + s
    else [s[0]] + Insert(sortBy, x, s[1..])
  }

  /** `[...filteredAlbums].sort(compare)`: a stable sort of a copy. Insertion from the
      back puts each album before the equal ones after it, so ties keep their order. */
  function SortAlbums(views: seq<AlbumView>, sortBy: string): (r: seq<AlbumView>)
    ensures |r| == |views|
    ensures multiset(r) == multiset(views)
  {
    if views == [] then []
    else
      var rest := SortAlbums(views[1..], sortBy);
      InsertPermutes(sortBy, views[0], rest);
      assert views == [views[0]] + views[1..];
      var r := Insert(sortBy, views[0], rest);
      assert |r| == |multiset(r)|;
      r
  }

  lemma {:induction false} InsertPermutes(sortBy: string, x: AlbumView, s: seq<AlbumView>)
    ensures multiset(Insert(sortBy, x, s)) == multiset([x]) + multiset(s)
  {
    if s != [] && Compare(sortBy, x, s[0]) > 0 {
      InsertPermutes(sortBy, x, s[1..]);
      assert s == [s[0]] + s[1..];
    }
  }

  lemma {:induction false} InsertSorted(sortBy: string, x: AlbumView, s: seq<AlbumView>)
    requires SortedBy(sortBy, s)
    ensures SortedBy(sortBy, Insert(sortBy, x, s))
  {
    var r := Insert(sortBy, x, s);
    if s == [] {
    } else if Compare(sortBy, x, s[0]) <= 0 {
      forall j | 1 <= j < |r| ensures Compare(sortBy, x, r[j]) <= 0 {
        assert r[j] == s[j - 1];
        if j > 1 {
          CompareTransitive(sortBy, x, s[0], s[j - 1]);
        }
      }
    } else {
      assert SortedBy(sortBy, s[1..]);
      InsertSorted(sortBy, x, s[1..]);
      InsertPermutes(sortBy, x, s[1..]);
      CompareTotal(sortBy, x, s[0]);
      forall j | 1 <= j < |r| ensures Compare(sortBy, s[0], r[j]) <= 0 {
        var rest := Insert(sortBy, x, s[1..]);
        assert r[j] == rest[j - 1];
        assert rest[j - 1] in multiset(rest);
        assert rest[j - 1] == x || rest[j - 1] in s[1..];
      }
    }
  }

  /** The sorted albums are a rearrangement of the filtered ones, in comparator order. */
  lemma {:induction false} SortAlbumsCorrect(views: seq<AlbumView>, sortBy: string)
    ensures multiset(SortAlbums(views, sortBy)) == multiset(views)
    ensures |SortAlbums(views, sortBy)| == |views|
    ensures SortedBy(sortBy, SortAlbums(views, sortBy))
  {
    if views != [] {
      SortAlbumsCorrect(views[1..], sortBy);
      InsertPermutes(sortBy, views[0], SortAlbums(views[1..], sortBy));
      InsertSorted(sortBy, views[0], SortAlbums(views[1..], sortBy));
      assert views == [views[0]] + views[1..];
    }
    assert |SortAlbums(views, sortBy)| == |multiset(SortAlbums(views, sortBy))|;
  }

  /** What each sort key means for neighbours in the result. */
  lemma SortKeys(views: seq<AlbumView>, sortBy: string, i: nat, j: nat)
    requires i < j < |views|
    ensures var r := SortAlbums(views, sortBy);
      && |r| == |views|
      && (sortBy == "year" ==> r[i].year >= r[j].year)
      && (sortBy == "tracks" ==> r[i].trackCount >= r[j].trackCount)
      && (sortBy == "title" ==> CompareStrings(r[i].title, r[j].title) <= 0)
      && (sortBy == "artist" ==> CompareStrings(r[i].artist, r[j].artist) <= 0)
  {
    SortAlbumsCorrect(views, sortBy);
  }

  /** An unknown sort key ties every pair, so the stable sort keeps the filtered order. */
  lemma {:induction false} UnknownSortKeepsOrder(views: seq<AlbumView>, sortBy: string)
    requires sortBy !in ["title", "artist", "year", "tracks"]
    ensures SortAlbums(views, sortBy) == views
  {
    if views != [] {
      UnknownSortKeepsOrder(views[1..], sortBy);
    }
  }

  /** The album's play button: with at least one track, the same-id guard applied to
      the first track; with none, nothing happens. */
  method PlayAlbum(store: MusicStore, album: AlbumView)
    requires store.Valid()
    modifies store`currentTrack, store`isPlaying
    ensures store.Valid()
    ensures album.tracks == [] ==>
      store.currentTrack == old(store.currentTrack) && store.isPlaying == old(store.isPlaying)
    ensures album.tracks != [] && ClickPlays(old(store.currentTrack), album.tracks[0]) ==>
      store.currentTrack == Some(album.tracks[0]) && store.isPlaying
    ensures album.tracks != [] && !ClickPlays(old(store.currentTrack), album.tracks[0]) ==>
      store.currentTrack == old(store.currentTrack) && store.isPlaying == old(store.isPlaying)
  {
    if |album.tracks| > 0 {
      HandlePlayTrack(store, album.tracks[0]);
    }
  }

  /** The tracks listed under an album card: its first three at most. */
  function PreviewTracks(album: AlbumView): (r: seq<Track>)
    ensures r <= album.tracks
    ensures |r| == if |album.tracks| < 3 then |album.tracks| else 3
  {
    album.tracks[..if |album.tracks| < 3 then |album.tracks| else 3]
  }

  /** The "more tracks" note: shown with `n - 3` only when there are more than three. */
  function MoreTracksCount(album: AlbumView): (r: Option<nat>)
    ensures r.Some? <==> |album.tracks| > 3
    ensures r.Some? ==> r.value + 3 == |album.tracks|
  {
    if |album.tracks| > 3 then Some(|album.tracks| - 3) else None
  }

  /** The preview is a prefix of at most three tracks, and the preview plus the "more"
      count account for every track of the album. */
  lemma PreviewAccountsForAll(album: AlbumView)
    ensures var n, pv := |album.tracks|, PreviewTracks(album);
      && |pv| <= 3 && pv <= album.tracks
      && (MoreTracksCount(album).Some? <==> n > 3)
      && |pv| + (if MoreTracksCount(album).Some? then MoreTracksCount(album).value else 0) == n
  {
  }
}
