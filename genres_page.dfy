/** The genres page: every genre joined with its tracks and their total length, and
    the entry for the genre the user selected. */
module GenresPage {
  import opened Seqs
  import opened Catalog

  /** A genre as the page shows it: the genre's own fields plus its tracks. */
  datatype GenreView = GenreView(
    id: int,
    name: string,
    color: string,
    tracks: seq<Track>,
    totalDuration: nat,
    trackCount: nat)

  /** The catalogue tracks whose genre is exactly `name` (case-sensitive `===`). */
  function GenreTracks(tracks: seq<Track>, name: string): seq<Track>
  {
    Filter(tracks, (t: Track) => t.genre == name)
  }

  /** One genre's entry: its own fields, its tracks, their total length and count. */
  function WithTracks(g: Genre, tracks: seq<Track>): (r: GenreView)
    ensures r.id == g.id && r.name == g.name && r.color == g.color
    ensures forall k :: 0 <= k < |r.tracks| ==> r.tracks[k].genre == g.name && r.tracks[k] in tracks
    ensures r.trackCount == |r.tracks| <= |tracks|
    ensures r.totalDuration == TotalDuration(r.tracks)
  {
    var gt := GenreTracks(tracks, g.name);
    GenreView(g.id, g.name, g.color, gt, TotalDuration(gt), |gt|)
  }

  /** `genresWithTracks`: one entry per genre, in genre order. */
  function GenresWithTracks(genres: seq<Genre>, tracks: seq<Track>): (r: seq<GenreView>)
    ensures |r| == |genres|
    ensures forall i :: 0 <= i < |r| ==> r[i] == WithTracks(genres[i], tracks)
  {
    if genres == [] then []
    else [WithTracks(genres[0], tracks)] + GenresWithTracks(genres[1..], tracks)
  }

  /** Each entry keeps its genre's id, name and colour; its tracks are the
      order-preserving subsequence of the catalogue whose genre equals the name exactly;
      `totalDuration` sums their durations and `trackCount` counts them. */
  lemma GenreEntryCharacterised(genres: seq<Genre>, tracks: seq<Track>, i: nat)
    requires i < |genres|
    ensures var v := GenresWithTracks(genres, tracks)[i];
      && v.id == genres[i].id && v.name == genres[i].name && v.color == genres[i].color
      && IsSubsequence(v.tracks, tracks)
      && (forall t :: t in v.tracks <==> t in tracks && t.genre == genres[i].name)
      && (forall t :: multiset(v.tracks)[t] == if t.genre == genres[i].name then multiset(tracks)[t] else 0)
      && v.totalDuration == TotalDuration(v.tracks)
      && v.trackCount == |v.tracks|
  {
    var p := (t: Track) => t.genre == genres[i].name;
    FilterIsSubsequence(tracks, p);
    forall t ensures t in Filter(tracks, p) <==> t in tracks && p(t) {
      FilterMembership(tracks, p, t);
    }
    forall t ensures multiset(Filter(tracks, p))[t] == if p(t) then multiset(tracks)[t] else 0 {
      FilterCount(tracks, p, t);
    }
  }

  ghost predicate DistinctNames(genres: seq<Genre>)
  {
    forall i, j :: 0 <= i < j < |genres| ==> genres[i].name != genres[j].name
  }

  /** With distinct genre names no track is listed under two genres. */
  lemma GenreListsDisjoint(genres: seq<Genre>, tracks: seq<Track>, i: nat, j: nat, t: Track)
    requires DistinctNames(genres)
    requires i < j < |genres|
    ensures var views := GenresWithTracks(genres, tracks);
      !(t in views[i].tracks && t in views[j].tracks)
  {
    GenreEntryCharacterised(genres, tracks, i);
    GenreEntryCharacterised(genres, tracks, j);
  }

  /** Some genre in `genres` is called `name`. */
  predicate HasGenreNamed(genres: seq<Genre>, name: string)
  {
    genres != [] && (genres[0].name == name || HasGenreNamed(genres[1..], name))
  }

  lemma {:induction false} HasGenreNamedAt(genres: seq<Genre>, name: string)
    ensures HasGenreNamed(genres, name) <==> exists k :: 0 <= k < |genres| && genres[k].name == name
  {
    if genres != [] {
      HasGenreNamedAt(genres[1..], name);
      assert forall k :: 1 <= k < |genres| ==> genres[k] == genres[1..][k - 1];
      if HasGenreNamed(genres[1..], name) {
        var k :| 0 <= k < |genres[1..]| && genres[1..][k].name == name;
        assert genres[k + 1].name == name;
      }
    }
  }

  function SumTrackCounts(views: seq<GenreView>): nat
  {
    if views == [] then 0 else views[0].trackCount + SumTrackCounts(views[1..])
  }

  /** With distinct genre names the per-genre counts add up to the number of catalogue
      tracks whose genre is one of the listed names, hence to at most the catalogue size. */
  lemma {:induction false} TrackCountsAddUp(genres: seq<Genre>, tracks: seq<Track>)
    requires DistinctNames(genres)
    ensures SumTrackCounts(GenresWithTracks(genres, tracks))
         == |Filter(tracks, (t: Track) => HasGenreNamed(genres, t.genre))|
    ensures SumTrackCounts(GenresWithTracks(genres, tracks)) <= |tracks|
  {
    var either := (t: Track) => HasGenreNamed(genres, t.genre);
    if genres == [] {
      FilterNone(tracks, either);
    } else {
      var rest := genres[1..];
      assert DistinctNames(rest) by {
        forall i, j | 0 <= i < j < |rest| ensures rest[i].name != rest[j].name {
          assert rest[i] == genres[i + 1] && rest[j] == genres[j + 1];
        }
      }
      TrackCountsAddUp(rest, tracks);
      var p := (t: Track) => t.genre == genres[0].name;
      var q := (t: Track) => HasGenreNamed(rest, t.genre);
      HasGenreNamedAt(rest, genres[0].name);
      assert !HasGenreNamed(rest, genres[0].name) by {
        forall k | 0 <= k < |rest| ensures rest[k].name != genres[0].name {
          assert rest[k] == genres[k + 1];
        }
      }
      assert GenresWithTracks(genres, tracks)[1..] == GenresWithTracks(rest, tracks);
      FilterDisjointLength(tracks, p, q, either);
    }
  }

  /** `genresWithTracks.find(g => g.id === id)`: the first entry with that id. */
  function FindById(views: seq<GenreView>, id: int): (r: Option<GenreView>)
    ensures r.None? <==> forall k :: 0 <= k < |views| ==> views[k].id != id
    ensures r.Some? ==> r.value.id == id && r.value in views
    ensures r.Some? ==> exists k :: 0 <= k < |views| && views[k] == r.value
                                    && forall j :: 0 <= j < k ==> views[j].id != id
  {
    if views == [] then None
    else if views[0].id == id then Some(views[0])
    else
      var r := FindById(views[1..], id);
      assert forall k :: 1 <= k < |views| ==> views[k] == views[1..][k - 1];
      r
  }

  /** `currentGenreData`: nothing while no genre is selected, otherwise the entry whose
      id is the selected genre's (none if no entry has it). */
  function CurrentGenreData(views: seq<GenreView>, selected: Option<Genre>): (r: Option<GenreView>)
    ensures selected.None? ==> r.None?
    ensures selected.Some? ==>
      (r.None? <==> forall k :: 0 <= k < |views| ==> views[k].id != selected.value.id)
    ensures r.Some? ==> r.value in views && r.value.id == selected.value.id
  {
    if selected.None? then None else FindById(views, selected.value.id)
  }

  /** Selecting a genre of the list shows that genre's entry when genre ids are distinct. */
  lemma SelectedGenreShown(genres: seq<Genre>, tracks: seq<Track>, i: nat)
    requires i < |genres|
    requires forall j, k :: 0 <= j < k < |genres| ==> genres[j].id != genres[k].id
    ensures CurrentGenreData(GenresWithTracks(genres, tracks), Some(genres[i]))
         == Some(WithTracks(genres[i], tracks))
  {
    var views := GenresWithTracks(genres, tracks);
    var r := FindById(views, genres[i].id);
    assert views[i].id == genres[i].id;
    var k :| 0 <= k < |views| && views[k] == r.value && forall j :: 0 <= j < k ==> views[j].id != genres[i].id;
    assert views[k].id == genres[k].id;
    assert k == i;
  }
}
