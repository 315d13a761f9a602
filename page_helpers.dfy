/** The two helpers every page repeats: the `m:ss` time formatter and the play
    button's "same track, do nothing" guard. */
module PageHelpers {
  import opened Text
  import opened Catalog
  import opened MusicContext

  /** `formatTime(seconds)` for whole seconds: minutes, a colon, and the seconds left
      over padded to two digits, so the colon is always third from the end. */
  function FormatTime(seconds: nat): (r: string)
    ensures |r| >= 4 && r[|r| - 3] == ':'
  {
    PadTwoDigits(seconds % 60);
    NatToString(seconds / 60) + ":" + PadStart(NatToString(seconds % 60), 2, '0')
  }

  /** Reads an `m:ss` string back into seconds; `None` when it is not of that shape. */
  function ParseTime(s: string): Option<nat>
  {
    if |s| >= 4 && s[|s| - 3] == ':' && AllDigits(s[..|s| - 3]) && AllDigits(s[|s| - 2..])
    then Some(60 * ParseNat(s[..|s| - 3]) + ParseNat(s[|s| - 2..]))
    else None
  }

  /** The two-digit seconds field of `secs < 60`: its tens digit then its units digit. */
  lemma PadTwoDigits(secs: nat)
    requires secs < 60
    ensures PadStart(NatToString(secs), 2, '0') == [DigitChar(secs / 10), DigitChar(secs % 10)]
  {
    if secs >= 10 {
      assert NatToString(secs) == NatToString(secs / 10) + [DigitChar(secs % 10)];
    }
  }

  /** The formatter's shape: minutes `m = seconds div 60` in decimal, a colon, and two
      digits for `ss = seconds mod 60`, where `ss < 60` and `60 * m + ss == seconds`. */
  lemma FormatTimeShape(seconds: nat)
    ensures var m, ss := seconds / 60, seconds % 60;
      && ss < 60 && 60 * m + ss == seconds
      && FormatTime(seconds) == NatToString(m) + [':', DigitChar(ss / 10), DigitChar(ss % 10)]
  {
    PadTwoDigits(seconds % 60);
  }

  /** Reading back the two-digit seconds field gives the seconds. */
  lemma ParseTwoDigits(ss: nat)
    requires ss < 60
    ensures AllDigits([DigitChar(ss / 10), DigitChar(ss % 10)])
    ensures ParseNat([DigitChar(ss / 10), DigitChar(ss % 10)]) == ss
  {
    var tens, units := DigitChar(ss / 10), DigitChar(ss % 10);
    assert DigitValue(tens) == ss / 10 && DigitValue(units) == ss % 10;
    assert [tens, units][..1] == [tens];
    assert [tens][..0] == [];
    assert ParseNat([tens]) == ss / 10;
  }

  /** Reading a formatted time back gives the seconds that were formatted. */
  lemma ParseFormatTime(seconds: nat)
    ensures ParseTime(FormatTime(seconds)) == Some(seconds)
  {
    FormatTimeFields(seconds);
    ParseFields(seconds / 60, seconds % 60);
  }

  /** Reading back minutes `m` and two-digit seconds `ss` gives `60 * m + ss`. */
  lemma ParseFields(m: nat, ss: nat)
    requires ss < 60
    ensures ParseTime(NatToString(m) + [':'] + [DigitChar(ss / 10), DigitChar(ss % 10)]) == Some(60 * m + ss)
  {
    ParseNatToString(m);
    ParseTwoDigits(ss);
    ParseTimeOfFields(NatToString(m), [DigitChar(ss / 10), DigitChar(ss % 10)]);
  }

  /** The formatted time cut into its minutes field, the colon and the seconds field. */
  lemma FormatTimeFields(seconds: nat)
    ensures FormatTime(seconds)
         == NatToString(seconds / 60) + [':'] + [DigitChar(seconds % 60 / 10), DigitChar(seconds % 60 % 10)]
  {
    PadTwoDigits(seconds % 60);
  }

  /** `ParseTime` splits at the colon three characters from the end. */
  lemma ParseTimeOfFields(mins: string, two: string)
    requires |mins| >= 1 && AllDigits(mins) && |two| == 2 && AllDigits(two)
    ensures ParseTime(mins + [':'] + two) == Some(60 * ParseNat(mins) + ParseNat(two))
  {
    var s := mins + [':'] + two;
    var front, back := s[..|s| - 3], s[|s| - 2..];
    assert front == mins && back == two && s[|s| - 3] == ':';
    var m, ss := ParseNat(front), ParseNat(back);
    assert m == ParseNat(mins) && ss == ParseNat(two);
    assert ParseTime(s) == Some(60 * m + ss);
  }

  /** The play button's guard: clicking a track calls `playTrack` unless the current
      track has the same id. */
  predicate ClickPlays(current: Option<Track>, track: Track)
  {
    !(current.Some? && current.value.id == track.id)
  }

  /** `handlePlayTrack(track)`: a click on the current track does nothing (it does not
      toggle); any other track starts playing. Either way a track with that id is current. */
  method HandlePlayTrack(store: MusicStore, track: Track)
    requires store.Valid()
    modifies store`currentTrack, store`isPlaying
    ensures store.Valid()
    ensures ClickPlays(old(store.currentTrack), track) ==>
      store.currentTrack == Some(track) && store.isPlaying
    ensures !ClickPlays(old(store.currentTrack), track) ==>
      store.currentTrack == old(store.currentTrack) && store.isPlaying == old(store.isPlaying)
    ensures store.currentTrack.Some? && store.currentTrack.value.id == track.id
  {
    if !ClickPlays(store.currentTrack, track) {
      return;
    }
    store.PlayTrack(track);
  }
}
