/** The library page, `src/pages/library.js`: its time and size texts, the song-count
    labels, the tracks of a playlist and the name check when a playlist is created. */
module Library {
  import opened Options
  import opened Strings
  import opened Numbers
  import opened Tracks
  import opened Playback
  import opened Player
  import NowPlaying

  // ───── Time text ─────

  /** `formatTime` of this page: empty for a falsy or non-finite time, `m:ss` otherwise. */
  function FormatTime(seconds: Num): (r: string)
    ensures !Truthy(seconds) || !IsFinite(seconds) ==> r == ""
  {
    if !Truthy(seconds) || !IsFinite(seconds) then "" else ClockText(seconds.v)
  }

  /** The library and the Now Playing page show the same text for every usable time and
      differ only where the library shows nothing and Now Playing shows `0:00`. */
  lemma FormatTimeAgreesWithNowPlaying(seconds: Num)
    ensures Truthy(seconds) && IsFinite(seconds) ==> FormatTime(seconds) == NowPlaying.FormatTime(seconds)
    ensures !(Truthy(seconds) && IsFinite(seconds)) ==> FormatTime(seconds) == "" && NowPlaying.FormatTime(seconds) == "0:00"
  {
  }

  /** A positive track length reads back from its text as its whole seconds. */
  lemma FormatTimeReadsBack(s: real)
    requires s > 0.0
    ensures ParseClock(FormatTime(Finite(s))) == Some(s.Floor)
  {
    ClockTextRoundTrip(s);
  }

  // ───── Size text ─────

  const KiB: int := 1024
  const MiB: int := 1024 * 1024

  /** `(bytes / 1024).toFixed(0)` for a positive size: the nearest whole number of
      kilobytes, a half rounded up (the quotient by a power of two is exact). */
  function Kilobytes(bytes: nat): (k: nat)
    ensures k * KiB - KiB / 2 <= bytes < k * KiB + KiB / 2
  {
    (bytes + KiB / 2) / KiB
  }

  /** `(bytes / 1024 / 1024).toFixed(1)` as a number of tenths: the nearest tenth of a
      megabyte, a half rounded up. */
  function TenthsOfMegabyte(bytes: nat): (t: nat)
    ensures t * MiB - MiB / 2 <= 10 * bytes < t * MiB + MiB / 2
  {
    (10 * bytes + MiB / 2) / MiB
  }

  /** The text of a number of tenths with one decimal. */
  function OneDecimal(t: nat): string {
    NatToString(t / 10) + "." + [DigitChar(t % 10)]
  }

  /** `formatSize(bytes)`, called with `track.size || 0`. */
  function FormatSize(bytes: int): (r: string)
    ensures bytes == 0 ==> r == "0 B"
    ensures bytes < KiB ==> r == IntToString(bytes) + " B"
    ensures KiB <= bytes < MiB ==> r == NatToString(Kilobytes(bytes)) + " KB"
    ensures bytes >= MiB ==> r == OneDecimal(TenthsOfMegabyte(bytes)) + " MB"
  {
    if bytes == 0 then "0 B"
    else if bytes < KiB then IntToString(bytes) + " B"
    else if bytes < MiB then NatToString(Kilobytes(bytes)) + " KB"
    else OneDecimal(TenthsOfMegabyte(bytes)) + " MB"
  }

  /** The unit shown follows the size: bytes below 1024, kilobytes below 1024 * 1024,
      megabytes from there on; the number shown is the size rounded to the nearest unit
      (to the nearest tenth for megabytes). */
  lemma SizeShowsNearestUnit(bytes: int)
    ensures bytes < KiB ==> FormatSize(bytes) == IntToString(bytes) + " B"
    ensures KiB <= bytes < MiB ==> exists k: nat ::
      1 <= k <= 1024 && k * KiB - KiB / 2 <= bytes < k * KiB + KiB / 2 && FormatSize(bytes) == NatToString(k) + " KB"
    ensures bytes >= MiB ==> exists t: nat ::
      t >= 10 && t * MiB - MiB / 2 <= 10 * bytes < t * MiB + MiB / 2 && FormatSize(bytes) == OneDecimal(t) + " MB"
  {
    if KiB <= bytes < MiB {
      var k := Kilobytes(bytes);
      assert 1 <= k <= 1024;
      assert k * KiB - KiB / 2 <= bytes < k * KiB + KiB / 2 && FormatSize(bytes) == NatToString(k) + " KB";
    }
    if bytes >= MiB {
      var t := TenthsOfMegabyte(bytes);
      assert t >= 10;
      assert t * MiB - MiB / 2 <= 10 * bytes < t * MiB + MiB / 2 && FormatSize(bytes) == OneDecimal(t) + " MB";
    }
  }

  /** Just under a megabyte the kilobyte count rounds up to 1024: the text says
      `1024 KB`, not `1.0 MB`. */
  lemma JustUnderAMegabyte()
    ensures FormatSize(MiB - 1) == "1024 KB"
  {
    assert Kilobytes(MiB - 1) == 1024;
    assert NatToString(1024) == "1024" by {
      assert NatToString(102) == "102" by {
        assert NatToString(10) == "10";
      }
    }
  }

  // ───── Counts ─────

  /** `${n} song${n !== 1 ? 's' : ''}`. */
  function SongCount(n: nat): (r: string)
    ensures r == NatToString(n) + " song" || r == NatToString(n) + " songs"
  {
    NatToString(n) + " song" + (if n != 1 then "s" else "")
  }

  /** The label is singular exactly for one song, and reads back as the count. */
  lemma SongCountPlural(n: nat)
    ensures SongCount(n) == NatToString(n) + " song" <==> n == 1
    ensures DigitsValue(SongCount(n)[..|NatToString(n)|]) == n
  {
    var d := NatToString(n);
    if n != 1 {
      assert |SongCount(n)| == |d| + 6;
    }
    assert SongCount(n)[..|d|] == d;
    DigitsOfNat(n);
  }

  // ───── Playlists ─────

  /** `trackIds.map(id => player.getCachedTrack(id)).filter(Boolean)`: the ids resolved
      through the engine's cache and the persisted metadata, unknown ids dropped. */
  function PlaylistTracks(trackIds: seq<TrackId>, cache: map<TrackId, Track>, metadata: map<TrackId, Track>): (r: seq<Track>)
    ensures |r| <= |trackIds|
  {
    ResolveIds(trackIds, cache, metadata)
  }

  /** The playlist shows every track one of its ids resolves to and nothing else, in the
      order of the ids; with every id known it shows one track per id. */
  lemma PlaylistTracksFromIds(trackIds: seq<TrackId>, cache: map<TrackId, Track>, metadata: map<TrackId, Track>)
    ensures forall t :: t in PlaylistTracks(trackIds, cache, metadata) ==>
      exists i :: 0 <= i < |trackIds| && Lookup(cache, metadata, trackIds[i]) == Some(t)
    ensures (forall i :: 0 <= i < |trackIds| ==> trackIds[i] in cache || trackIds[i] in metadata) ==>
      |PlaylistTracks(trackIds, cache, metadata)| == |trackIds|
    ensures PlaylistTracks(trackIds, cache, metadata) == [] <==>
      forall i :: 0 <= i < |trackIds| ==> trackIds[i] !in cache && trackIds[i] !in metadata
  {
    forall t | t in PlaylistTracks(trackIds, cache, metadata)
      ensures exists i :: 0 <= i < |trackIds| && Lookup(cache, metadata, trackIds[i]) == Some(t)
    {
      ResolveIdsMembers(trackIds, cache, metadata, t);
    }
    if forall i :: 0 <= i < |trackIds| ==> trackIds[i] in cache || trackIds[i] in metadata {
      ResolveIdsAllKnown(trackIds, cache, metadata);
    }
    PlaylistEmptyIff(trackIds, cache, metadata);
  }

  lemma {:induction false} PlaylistEmptyIff(trackIds: seq<TrackId>, cache: map<TrackId, Track>, metadata: map<TrackId, Track>)
    ensures ResolveIds(trackIds, cache, metadata) == [] <==>
      forall i :: 0 <= i < |trackIds| ==> trackIds[i] !in cache && trackIds[i] !in metadata
    decreases |trackIds|
  {
    if trackIds != [] {
      PlaylistEmptyIff(trackIds[1..], cache, metadata);
      assert forall i :: 1 <= i < |trackIds| ==> trackIds[i] == trackIds[1..][i - 1];
    }
  }

  /** The play button of a playlist: play all its tracks from the first, and nothing for
      a playlist none of whose ids is known. The list is the one resolved when the view
      of the playlist opened, through the cache and metadata of that moment, not at the
      press of the button. */
  method PlayPlaylist(player: AudioPlayer, env: Env, trackIds: seq<TrackId>,
                      openCache: map<TrackId, Track>, openMetadata: map<TrackId, Track>)
    requires player.Valid()
    modifies player
    ensures var tracks := PlaylistTracks(trackIds, openCache, openMetadata);
      && (tracks == [] ==> player.State() == old(player.State()))
      && (tracks != [] ==> player.State() == PlayAllStep(old(player.State()), env, tracks, Some(tracks[0])))
    ensures player.Valid()
  {
    var playlistTracks := PlaylistTracks(trackIds, openCache, openMetadata);
    if |playlistTracks| > 0 {
      player.PlayAll(env, playlistTracks, Some(playlistTracks[0]));
    }
  }

  /** `name?.trim()`: the name a new playlist is stored under, when the prompt was not
      cancelled and the trimmed name is not empty. */
  function PlaylistName(input: Option<string>): (r: Option<string>)
    ensures r.Some? <==> input.Some? && Trim(input.value) != ""
    ensures r.Some? ==> r.value == Trim(input.value)
  {
    if input.Some? && Trim(input.value) != "" then Some(Trim(input.value)) else None
  }

  /** A stored name is accepted unchanged: it has no surrounding white space, and
      creating a playlist from it again gives the same name. */
  lemma PlaylistNameIsTrimmed(input: Option<string>)
    requires PlaylistName(input).Some?
    ensures var n := PlaylistName(input).value;
      n != "" && !IsSpace(n[0]) && !IsSpace(n[|n| - 1]) && PlaylistName(Some(n)) == Some(n)
  {
    TrimIdempotent(input.value);
  }
}
