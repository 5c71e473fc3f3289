/** Tracks, the engine's id→track cache, and the lookups the pages share with it. */
module Tracks {
  import opened Options
  import opened Strings
  import opened Numbers

  /** A track id; the empty id stands for a missing (falsy) one. */
  type TrackId = string

  /** A song or podcast episode as the search collaborator returns it. A missing text
      field reads as the empty string, a missing duration as `NaN`. */
  datatype Track = Track(
    id: TrackId,
    title: string,
    artist: string,        // possibly several artists joined by commas
    album: string,
    cover: string,
    duration: Num,         // seconds; 0 or non-finite for live streams
    url: string,           // remote media reference
    mediaType: string)     // "podcast_episode" for podcasts

  const PodcastEpisode: string := "podcast_episode"

  /** Every entry of the cache is stored under its own, non-empty id. */
  ghost predicate WellKeyed(cache: map<TrackId, Track>) {
    forall id :: id in cache ==> id != "" && cache[id].id == id
  }

  /** `cacheTrack(track)` on the map: only a track with a truthy id is stored, and it
      replaces whatever was stored under that id. */
  function CacheOne(cache: map<TrackId, Track>, t: Track): (r: map<TrackId, Track>)
    ensures WellKeyed(cache) ==> WellKeyed(r)
    ensures t.id == "" ==> r == cache
    ensures t.id != "" ==> r.Keys == cache.Keys + {t.id} && r[t.id] == t
    ensures forall id :: id in cache && id != t.id ==> id in r && r[id] == cache[id]
  {
    if t.id != "" then cache[t.id := t] else cache
  }

  /** `cacheTracks(tracks)`: `cacheTrack` on each track in order. */
  function CacheAll(cache: map<TrackId, Track>, ts: seq<Track>): map<TrackId, Track>
    decreases |ts|
  {
    if ts == [] then cache else CacheOne(CacheAll(cache, ts[..|ts| - 1]), ts[|ts| - 1])
  }

  /** The last track of `ts` carrying `id`, if any. */
  function LastWithId(ts: seq<Track>, id: TrackId): (r: Option<Track>)
    ensures r.Some? ==> r.value in ts && r.value.id == id
    ensures r.None? ==> forall t :: t in ts ==> t.id != id
  {
    if ts == [] then None
    else if ts[|ts| - 1].id == id then Some(ts[|ts| - 1])
    else LastWithId(ts[..|ts| - 1], id)
  }

  /** Caching a list keeps every old entry whose id the list does not carry, and stores
      under each truthy id of the list the LAST track carrying it (re-caching overwrites). */
  lemma {:induction false} CacheAllEntries(cache: map<TrackId, Track>, ts: seq<Track>, id: TrackId)
    ensures id != "" && LastWithId(ts, id).Some? ==>
      id in CacheAll(cache, ts) && CacheAll(cache, ts)[id] == LastWithId(ts, id).value
    ensures (id == "" || LastWithId(ts, id).None?) ==>
      (id in CacheAll(cache, ts) <==> id in cache) &&
      (id in cache ==> CacheAll(cache, ts)[id] == cache[id])
    decreases |ts|
  {
    if ts != [] {
      CacheAllEntries(cache, ts[..|ts| - 1], id);
    }
  }

  lemma {:induction false} CacheAllWellKeyed(cache: map<TrackId, Track>, ts: seq<Track>)
    requires WellKeyed(cache)
    ensures WellKeyed(CacheAll(cache, ts))
    decreases |ts|
  {
    if ts != [] {
      CacheAllWellKeyed(cache, ts[..|ts| - 1]);
    }
  }

  /** `getCachedTrack(id)`: the engine's cache first, then the persisted track
      metadata, else nothing. */
  function Lookup(cache: map<TrackId, Track>, metadata: map<TrackId, Track>, id: TrackId): (r: Option<Track>)
    ensures r.Some? <==> id in cache || id in metadata
    ensures id in cache ==> r == Some(cache[id])
    ensures id !in cache && id in metadata ==> r == Some(metadata[id])
  {
    if id in cache then Some(cache[id]) else if id in metadata then Some(metadata[id]) else None
  }

  /** `ids.map(id => getCachedTrack(id)).filter(Boolean)`: the tracks the ids resolve
      to, unknown ids dropped, order kept. */
  function ResolveIds(ids: seq<TrackId>, cache: map<TrackId, Track>, metadata: map<TrackId, Track>): (r: seq<Track>)
    ensures |r| <= |ids|
  {
    if ids == [] then []
    else
      var rest := ResolveIds(ids[1..], cache, metadata);
      match Lookup(cache, metadata, ids[0])
      case Some(t) => [t] + rest
      case None => rest
  }

  /** Resolution works id by id, so it distributes over concatenation: the order of
      the resolved tracks is the order of their ids. */
  lemma {:induction false} ResolveIdsAppend(a: seq<TrackId>, b: seq<TrackId>, cache: map<TrackId, Track>, metadata: map<TrackId, Track>)
    ensures ResolveIds(a + b, cache, metadata) == ResolveIds(a, cache, metadata) + ResolveIds(b, cache, metadata)
    decreases |a|
  {
    if a == [] {
      assert a + b == b;
    } else {
      assert (a + b)[1..] == a[1..] + b;
      assert (a + b)[0] == a[0];
      ResolveIdsAppend(a[1..], b, cache, metadata);
    }
  }

  /** A track is in the resolved list exactly when some id resolves to it. */
  lemma {:induction false} ResolveIdsMembers(ids: seq<TrackId>, cache: map<TrackId, Track>, metadata: map<TrackId, Track>, t: Track)
    ensures t in ResolveIds(ids, cache, metadata) <==>
      exists i :: 0 <= i < |ids| && Lookup(cache, metadata, ids[i]) == Some(t)
    decreases |ids|
  {
    if ids != [] {
      ResolveIdsMembers(ids[1..], cache, metadata, t);
      if exists i :: 0 <= i < |ids[1..]| && Lookup(cache, metadata, ids[1..][i]) == Some(t) {
        var i :| 0 <= i < |ids[1..]| && Lookup(cache, metadata, ids[1..][i]) == Some(t);
        assert ids[i + 1] == ids[1..][i];
      }
      if i :| 0 < i < |ids| && Lookup(cache, metadata, ids[i]) == Some(t) {
        assert ids[1..][i - 1] == ids[i];
      }
    }
  }

  /** When every id is known, nothing is dropped. */
  lemma {:induction false} ResolveIdsAllKnown(ids: seq<TrackId>, cache: map<TrackId, Track>, metadata: map<TrackId, Track>)
    requires forall i :: 0 <= i < |ids| ==> ids[i] in cache || ids[i] in metadata
    ensures |ResolveIds(ids, cache, metadata)| == |ids|
    decreases |ids|
  {
    if ids != [] {
      ResolveIdsAllKnown(ids[1..], cache, metadata);
    }
  }

  /** `artist.split(',')[0].trim()`: the first of several comma-joined artists, that is
      the text before the first comma without the white space around it. */
  function PrimaryArtist(artist: string): (r: string)
    ensures ',' !in r
    ensures r != [] ==> !IsSpace(r[0]) && !IsSpace(r[|r| - 1])
    ensures exists k :: PaddedAt(artist[..FirstIndex(artist, ',')], r, k)
  {
    var head := Split(artist, ',')[0];
    SplitHead(artist, ',');
    TrimOfCommaFree(head);
    TrimPadded(head);
    Trim(head)
  }

  lemma TrimOfCommaFree(head: string)
    requires ',' !in head
    ensures ',' !in Trim(head)
  {
    var r := Trim(head);
    var k :| OccursAt(head, r, k);
    forall i | 0 <= i < |r| ensures r[i] != ',' {
      assert r[i] == head[k + i];
    }
  }

  /** An artist field without commas or surrounding blanks is its own primary artist. */
  lemma PrimaryArtistPlain(artist: string)
    requires ',' !in artist
    requires artist != [] ==> !IsSpace(artist[0]) && !IsSpace(artist[|artist| - 1])
    ensures PrimaryArtist(artist) == artist
  {
    assert FirstIndex(artist, ',') == |artist|;
    assert Split(artist, ',') == [artist];
  }
}
