/** The playback engine of `src/player.js` as a function of its state: one step function
    per operation of `AudioPlayer`, and the properties of those steps. The class in
    `Player` updates its fields in place and is proved to follow these steps.

    Collaborators appear only at the boundary. What the queue store, the download
    resolver, the native media plugin and the search answer is an input (`Env`, the id
    the queue hands out, the search outcome); what the engine asks of them is appended
    to a log (`backend`, `store`, `searches`). Calls to event listeners are logged as
    deliveries; what a listener then does is not part of the engine. */
module Playback {
  import opened Options
  import opened Strings
  import opened Numbers
  import opened Tracks
  import opened Mood

  /** The identity of a listener function registered with `on`. */
  type ListenerId = nat

  /** The events the engine emits, with their payloads. */
  datatype Event =
    | StateChange(isPlaying: bool)
    | TimeUpdate(currentTime: Num, duration: Num)
    | TrackChange(track: Track)
    | Loaded(duration: Num)
    | MediaError

  function EventName(e: Event): string {
    match e
    case StateChange(_) => "statechange"
    case TimeUpdate(_, _) => "timeupdate"
    case TrackChange(_) => "trackchange"
    case Loaded(_) => "loaded"
    case MediaError => "error"
  }

  /** One call of a listener with the emitted event. */
  datatype Delivery = Delivery(listener: ListenerId, event: Event)

  /** The unsubscribe function `on` returns: it removes `listener` from the listeners of `name`. */
  datatype Subscription = Subscription(name: string, listener: ListenerId)

  /** Requests to the two playback backends, in the order they are made. */
  datatype BackendCall =
    | NativePlay(url: string, title: string, artist: string, cover: string)
    | NativeResume
    | NativePause
    | NativeSeek(positionMs: int)
    | WebPlay(src: string)      // `audio.play()` with `audio.src` set to `src`
    | WebPause

  /** Requests to the queue store. */
  datatype StoreCall =
    | SetQueue(ids: seq<TrackId>, start: nat)
    | NextInQueue
    | PrevInQueue
    | AddRecentlyPlayed(track: Track)
    | SetVolume(volume: real)

  /** What the collaborators answer during one engine operation: the persisted track
      metadata of the store, the downloaded copies the resolver knows, and whether a
      call to the native plugin succeeds. */
  datatype Env = Env(metadata: map<TrackId, Track>, downloads: map<TrackId, string>, nativeOk: bool)

  /** The answer of the content search: a list of tracks, or a failure (a thrown error). */
  datatype SearchOutcome = Results(tracks: seq<Track>) | SearchFailed

  datatype PlayerState = PlayerState(
    useNative: bool,                          // native backend detected at start-up
    isPlaying: bool,
    currentTrack: Option<Track>,
    position: real,                           // `audio.currentTime`
    volume: real,                             // `audio.volume`
    audioDuration: Num,                       // `audio.duration`
    src: string,                              // `audio.src`
    listeners: map<string, seq<ListenerId>>,  // `_listeners`: a Set per event name, in insertion order
    cache: map<TrackId, Track>,               // `_trackCache`
    backend: seq<BackendCall>,
    store: seq<StoreCall>,
    emitted: seq<Event>,
    delivered: seq<Delivery>,
    searches: seq<string>)                    // queries sent to the content search

  /** The state right after construction. */
  function Initial(useNative: bool): PlayerState {
    PlayerState(useNative, false, None, 0.0, 1.0, NaN, "", map[], map[], [], [], [], [], [])
  }

  // ───── Event registry ─────

  predicate NoDup(ls: seq<ListenerId>) {
    forall i, j :: 0 <= i < j < |ls| ==> ls[i] != ls[j]
  }

  /** `set.add(f)`: a listener already present keeps its place. */
  function AddListener(ls: seq<ListenerId>, f: ListenerId): (r: seq<ListenerId>)
    ensures NoDup(ls) ==> NoDup(r)
    ensures f in r
    ensures forall g :: g != f ==> (g in r <==> g in ls)
    ensures |ls| <= |r| && r[..|ls|] == ls
  {
    if f in ls then ls else ls + [f]
  }

  /** `set.delete(f)`. */
  function RemoveListener(ls: seq<ListenerId>, f: ListenerId): (r: seq<ListenerId>)
    ensures f !in r
    ensures forall g :: g != f ==> (g in r <==> g in ls)
    ensures NoDup(ls) ==> NoDup(r)
  {
    if ls == [] then []
    else if ls[0] == f then RemoveListener(ls[1..], f)
    else
      var rest := RemoveListener(ls[1..], f);
      assert NoDup(ls) ==> ls[0] !in ls[1..] && NoDup(ls[1..]);
      [ls[0]] + rest
  }

  function ListenersOf(s: PlayerState, name: string): seq<ListenerId> {
    if name in s.listeners then s.listeners[name] else []
  }

  /** The calls `_emit` makes: each listener of the event's name, in order, with the event. */
  function Deliver(ls: seq<ListenerId>, e: Event): (r: seq<Delivery>)
    ensures |r| == |ls|
    ensures forall i :: 0 <= i < |ls| ==> r[i] == Delivery(ls[i], e)
  {
    seq(|ls|, i requires 0 <= i < |ls| => Delivery(ls[i], e))
  }

  /** `_emit(name, data)`. */
  function EmitStep(s: PlayerState, e: Event): PlayerState {
    s.(emitted := s.emitted + [e],
       delivered := s.delivered + Deliver(ListenersOf(s, EventName(e)), e))
  }

  /** `on(name, f)`. */
  function OnStep(s: PlayerState, name: string, f: ListenerId): PlayerState {
    s.(listeners := s.listeners[name := AddListener(ListenersOf(s, name), f)])
  }

  /** Running the function `on` returned. */
  function UnsubscribeStep(s: PlayerState, sub: Subscription): PlayerState {
    if sub.name in s.listeners
    then s.(listeners := s.listeners[sub.name := RemoveListener(s.listeners[sub.name], sub.listener)])
    else s
  }

  /** The state invariant: the cache is keyed by the tracks' own ids, each listener set
      holds a listener once, and the volume is in [0, 1]. */
  ghost predicate Inv(s: PlayerState) {
    && WellKeyed(s.cache)
    && (forall name :: name in s.listeners ==> NoDup(s.listeners[name]))
    && 0.0 <= s.volume <= 1.0
  }

  // ───── Helpers of the transport operations ─────

  /** `offlineUrl || track.url`: the downloaded copy when the resolver has one. */
  function ResolveUrl(env: Env, t: Track): (url: string)
    ensures t.id in env.downloads && env.downloads[t.id] != "" ==> url == env.downloads[t.id]
    ensures !(t.id in env.downloads && env.downloads[t.id] != "") ==> url == t.url
  {
    if t.id in env.downloads && env.downloads[t.id] != "" then env.downloads[t.id] else t.url
  }

  function DisplayTitle(t: Track): string {
    if t.title != "" then t.title else "Melo Music"
  }

  function DisplayArtist(t: Track): string {
    if t.artist != "" then t.artist else "Melo"
  }

  /** `cover.replace(/^http:\/\//i, 'https://')`. */
  function Artwork(cover: string): (r: string)
    ensures IsPrefix("http://", Lower(cover)) ==> r == "https://" + cover[7..]
    ensures !IsPrefix("http://", Lower(cover)) ==> r == cover
  {
    if IsPrefix("http://", Lower(cover)) then "https://" + cover[7..] else cover
  }

  /** The artwork sent to the native backend never starts with `http://` in any case,
      and rewriting it again changes nothing. */
  lemma ArtworkIsSecure(cover: string)
    ensures !IsPrefix("http://", Lower(Artwork(cover)))
    ensures Artwork(Artwork(cover)) == Artwork(cover)
  {
    var r := Artwork(cover);
    if IsPrefix("http://", Lower(cover)) {
      assert Lower(r)[4] == 's';
      assert "http://"[4] == ':';
    }
  }

  /** The native play request for `t` with the resolved `url`. */
  function NativeRequest(t: Track, url: string): BackendCall {
    NativePlay(url, DisplayTitle(t), DisplayArtist(t), Artwork(t.cover))
  }

  /** `trackIds.indexOf(id)`. */
  function IndexOf(ids: seq<TrackId>, id: TrackId): (r: int)
    ensures -1 <= r < |ids|
    ensures r >= 0 ==> ids[r] == id && forall j :: 0 <= j < r ==> ids[j] != id
    ensures r == -1 ==> id !in ids
  {
    if ids == [] then -1
    else if ids[0] == id then 0
    else var k := IndexOf(ids[1..], id); if k == -1 then -1 else k + 1
  }

  /** The queue start of `playAll`: `Math.max(0, startTrack ? indexOf(startTrack.id) : 0)`. */
  function StartIndex(ids: seq<TrackId>, start: Option<Track>): (r: nat)
    ensures r == 0 || r < |ids|
    ensures start.Some? && start.value.id in ids ==>
      ids[r] == start.value.id && forall j :: 0 <= j < r ==> ids[j] != start.value.id
    ensures start.None? || start.value.id !in ids ==> r == 0
  {
    if start.None? then 0 else var k := IndexOf(ids, start.value.id); if k < 0 then 0 else k
  }

  function Ids(ts: seq<Track>): (r: seq<TrackId>)
    ensures |r| == |ts| && forall i :: 0 <= i < |ts| ==> r[i] == ts[i].id
  {
    seq(|ts|, i requires 0 <= i < |ts| => ts[i].id)
  }

  /** `results.filter(s => !oldQueue.has(s.id))`. */
  function Fresh(results: seq<Track>, oldQueue: seq<TrackId>): (r: seq<Track>)
    ensures forall t :: t in r <==> t in results && t.id !in oldQueue
    ensures |r| <= |results|
  {
    if results == [] then []
    else (if results[0].id !in oldQueue then [results[0]] else []) + Fresh(results[1..], oldQueue)
  }

  /** The follow-on queue of auto-continuation: the results not already in the old queue,
      or all results when every one of them was already queued. */
  function FollowOn(results: seq<Track>, oldQueue: seq<TrackId>): (r: seq<Track>)
    ensures |r| > 0 <==> |results| > 0
    ensures (exists t :: t in results && t.id !in oldQueue) ==> r == Fresh(results, oldQueue)
    ensures (forall t :: t in results ==> t.id in oldQueue) ==> r == results
    ensures forall t :: t in r ==> t in results
  {
    var unqueued := Fresh(results, oldQueue);
    if |unqueued| > 0 then assert unqueued[0] in unqueued; unqueued
    else results
  }

  /** The position `seekPercent(pct)` asks for: the track's duration when finite and
      positive, else the audio element's duration when truthy and finite, else none. */
  function PercentTarget(track: Option<Track>, audioDuration: Num, pct: Num): (r: Option<Num>)
    ensures track.Some? && track.value.duration.Finite? && track.value.duration.v > 0.0 ==>
      r == Some(Mul(track.value.duration, pct))
    ensures !(track.Some? && track.value.duration.Finite? && track.value.duration.v > 0.0) ==>
      r == (if audioDuration.Finite? && audioDuration.v != 0.0 then Some(Mul(audioDuration, pct)) else None)
  {
    if track.Some? && IsFinite(track.value.duration) && track.value.duration.v > 0.0 then Some(Mul(track.value.duration, pct))
    else if Truthy(audioDuration) && IsFinite(audioDuration) then Some(Mul(audioDuration, pct))
    else None
  }

  /** Where the audio element's position lands when `currentTime` is set to `time`. Once
      the element knows a finite duration, the seek goes first to at most the end and then
      to at least 0. Before that, the time is kept as the default playback start position. */
  function SeekedPosition(duration: Num, time: real): (r: real)
    ensures !duration.Finite? ==> r == time
    ensures duration.Finite? ==> 0.0 <= r
    ensures 0.0 <= time ==> r <= time
    ensures duration.Finite? && 0.0 <= duration.v ==>
      && r <= duration.v
      && (0.0 <= time <= duration.v ==> r == time)
      && (time > duration.v ==> r == duration.v)
      && (time < 0.0 ==> r == 0.0)
  {
    if !duration.Finite? then time
    else
      var toEnd := if time > duration.v then duration.v else time;
      if toEnd < 0.0 then 0.0 else toEnd
  }

  /** `Math.max(0, Math.min(1, v))` on a finite volume. */
  function ClampVolume(v: real): (r: real)
    ensures 0.0 <= r <= 1.0
    ensures 0.0 <= v <= 1.0 ==> r == v
    ensures v < 0.0 ==> r == 0.0
    ensures v > 1.0 ==> r == 1.0
  {
    ClampUnit(Finite(v)).v
  }

  // ───── Transport operations ─────

  /** `cacheTrack(t)`. */
  function CacheStep(s: PlayerState, t: Track): PlayerState {
    s.(cache := CacheOne(s.cache, t))
  }

  /** `cacheTracks(ts)`. */
  function CacheAllStep(s: PlayerState, ts: seq<Track>): PlayerState {
    s.(cache := CacheAll(s.cache, ts))
  }

  /** `_playWeb(url)`. Assigning `audio.src` runs the media element's load algorithm at
      once: the element's position goes back to 0 and its duration is unknown (`NaN`)
      until the new source's metadata arrives. */
  function PlayWebStep(s: PlayerState, url: string): PlayerState {
    s.(src := url, position := 0.0, audioDuration := NaN, backend := s.backend + [WebPlay(url)])
  }

  /** The synchronous start of `playTrack(t)` for a playable `t`, before the resolver is
      awaited: `currentTrack` is set and the track cached. */
  function BeginPlayStep(s: PlayerState, t: Track): PlayerState {
    CacheStep(s.(currentTrack := Some(t)), t)
  }

  /** The rest of `playTrack(t)` once the resolver has answered: dispatch to the native
      backend (falling back on the web backend when the plugin fails) or to the web
      backend, record the play with the store and emit `trackchange`. Nothing checks that
      `t` is still the current track. */
  function FinishPlayStep(s: PlayerState, env: Env, t: Track): PlayerState {
    var url := ResolveUrl(env, t);
    var dispatched :=
      if s.useNative then
        var asked := s.(backend := s.backend + [NativeRequest(t, url)]);
        if env.nativeOk then EmitStep(asked.(isPlaying := true), StateChange(true))
        else PlayWebStep(asked, url)
      else PlayWebStep(s, url);
    EmitStep(dispatched.(store := dispatched.store + [AddRecentlyPlayed(t)]), TrackChange(t))
  }

  /** `playTrack(track)`: nothing happens without a track or without a media URL. */
  function PlayTrackStep(s: PlayerState, env: Env, track: Option<Track>): PlayerState {
    if track.None? || track.value.url == "" then s
    else FinishPlayStep(BeginPlayStep(s, track.value), env, track.value)
  }

  /** `playAll(tracks, startTrack)`. */
  function PlayAllStep(s: PlayerState, env: Env, tracks: seq<Track>, start: Option<Track>): PlayerState {
    var cached := CacheAllStep(s, tracks);
    var ids := Ids(tracks);
    var i := StartIndex(ids, start);
    var queued := cached.(store := cached.store + [SetQueue(ids, i)]);
    PlayTrackStep(queued, env, if i < |tracks| then Some(tracks[i]) else None)
  }

  /** `play()`: resume the native backend, or the web backend when it has a source. */
  function PlayStep(s: PlayerState, env: Env): PlayerState {
    var web := if s.src != "" then [WebPlay(s.src)] else [];
    if s.useNative then
      var asked := s.(backend := s.backend + [NativeResume]);
      if env.nativeOk then EmitStep(asked.(isPlaying := true), StateChange(true))
      else asked.(backend := asked.backend + web)
    else s.(backend := s.backend + web)
  }

  /** `pause()`: a failure of the native pause is swallowed. */
  function PauseStep(s: PlayerState): PlayerState {
    var calls := (if s.useNative then [NativePause] else []) + [WebPause];
    EmitStep(s.(backend := s.backend + calls, isPlaying := false), StateChange(false))
  }

  /** `togglePlay()`. */
  function ToggleStep(s: PlayerState, env: Env): PlayerState {
    if s.isPlaying then PauseStep(s) else PlayStep(s, env)
  }

  /** `pause(); audio.currentTime = 0`: playback stops at the start of the track. */
  function StopStep(s: PlayerState): PlayerState {
    PauseStep(s).(position := 0.0)
  }

  /** `next()`, where `nextId` is what the store's `nextInQueue()` returns ("" for none). */
  function NextStep(s: PlayerState, env: Env, nextId: TrackId): PlayerState {
    var asked := s.(store := s.store + [NextInQueue]);
    if nextId != "" then
      var t := Lookup(asked.cache, env.metadata, nextId);
      if t.Some? then PlayTrackStep(asked, env, t) else asked
    else StopStep(asked)
  }

  /** `prev()`, where `prevId` is what `prevInQueue()` would return. */
  function PrevStep(s: PlayerState, env: Env, prevId: TrackId): PlayerState {
    if s.position > 3.0 then
      s.(position := 0.0, backend := s.backend + if s.useNative then [NativeSeek(0)] else [])
    else
      var asked := s.(store := s.store + [PrevInQueue]);
      if prevId != "" then
        var t := Lookup(asked.cache, env.metadata, prevId);
        if t.Some? then PlayTrackStep(asked, env, t) else asked
      else asked
  }

  /** `seek(time)`: a non-finite time is ignored. The element's position is clamped as
      `SeekedPosition` says. The native position is the unclamped time in whole
      milliseconds, `Math.round(time * 1000)`. */
  function SeekStep(s: PlayerState, time: Num): PlayerState {
    if time.Finite? then
      s.(position := SeekedPosition(s.audioDuration, time.v),
         backend := s.backend + if s.useNative then [NativeSeek(Round(time.v * 1000.0))] else [])
    else s
  }

  /** `seekPercent(pct)`. */
  function SeekPercentStep(s: PlayerState, pct: Num): PlayerState {
    match PercentTarget(s.currentTrack, s.audioDuration, pct)
    case Some(time) => SeekStep(s, time)
    case None => s
  }

  /** `setVolume(v)`: the backend gets the clamped volume, the store the raw one. */
  function SetVolumeStep(s: PlayerState, v: real): PlayerState {
    s.(volume := ClampVolume(v), store := s.store + [SetVolume(v)])
  }

  /** `_onEnded()`, where `nextId` is what `nextInQueue()` returns, `oldQueue` the store's
      queue read after the search, and `search` the answer to the mood query. */
  function EndedStep(s: PlayerState, env: Env, nextId: TrackId, oldQueue: seq<TrackId>, search: SearchOutcome): PlayerState {
    var asked := s.(store := s.store + [NextInQueue]);
    var next := if nextId != "" then Lookup(asked.cache, env.metadata, nextId) else None;
    if next.Some? then PlayTrackStep(asked, env, next)
    else QueueExhaustedStep(asked, env, oldQueue, search)
  }

  /** The rest of `_onEnded` when the queue has no next track: stop after an episode or
      with nothing playing, otherwise search by mood and refill the queue, or stop when the
      search finds nothing. */
  function QueueExhaustedStep(s: PlayerState, env: Env, oldQueue: seq<TrackId>, search: SearchOutcome): PlayerState {
    if s.currentTrack.None? then StopStep(s)
    else if s.currentTrack.value.mediaType == PodcastEpisode then StopStep(s)
    else
      var searched := s.(searches := s.searches + [DetectMood(s.currentTrack)]);
      if search.Results? && |search.tracks| > 0 then RefillStep(searched, env, FollowOn(search.tracks, oldQueue))
      else StopStep(searched)
  }

  /** The end of `_onEnded` once the search found tracks: cache them, queue them and play
      the first. */
  function RefillStep(s: PlayerState, env: Env, toPlay: seq<Track>): PlayerState
    requires |toPlay| > 0
  {
    var cached := CacheAllStep(s, toPlay);
    var queued := cached.(store := cached.store + [SetQueue(Ids(toPlay), 0)]);
    PlayTrackStep(queued, env, Some(toPlay[0]))
  }

  // ───── Backend events ─────

  /** The audio element's `play` event. */
  function AudioPlayStep(s: PlayerState): PlayerState {
    EmitStep(s.(isPlaying := true), StateChange(true))
  }

  /** The audio element's `pause` event. */
  function AudioPauseStep(s: PlayerState): PlayerState {
    EmitStep(s.(isPlaying := false), StateChange(false))
  }

  /** The audio element's `timeupdate` event at position `time` with duration `duration`. */
  function AudioTimeStep(s: PlayerState, time: real, duration: Num): PlayerState {
    EmitStep(s.(position := time, audioDuration := duration), TimeUpdate(Finite(time), OrZero(duration)))
  }

  /** The audio element's `loadedmetadata` event. */
  function LoadedStep(s: PlayerState, duration: Num): PlayerState {
    EmitStep(s.(audioDuration := duration), Loaded(duration))
  }

  /** The audio element's `error` event (the retry timer it starts is not modelled). */
  function AudioErrorStep(s: PlayerState): PlayerState {
    EmitStep(s, MediaError)
  }

  /** The native plugin's `timeupdate`: its duration, or else the current track's, or 0.
      The audio element's position is not touched. */
  function NativeTimeStep(s: PlayerState, position: Num, duration: Num): PlayerState {
    var d := if Truthy(duration) then duration
             else if s.currentTrack.Some? then s.currentTrack.value.duration else Finite(0.0);
    EmitStep(s, TimeUpdate(position, d))
  }
}
