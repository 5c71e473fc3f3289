/** What the playback engine of `src/player.js` guarantees, stated over the step
    functions of `Playback`: the state invariant, the event registry, the transport
    operations and auto-continuation, and two whole scenarios. */
module PlaybackLaws {
  import opened Options
  import opened Strings
  import opened Numbers
  import opened Tracks
  import opened Mood
  import opened Playback

  function Last<T>(xs: seq<T>): T
    requires xs != []
  {
    xs[|xs| - 1]
  }

  // ───── The state invariant ─────

  /** The invariant only speaks of the cache, the listeners and the volume. */
  lemma InvFromParts(s: PlayerState, r: PlayerState)
    requires Inv(s) && WellKeyed(r.cache) && r.listeners == s.listeners && r.volume == s.volume
    ensures Inv(r)
  {
  }

  /** The event registry keeps the invariant. */
  lemma RegistryPreservesInv(s: PlayerState, e: Event, name: string, f: ListenerId, sub: Subscription)
    requires Inv(s)
    ensures Inv(EmitStep(s, e)) && Inv(OnStep(s, name, f)) && Inv(UnsubscribeStep(s, sub))
  {
  }

  /** Starting playback keeps the invariant. */
  lemma PlayTrackPreservesInv(s: PlayerState, env: Env, track: Option<Track>)
    requires Inv(s)
    ensures Inv(PlayTrackStep(s, env, track))
  {
  }

  /** `playAll` keeps the invariant: caching a whole list stores each track under its own id. */
  lemma {:induction false} PlayAllPreservesInv(s: PlayerState, env: Env, tracks: seq<Track>, start: Option<Track>)
    requires Inv(s)
    ensures Inv(PlayAllStep(s, env, tracks, start))
  {
    CacheAllWellKeyed(s.cache, tracks);
    var cached := CacheAllStep(s, tracks);
    var ids := Ids(tracks);
    var i := StartIndex(ids, start);
    var queued := cached.(store := cached.store + [SetQueue(ids, i)]);
    InvFromParts(s, queued);
    PlayTrackPreservesInv(queued, env, if i < |tracks| then Some(tracks[i]) else None);
  }

  /** The play/pause controls, seeking and the volume keep the invariant. */
  lemma ControlsPreserveInv(s: PlayerState, env: Env, time: Num, v: real)
    requires Inv(s)
    ensures Inv(PlayStep(s, env)) && Inv(PauseStep(s)) && Inv(ToggleStep(s, env)) && Inv(StopStep(s))
    ensures Inv(SeekStep(s, time)) && Inv(SeekPercentStep(s, time)) && Inv(SetVolumeStep(s, v))
  {
  }

  /** Moving in the queue keeps the invariant. */
  lemma {:induction false} QueueMovesPreserveInv(s: PlayerState, env: Env, id: TrackId)
    requires Inv(s)
    ensures Inv(NextStep(s, env, id)) && Inv(PrevStep(s, env, id))
  {
    var asked := s.(store := s.store + [NextInQueue]);
    var back := s.(store := s.store + [PrevInQueue]);
    PlayTrackPreservesInv(asked, env, Lookup(asked.cache, env.metadata, id));
    PlayTrackPreservesInv(back, env, Lookup(back.cache, env.metadata, id));
    ControlsPreserveInv(asked, env, NaN, 0.0);
  }

  /** The end of a track keeps the invariant, including when it refills the queue. */
  lemma {:induction false} EndedPreservesInv(s: PlayerState, env: Env, nextId: TrackId, oldQueue: seq<TrackId>, search: SearchOutcome)
    requires Inv(s)
    ensures Inv(EndedStep(s, env, nextId, oldQueue, search))
  {
    var asked := s.(store := s.store + [NextInQueue]);
    var next := if nextId != "" then Lookup(asked.cache, env.metadata, nextId) else None;
    if next.Some? {
      PlayTrackPreservesInv(asked, env, next);
    } else if asked.currentTrack.None? || asked.currentTrack.value.mediaType == PodcastEpisode {
      ControlsPreserveInv(asked, env, NaN, 0.0);
    } else {
      var searched := asked.(searches := asked.searches + [DetectMood(asked.currentTrack)]);
      if search.Results? && |search.tracks| > 0 {
        InvFromParts(s, searched);
        RefillPreservesInv(searched, env, FollowOn(search.tracks, oldQueue));
      } else {
        ControlsPreserveInv(searched, env, NaN, 0.0);
      }
    }
  }

  /** Refilling the queue keeps the invariant. */
  lemma RefillPreservesInv(s: PlayerState, env: Env, toPlay: seq<Track>)
    requires Inv(s) && |toPlay| > 0
    ensures Inv(RefillStep(s, env, toPlay))
  {
    CacheAllWellKeyed(s.cache, toPlay);
    var cached := CacheAllStep(s, toPlay);
    var queued := cached.(store := cached.store + [SetQueue(Ids(toPlay), 0)]);
    InvFromParts(s, queued);
    PlayTrackPreservesInv(queued, env, Some(toPlay[0]));
  }

  // ───── Event registry ─────

  /** The number of calls of listener `f` among `ds`. */
  function CallsOf(ds: seq<Delivery>, f: ListenerId): nat {
    if ds == [] then 0 else (if ds[0].listener == f then 1 else 0) + CallsOf(ds[1..], f)
  }

  /** A listener registered once is called once per emission; one not registered is not called. */
  lemma {:induction false} DeliverCallsOnce(ls: seq<ListenerId>, e: Event, f: ListenerId)
    requires NoDup(ls)
    ensures CallsOf(Deliver(ls, e), f) == if f in ls then 1 else 0
    decreases |ls|
  {
    if ls != [] {
      assert Deliver(ls, e)[1..] == Deliver(ls[1..], e);
      assert NoDup(ls[1..]);
      DeliverCallsOnce(ls[1..], e, f);
      assert ls[0] !in ls[1..];
    }
  }

  /** `_emit` calls each listener registered for the event's name exactly once, with the
      event, and calls no other listener. */
  lemma {:induction false} EmitCallsEachListenerOnce(s: PlayerState, e: Event, f: ListenerId)
    requires Inv(s)
    ensures var r := EmitStep(s, e);
      && r.emitted == s.emitted + [e]
      && |s.delivered| <= |r.delivered| && r.delivered[..|s.delivered|] == s.delivered
      && (forall d :: d in r.delivered[|s.delivered|..] ==> d.event == e)
      && CallsOf(r.delivered[|s.delivered|..], f) == if f in ListenersOf(s, EventName(e)) then 1 else 0
  {
    var r := EmitStep(s, e);
    var ls := ListenersOf(s, EventName(e));
    assert r.delivered[|s.delivered|..] == Deliver(ls, e);
    DeliverCallsOnce(ls, e, f);
  }

  /** Registering the same listener twice is the same as registering it once. */
  lemma OnIsIdempotent(s: PlayerState, name: string, f: ListenerId)
    ensures OnStep(OnStep(s, name, f), name, f) == OnStep(s, name, f)
  {
  }

  /** After `on(name, f)`, an emission of an event of that name calls `f` exactly once. */
  lemma {:induction false} SubscribedListenerCalledOnce(s: PlayerState, e: Event, f: ListenerId)
    requires Inv(s)
    ensures var s1 := OnStep(s, EventName(e), f);
      var r := EmitStep(s1, e);
      CallsOf(r.delivered[|s1.delivered|..], f) == 1
  {
    var s1 := OnStep(s, EventName(e), f);
    RegistryPreservesInv(s, e, EventName(e), f, Subscription(EventName(e), f));
    EmitCallsEachListenerOnce(s1, e, f);
  }

  /** After running the unsubscribe function `on(name, f)` returned, emissions of that
      name no longer call `f`, and still call every other listener registered before. */
  lemma {:induction false} UnsubscribedListenerNotCalled(s: PlayerState, e: Event, f: ListenerId, g: ListenerId)
    requires Inv(s)
    requires g != f && g in ListenersOf(s, EventName(e))
    ensures var s1 := UnsubscribeStep(OnStep(s, EventName(e), f), Subscription(EventName(e), f));
      var r := EmitStep(s1, e);
      CallsOf(r.delivered[|s1.delivered|..], f) == 0 && CallsOf(r.delivered[|s1.delivered|..], g) == 1
  {
    var name := EventName(e);
    var s0 := OnStep(s, name, f);
    var s1 := UnsubscribeStep(s0, Subscription(name, f));
    RegistryPreservesInv(s, e, name, f, Subscription(name, f));
    RegistryPreservesInv(s0, e, name, f, Subscription(name, f));
    assert f !in ListenersOf(s1, name);
    assert g in ListenersOf(s1, name);
    EmitCallsEachListenerOnce(s1, e, f);
    EmitCallsEachListenerOnce(s1, e, g);
  }

  // ───── Starting playback ─────

  /** `playTrack` ignores a missing track and a track without a media URL. */
  lemma PlayTrackIgnoresUnplayable(s: PlayerState, env: Env, track: Option<Track>)
    requires track.None? || track.value.url == ""
    ensures PlayTrackStep(s, env, track) == s
  {
  }

  /** `playTrack(t)` makes `t` current and cached, dispatches its resolved URL to the
      backend in use (the web backend when the native plugin fails), records the play,
      and emits `trackchange` last, whether or not the backend started. A web start
      loads the new source, so the element is back at 0 with an unknown duration; a
      native start leaves the element alone. */
  lemma PlayTrackEffects(s: PlayerState, env: Env, t: Track)
    requires t.url != ""
    ensures var r := PlayTrackStep(s, env, Some(t)); var url := ResolveUrl(env, t);
      && r.currentTrack == Some(t)
      && (t.id != "" ==> t.id in r.cache && r.cache[t.id] == t)
      && (forall id :: id in s.cache && id != t.id ==> id in r.cache && r.cache[id] == s.cache[id])
      && r.store == s.store + [AddRecentlyPlayed(t)]
      && r.emitted != [] && Last(r.emitted) == TrackChange(t)
      && r.searches == s.searches
      && (!s.useNative ==>
            r.backend == s.backend + [WebPlay(url)] && r.src == url && r.isPlaying == s.isPlaying
            && r.position == 0.0 && r.audioDuration.NaN?)
      && (s.useNative && env.nativeOk ==>
            r.backend == s.backend + [NativeRequest(t, url)] && r.isPlaying
            && r.emitted == s.emitted + [StateChange(true), TrackChange(t)]
            && r.src == s.src && r.position == s.position && r.audioDuration == s.audioDuration)
      && (s.useNative && !env.nativeOk ==>
            r.backend == s.backend + [NativeRequest(t, url), WebPlay(url)] && r.src == url
            && r.position == 0.0 && r.audioDuration.NaN?)
  {
  }

  /** `playAll(tracks, start)` caches every listed track, sets the queue to the tracks' ids
      positioned at the first occurrence of the start track (the head when there is no
      start track or it is not listed), and plays the track at that position. */
  lemma {:induction false} PlayAllQueuesAndPlays(s: PlayerState, env: Env, tracks: seq<Track>, start: Option<Track>)
    requires tracks != []
    ensures var r := PlayAllStep(s, env, tracks, start);
      var i := StartIndex(Ids(tracks), start);
      && i < |tracks|
      && (start.Some? && start.value.id in Ids(tracks) ==> tracks[i].id == start.value.id)
      && (start.None? || start.value.id !in Ids(tracks) ==> i == 0)
      && r.store == s.store + [SetQueue(Ids(tracks), i)] + (if tracks[i].url != "" then [AddRecentlyPlayed(tracks[i])] else [])
      && (tracks[i].url != "" ==> r.currentTrack == Some(tracks[i]))
      && (tracks[i].url == "" ==> r.currentTrack == s.currentTrack)
      && (forall k :: 0 <= k < |tracks| && tracks[k].id != "" ==> tracks[k].id in r.cache)
  {
    var i := StartIndex(Ids(tracks), start);
    var cached := CacheAll(s.cache, tracks);
    forall k | 0 <= k < |tracks| && tracks[k].id != ""
      ensures tracks[k].id in cached
    {
      CacheAllEntries(s.cache, tracks, tracks[k].id);
    }
  }

  /** A completion that arrives late still wins: when `playTrack(a)` and then
      `playTrack(b)` start, and the resolver answers for `b` before it answers for `a`,
      `b` is the current track but the last `trackchange` is `a`'s and the web backend
      plays `a`'s URL. */
  lemma StaleCompletionWins(s: PlayerState, env: Env, a: Track, b: Track)
    requires a != b && !s.useNative
    ensures var s4 := FinishPlayStep(FinishPlayStep(BeginPlayStep(BeginPlayStep(s, a), b), env, b), env, a);
      && s4.currentTrack == Some(b)
      && s4.emitted != [] && Last(s4.emitted) == TrackChange(a)
      && s4.src == ResolveUrl(env, a)
  {
  }

  // ───── Play and pause ─────

  /** `play()` leaves the track, the position, the source and the queue store alone. With
      the native backend it asks it to resume: when that succeeds the player is playing
      and `statechange(true)` is emitted; when it fails, or without the native backend,
      nothing is emitted, `isPlaying` stays as it was, and the web backend is asked to
      play only when it has a source. */
  lemma PlayEffects(s: PlayerState, env: Env)
    ensures var r := PlayStep(s, env);
      var web := if s.src != "" then [WebPlay(s.src)] else [];
      && r.currentTrack == s.currentTrack && r.position == s.position && r.src == s.src
      && r.store == s.store && r.cache == s.cache && r.searches == s.searches
      && (s.useNative && env.nativeOk ==>
            r.isPlaying && r.backend == s.backend + [NativeResume]
            && r.emitted == s.emitted + [StateChange(true)])
      && (s.useNative && !env.nativeOk ==>
            r.isPlaying == s.isPlaying && r.backend == s.backend + [NativeResume] + web
            && r.emitted == s.emitted)
      && (!s.useNative ==>
            r.isPlaying == s.isPlaying && r.backend == s.backend + web && r.emitted == s.emitted)
  {
  }

  /** `togglePlay()` pauses a playing player: it is then paused and `statechange(false)`
      is emitted. Otherwise it is `play()`, after which the player is playing exactly
      when the native backend resumed. */
  lemma TogglePlayEffects(s: PlayerState, env: Env)
    ensures var r := ToggleStep(s, env);
      && (s.isPlaying ==>
            !r.isPlaying && r.emitted == s.emitted + [StateChange(false)]
            && r.backend == s.backend + (if s.useNative then [NativePause, WebPause] else [WebPause])
            && r.currentTrack == s.currentTrack && r.position == s.position)
      && (!s.isPlaying ==> r == PlayStep(s, env) && (r.isPlaying <==> s.useNative && env.nativeOk))
  {
  }

  /** A new web source starts the element afresh, whatever the previous track had
      reached: `prev()` right after `playTrack(t)` steps back in the queue instead of
      restarting `t`, and `seekPercent` on a track without a usable duration does
      nothing until the new source's metadata arrives. */
  lemma WebSourceStartsAfresh(s: PlayerState, env: Env, t: Track, id: TrackId, pct: Num)
    requires !s.useNative && t.url != ""
    ensures var r := PlayTrackStep(s, env, Some(t));
      && PrevStep(r, env, id).store[..|r.store| + 1] == r.store + [PrevInQueue]
      && (!(t.duration.Finite? && t.duration.v > 0.0) ==> SeekPercentStep(r, pct) == r)
  {
    var r := PlayTrackStep(s, env, Some(t));
    assert r.position == 0.0;
    var asked := r.(store := r.store + [PrevInQueue]);
    if id != "" {
      var u := Lookup(asked.cache, env.metadata, id);
      if u.Some? && u.value.url != "" {
        PlayTrackEffects(asked, env, u.value);
      }
    }
  }

  // ───── Moving in the queue ─────

  /** `next()` at the end of the queue stops: paused at position 0 with the same current
      track; nothing is dispatched to play. */
  lemma NextAtEndStops(s: PlayerState, env: Env)
    ensures var r := NextStep(s, env, "");
      && !r.isPlaying && r.position == 0.0 && r.currentTrack == s.currentTrack
      && r.store == s.store + [NextInQueue]
      && r.emitted == s.emitted + [StateChange(false)]
      && r.backend == s.backend + (if s.useNative then [NativePause, WebPause] else [WebPause])
  {
  }

  /** `next()` to an id the engine can resolve plays that track; to an id it cannot
      resolve, it only advances the queue. */
  lemma NextPlaysResolvedTrack(s: PlayerState, env: Env, id: TrackId)
    requires id != ""
    ensures var r := NextStep(s, env, id);
      match Lookup(s.cache, env.metadata, id)
      case Some(t) => r == PlayTrackStep(s.(store := s.store + [NextInQueue]), env, Some(t))
      case None => r == s.(store := s.store + [NextInQueue])
  {
  }

  /** `prev()` more than 3 seconds into a track restarts it without consulting the queue. */
  lemma PrevRestartsTrack(s: PlayerState, env: Env, id: TrackId)
    requires s.position > 3.0
    ensures var r := PrevStep(s, env, id);
      && r.position == 0.0 && r.store == s.store && r.currentTrack == s.currentTrack
      && r.backend == s.backend + (if s.useNative then [NativeSeek(0)] else [])
      && r.emitted == s.emitted
  {
  }

  /** `prev()` within the first 3 seconds steps back in the queue and plays the
      previous track when the engine can resolve it. */
  lemma PrevPlaysPrevious(s: PlayerState, env: Env, id: TrackId, t: Track)
    requires s.position <= 3.0 && id != ""
    requires Lookup(s.cache, env.metadata, id) == Some(t) && t.url != ""
    ensures var r := PrevStep(s, env, id);
      r.currentTrack == Some(t) && r.store == s.store + [PrevInQueue, AddRecentlyPlayed(t)]
  {
  }

  // ───── Seeking and volume ─────

  /** `seek` ignores every time that is not finite. */
  lemma SeekIgnoresNonFinite(s: PlayerState, time: Num)
    requires !time.Finite?
    ensures SeekStep(s, time) == s
  {
  }

  /** A fraction in [0, 1] of a track with a positive finite duration seeks within the
      track. The element lands on that point, or on its own end when it knows a shorter
      duration. The native backend gets the requested position in whole milliseconds. */
  lemma {:induction false} SeekPercentWithinTrack(s: PlayerState, t: Track, pct: real)
    requires s.currentTrack == Some(t) && t.duration.Finite? && t.duration.v > 0.0
    requires 0.0 <= pct <= 1.0
    ensures var r, x := SeekPercentStep(s, Finite(pct)), Mul(t.duration, Finite(pct)).v;
      && x == t.duration.v * pct
      && 0.0 <= r.position <= t.duration.v
      && r.position == SeekedPosition(s.audioDuration, x)
      && (!s.audioDuration.Finite? || x <= s.audioDuration.v ==> r.position == x)
      && r.backend == s.backend + (if s.useNative then [NativeSeek(Round(x * 1000.0))] else [])
  {
    var d := t.duration.v;
    var target := Mul(t.duration, Finite(pct));
    MulUnit(d, pct);
    assert target.Finite? && 0.0 <= target.v <= d;
    assert SeekPercentStep(s, Finite(pct)) == SeekStep(s, target);
    SeekUpTo(s, target.v, d);
  }

  /** Seeking to a point of `[0, d]` lands within it. */
  lemma SeekUpTo(s: PlayerState, x: real, d: real)
    requires 0.0 <= x <= d
    ensures var r := SeekStep(s, Finite(x));
      && 0.0 <= r.position <= d
      && r.position == SeekedPosition(s.audioDuration, x)
      && (!s.audioDuration.Finite? || x <= s.audioDuration.v ==> r.position == x)
      && r.backend == s.backend + (if s.useNative then [NativeSeek(Round(x * 1000.0))] else [])
  {
  }

  /** `seek(time)` moves a web element that knows its duration to the nearest point of
      `[0, duration]`. A release past the end of the bar leaves it at the end. The native
      backend is still sent the requested time. */
  lemma SeekClampsToElement(s: PlayerState, time: real)
    requires s.audioDuration.Finite? && 0.0 <= s.audioDuration.v
    ensures var r := SeekStep(s, Finite(time));
      && 0.0 <= r.position <= s.audioDuration.v
      && (0.0 <= time <= s.audioDuration.v ==> r.position == time)
      && (time > s.audioDuration.v ==> r.position == s.audioDuration.v)
      && (time < 0.0 ==> r.position == 0.0)
      && r.backend == s.backend + (if s.useNative then [NativeSeek(Round(time * 1000.0))] else [])
      && r.currentTrack == s.currentTrack && r.src == s.src && r.audioDuration == s.audioDuration
  {
  }

  /** Without a usable duration, neither the track's nor the audio element's,
      `seekPercent` does nothing. */
  lemma SeekPercentNeedsDuration(s: PlayerState, pct: Num)
    requires s.currentTrack.None? || !s.currentTrack.value.duration.Finite? || s.currentTrack.value.duration.v <= 0.0
    requires !Truthy(s.audioDuration) || !IsFinite(s.audioDuration)
    ensures SeekPercentStep(s, pct) == s
  {
  }

  /** `setVolume(v)` keeps the volume in [0, 1], leaves an in-range volume as it is, and
      persists the value as given. */
  lemma SetVolumeClamps(s: PlayerState, v: real)
    ensures var r := SetVolumeStep(s, v);
      && 0.0 <= r.volume <= 1.0
      && (0.0 <= v <= 1.0 ==> r.volume == v)
      && (v > 1.0 ==> r.volume == 1.0) && (v < 0.0 ==> r.volume == 0.0)
      && r.store == s.store + [SetVolume(v)]
  {
  }

  // ───── End of a track ─────

  /** The next id could not be resolved (none, or unknown to the cache and the store). */
  predicate QueueExhausted(s: PlayerState, env: Env, nextId: TrackId) {
    nextId == "" || Lookup(s.cache, env.metadata, nextId).None?
  }

  /** When the queue has a resolvable next track, the end of a track plays it and
      nothing is searched. */
  lemma EndedPlaysQueuedNext(s: PlayerState, env: Env, nextId: TrackId, oldQueue: seq<TrackId>, search: SearchOutcome)
    requires !QueueExhausted(s, env, nextId)
    ensures var r := EndedStep(s, env, nextId, oldQueue, search);
      r == PlayTrackStep(s.(store := s.store + [NextInQueue]), env, Lookup(s.cache, env.metadata, nextId))
      && r.searches == s.searches
  {
  }

  /** A podcast episode never continues by search: at the end of the queue the engine
      stops at position 0 without searching. */
  lemma EndedPodcastStops(s: PlayerState, env: Env, nextId: TrackId, oldQueue: seq<TrackId>, search: SearchOutcome)
    requires QueueExhausted(s, env, nextId)
    requires s.currentTrack.Some? && s.currentTrack.value.mediaType == PodcastEpisode
    ensures var r := EndedStep(s, env, nextId, oldQueue, search);
      r.searches == s.searches && !r.isPlaying && r.position == 0.0 && r.currentTrack == s.currentTrack
  {
  }

  /** Without a current track there is nothing to continue from: the engine stops. */
  lemma EndedWithoutTrackStops(s: PlayerState, env: Env, nextId: TrackId, oldQueue: seq<TrackId>, search: SearchOutcome)
    requires QueueExhausted(s, env, nextId) && s.currentTrack.None?
    ensures var r := EndedStep(s, env, nextId, oldQueue, search);
      r.searches == s.searches && !r.isPlaying && r.position == 0.0
  {
  }

  /** At the end of the queue a song is followed by a search: its mood query is recorded,
      then the results refill the queue, or playback stops when there are none. */
  lemma EndedAfterSearch(s: PlayerState, env: Env, nextId: TrackId, oldQueue: seq<TrackId>, search: SearchOutcome)
    requires QueueExhausted(s, env, nextId)
    requires s.currentTrack.Some? && s.currentTrack.value.mediaType != PodcastEpisode
    ensures var searched := s.(store := s.store + [NextInQueue], searches := s.searches + [DetectMood(s.currentTrack)]);
      EndedStep(s, env, nextId, oldQueue, search) ==
        if search.Results? && |search.tracks| > 0 then RefillStep(searched, env, FollowOn(search.tracks, oldQueue))
        else StopStep(searched)
  {
  }

  /** Neither refilling nor stopping searches again. */
  lemma RefillAndStopKeepSearches(s: PlayerState, env: Env, q: seq<Track>)
    requires |q| > 0
    ensures RefillStep(s, env, q).searches == s.searches
    ensures StopStep(s).searches == s.searches
  {
    var cached := CacheAllStep(s, q);
    assert cached.searches == s.searches;
  }

  /** At the end of the queue a song triggers exactly one search, for its mood query. */
  lemma EndedSongSearchesOnce(s: PlayerState, env: Env, nextId: TrackId, oldQueue: seq<TrackId>, search: SearchOutcome)
    requires QueueExhausted(s, env, nextId)
    requires s.currentTrack.Some? && s.currentTrack.value.mediaType != PodcastEpisode
    ensures EndedStep(s, env, nextId, oldQueue, search).searches == s.searches + [DetectMood(s.currentTrack)]
  {
    EndedAfterSearch(s, env, nextId, oldQueue, search);
    var searched := s.(store := s.store + [NextInQueue], searches := s.searches + [DetectMood(s.currentTrack)]);
    if search.Results? && |search.tracks| > 0 {
      RefillAndStopKeepSearches(searched, env, FollowOn(search.tracks, oldQueue));
    }
  }

  /** A search that fails or finds nothing stops playback at position 0. */
  lemma EndedNothingFoundStops(s: PlayerState, env: Env, nextId: TrackId, oldQueue: seq<TrackId>, search: SearchOutcome)
    requires QueueExhausted(s, env, nextId)
    requires s.currentTrack.Some? && s.currentTrack.value.mediaType != PodcastEpisode
    requires search.SearchFailed? || search.tracks == []
    ensures var r := EndedStep(s, env, nextId, oldQueue, search);
      !r.isPlaying && r.position == 0.0 && r.currentTrack == s.currentTrack
  {
    EndedAfterSearch(s, env, nextId, oldQueue, search);
  }

  /** A search with results refills the queue: the queue becomes the results not already
      queued (all results if every one was), positioned at 0, and its head plays; when
      some result is new, what plays is a track that was not in the old queue. */
  lemma {:induction false} EndedRefillsQueue(s: PlayerState, env: Env, nextId: TrackId, oldQueue: seq<TrackId>, results: seq<Track>)
    requires QueueExhausted(s, env, nextId)
    requires s.currentTrack.Some? && s.currentTrack.value.mediaType != PodcastEpisode
    requires results != []
    ensures var r := EndedStep(s, env, nextId, oldQueue, Results(results));
      var q := FollowOn(results, oldQueue);
      && q != [] && q[0] in results
      && r.store == s.store + [NextInQueue, SetQueue(Ids(q), 0)] + (if q[0].url != "" then [AddRecentlyPlayed(q[0])] else [])
      && (q[0].url != "" ==> r.currentTrack == Some(q[0]))
      && ((exists t :: t in results && t.id !in oldQueue) ==> q[0].id !in oldQueue)
      && (forall k :: 0 <= k < |q| && q[k].id != "" ==> q[k].id in r.cache)
  {
    var q := FollowOn(results, oldQueue);
    FollowOnHead(results, oldQueue);
    EndedAfterSearch(s, env, nextId, oldQueue, Results(results));
    var searched := s.(store := s.store + [NextInQueue], searches := s.searches + [DetectMood(s.currentTrack)]);
    RefillEffects(searched, env, q);
    var played := if q[0].url != "" then [AddRecentlyPlayed(q[0])] else [];
    assert searched.store + [SetQueue(Ids(q), 0)] + played == s.store + [NextInQueue, SetQueue(Ids(q), 0)] + played;
  }

  /** The head of the follow-on queue is one of the results, and a fresh one when any
      result is fresh. */
  lemma FollowOnHead(results: seq<Track>, oldQueue: seq<TrackId>)
    requires results != []
    ensures var q := FollowOn(results, oldQueue);
      && q != [] && q[0] in results
      && ((exists t :: t in results && t.id !in oldQueue) ==> q[0].id !in oldQueue)
  {
    var q := FollowOn(results, oldQueue);
    assert q[0] in q;
  }

  /** What refilling does: the new queue goes to the store, every track of it is cached,
      and its head plays. */
  lemma RefillEffects(s: PlayerState, env: Env, q: seq<Track>)
    requires |q| > 0
    ensures var r := RefillStep(s, env, q);
      && r.store == s.store + [SetQueue(Ids(q), 0)] + (if q[0].url != "" then [AddRecentlyPlayed(q[0])] else [])
      && (q[0].url != "" ==> r.currentTrack == Some(q[0]))
      && (forall k :: 0 <= k < |q| && q[k].id != "" ==> q[k].id in r.cache)
  {
    var cached := CacheAllStep(s, q);
    var queued := cached.(store := cached.store + [SetQueue(Ids(q), 0)]);
    forall k | 0 <= k < |q| && q[k].id != ""
      ensures q[k].id in queued.cache
    {
      CacheAllEntries(s.cache, q, q[k].id);
    }
    if q[0].url != "" {
      PlayTrackEffects(queued, env, q[0]);
    }
  }

  // ───── Backend events ─────

  /** The audio element's `timeupdate` reports a duration of 0 instead of a missing or
      zero one, and records the element's position. */
  lemma AudioTimeReportsDuration(s: PlayerState, time: real, d: Num)
    ensures var r := AudioTimeStep(s, time, d);
      && r.position == time && r.audioDuration == d
      && r.emitted == s.emitted + [TimeUpdate(Finite(time), if Truthy(d) then d else Finite(0.0))]
  {
  }

  /** The native `timeupdate` falls back on the current track's duration, then on 0,
      and leaves the recorded position alone. */
  lemma NativeTimeFallsBack(s: PlayerState, pos: Num, d: Num)
    ensures var r := NativeTimeStep(s, pos, d);
      && r.position == s.position
      && (Truthy(d) ==> Last(r.emitted) == TimeUpdate(pos, d))
      && (!Truthy(d) && s.currentTrack.Some? ==> Last(r.emitted) == TimeUpdate(pos, s.currentTrack.value.duration))
      && (!Truthy(d) && s.currentTrack.None? ==> Last(r.emitted) == TimeUpdate(pos, Finite(0.0)))
  {
  }

  // ───── A whole session ─────

  /** What `PlayAllOfThree` needs of `playTrack(t)`: the current track, the store, and
      the other cache entries. */
  lemma PlayTrackBasics(s: PlayerState, env: Env, t: Track, other: TrackId)
    requires t.url != "" && other in s.cache && other != t.id
    ensures var r := PlayTrackStep(s, env, Some(t));
      && r.currentTrack == Some(t)
      && r.store == s.store + [AddRecentlyPlayed(t)]
      && other in r.cache && r.cache[other] == s.cache[other]
  {
    PlayTrackEffects(s, env, t);
  }

  /** `playAll` once the start position is known: cache, queue, play that track. */
  lemma PlayAllUnfolds(s: PlayerState, env: Env, tracks: seq<Track>, start: Option<Track>, i: nat)
    requires i < |tracks| && StartIndex(Ids(tracks), start) == i
    ensures var cached := CacheAllStep(s, tracks);
      PlayAllStep(s, env, tracks, start) ==
        PlayTrackStep(cached.(store := cached.store + [SetQueue(Ids(tracks), i)]), env, Some(tracks[i]))
  {
  }

  /** `playAll([a, b, c], b)` queues all three at position 1, plays `b`, and leaves `c`
      in the cache. */
  lemma {:induction false} PlayAllOfThree(s: PlayerState, env: Env, a: Track, b: Track, c: Track)
    requires a.id != "" && b.id != "" && c.id != ""
    requires a.id != b.id && b.id != c.id && a.id != c.id
    requires b.url != ""
    ensures var s1 := PlayAllStep(s, env, [a, b, c], Some(b));
      && s1.store == s.store + [SetQueue([a.id, b.id, c.id], 1), AddRecentlyPlayed(b)]
      && s1.currentTrack == Some(b)
      && c.id in s1.cache && s1.cache[c.id] == c
  {
    var ts := [a, b, c];
    var ids := Ids(ts);
    assert ids == [a.id, b.id, c.id];
    assert StartIndex(ids, Some(b)) == 1 by {
      assert ids[1] == b.id;
    }
    assert LastWithId(ts, c.id) == Some(c) by {
      assert ts[|ts| - 1] == c;
    }
    CacheAllEntries(s.cache, ts, c.id);
    var cached := CacheAllStep(s, ts);
    assert c.id in cached.cache && cached.cache[c.id] == c;
    var queued := cached.(store := cached.store + [SetQueue(ids, 1)]);
    PlayAllUnfolds(s, env, ts, Some(b), 1);
    assert ts[1] == b;
    var r := PlayTrackStep(queued, env, Some(b));
    assert PlayAllStep(s, env, ts, Some(b)) == r;
    PlayTrackBasics(queued, env, b, c.id);
    assert queued.store == s.store + [SetQueue(ids, 1)];
    assert r.store == s.store + [SetQueue(ids, 1)] + [AddRecentlyPlayed(b)];
    assert c.id in queued.cache && c.id != b.id;
  }

  /** `playAll([a, b, c], b)` queues all three at position 1 and plays `b`; `next()`
      answered with `c`'s id plays `c`; `next()` at the end of the queue stops on `c`
      at position 0. */
  lemma {:induction false} PlayAllThenNextToEnd(s: PlayerState, env: Env, a: Track, b: Track, c: Track)
    requires a.id != "" && b.id != "" && c.id != ""
    requires a.id != b.id && b.id != c.id && a.id != c.id
    requires b.url != "" && c.url != ""
    ensures var s1 := PlayAllStep(s, env, [a, b, c], Some(b));
      var s2 := NextStep(s1, env, c.id);
      var s3 := NextStep(s2, env, "");
      && s1.store == s.store + [SetQueue([a.id, b.id, c.id], 1), AddRecentlyPlayed(b)]
      && s1.currentTrack == Some(b)
      && s2.currentTrack == Some(c)
      && s3.currentTrack == Some(c) && !s3.isPlaying && s3.position == 0.0
  {
    PlayAllOfThree(s, env, a, b, c);
    var s1 := PlayAllStep(s, env, [a, b, c], Some(b));
    var asked := s1.(store := s1.store + [NextInQueue]);
    assert NextStep(s1, env, c.id) == PlayTrackStep(asked, env, Some(c));
    PlayTrackEffects(asked, env, c);
    NextAtEndStops(NextStep(s1, env, c.id), env);
  }
}
