/** `AudioPlayer` of `src/player.js`: the object whose methods update its fields in place.
    Every method is proved to move the object's state exactly as the matching step
    function of `Playback` does, and to keep the engine's invariant; the properties of
    those steps are in `PlaybackLaws`. */
module Player {
  import opened Options
  import opened Numbers
  import opened Tracks
  import opened Mood
  import opened Playback
  import opened PlaybackLaws

  class AudioPlayer {
    const useNative: bool
    var isPlaying: bool
    var currentTrack: Option<Track>
    var position: real
    var volume: real
    var audioDuration: Num
    var src: string
    var listeners: map<string, seq<ListenerId>>
    var cache: map<TrackId, Track>
    var backend: seq<BackendCall>
    var store: seq<StoreCall>
    var emitted: seq<Event>
    var delivered: seq<Delivery>
    var searches: seq<string>

    /** The object's fields as a value. */
    function State(): PlayerState
      reads this
    {
      PlayerState(useNative, isPlaying, currentTrack, position, volume, audioDuration, src,
                  listeners, cache, backend, store, emitted, delivered, searches)
    }

    ghost predicate Valid()
      reads this
    {
      Inv(State())
    }

    constructor (useNative: bool)
      ensures State() == Initial(useNative)
      ensures Valid()
    {
      this.useNative := useNative;
      isPlaying, currentTrack, position, volume, audioDuration, src := false, None, 0.0, 1.0, NaN, "";
      listeners, cache, backend, store := map[], map[], [], [];
      emitted, delivered, searches := [], [], [];
    }

    // ───── Event registry ─────

    /** `on(name, f)`: returns the handle that unsubscribes `f`. */
    method On(name: string, f: ListenerId) returns (sub: Subscription)
      requires Valid()
      modifies this
      ensures State() == OnStep(old(State()), name, f)
      ensures sub == Subscription(name, f)
      ensures Valid()
    {
      var ls := if name in listeners then listeners[name] else [];
      listeners := listeners[name := AddListener(ls, f)];
      sub := Subscription(name, f);
      RegistryPreservesInv(old(State()), MediaError, name, f, sub);
    }

    /** Running the function `on` returned. */
    method Unsubscribe(sub: Subscription)
      requires Valid()
      modifies this
      ensures State() == UnsubscribeStep(old(State()), sub)
      ensures Valid()
    {
      if sub.name in listeners {
        listeners := listeners[sub.name := RemoveListener(listeners[sub.name], sub.listener)];
      }
      RegistryPreservesInv(old(State()), MediaError, sub.name, sub.listener, sub);
    }

    /** `_emit(name, data)`: calls the listeners of the event's name one by one. */
    method Emit(e: Event)
      requires Valid()
      modifies this
      ensures State() == EmitStep(old(State()), e)
      ensures Valid()
    {
      var ls := if EventName(e) in listeners then listeners[EventName(e)] else [];
      emitted := emitted + [e];
      var i := 0;
      while i < |ls|
        invariant 0 <= i <= |ls|
        invariant State() == old(State()).(emitted := old(emitted) + [e], delivered := old(delivered) + Deliver(ls[..i], e))
      {
        assert Deliver(ls[..i + 1], e) == Deliver(ls[..i], e) + [Delivery(ls[i], e)];
        delivered := delivered + [Delivery(ls[i], e)];
        i := i + 1;
      }
      assert ls[..i] == ls;
      RegistryPreservesInv(old(State()), e, "", 0, Subscription("", 0));
    }

    // ───── Cache ─────

    /** `cacheTrack(t)`. */
    method CacheTrack(t: Track)
      requires Valid()
      modifies this
      ensures State() == CacheStep(old(State()), t)
      ensures Valid()
    {
      if t.id != "" {
        cache := cache[t.id := t];
      }
    }

    /** `cacheTracks(ts)`: `cacheTrack` on each track in order. */
    method CacheTracks(ts: seq<Track>)
      requires Valid()
      modifies this
      ensures State() == CacheAllStep(old(State()), ts)
      ensures Valid()
    {
      var i := 0;
      while i < |ts|
        invariant 0 <= i <= |ts|
        invariant State() == CacheAllStep(old(State()), ts[..i])
        invariant Valid()
      {
        assert ts[..i + 1][..i] == ts[..i];
        CacheTrack(ts[i]);
        i := i + 1;
      }
      assert ts[..i] == ts;
    }

    /** `getCachedTrack(id)`, with the store's persisted metadata as `metadata`. */
    method GetCachedTrack(metadata: map<TrackId, Track>, id: TrackId) returns (r: Option<Track>)
      ensures r.Some? <==> id in cache || id in metadata
      ensures id in cache ==> r == Some(cache[id])
      ensures id !in cache && id in metadata ==> r == Some(metadata[id])
    {
      if id in cache {
        r := Some(cache[id]);
      } else if id in metadata {
        r := Some(metadata[id]);
      } else {
        r := None;
      }
    }

    // ───── Core playback ─────

    /** `_playWeb(url)`: assigning the source loads it, so the element restarts at 0 with
        an unknown duration. */
    method PlayWeb(url: string)
      requires Valid()
      modifies this
      ensures State() == PlayWebStep(old(State()), url)
      ensures Valid()
    {
      src := url;
      position, audioDuration := 0.0, NaN;
      backend := backend + [WebPlay(url)];
    }

    /** The part of `playTrack(track)` that runs before the resolver is awaited. Returns
        whether the track is playable; only then does the rest follow. */
    method BeginPlayTrack(track: Option<Track>) returns (started: bool)
      requires Valid()
      modifies this
      ensures started <==> track.Some? && track.value.url != ""
      ensures started ==> State() == BeginPlayStep(old(State()), track.value)
      ensures !started ==> State() == old(State())
      ensures Valid()
    {
      if track.None? || track.value.url == "" {
        return false;
      }
      currentTrack := track;
      CacheTrack(track.value);
      started := true;
    }

    /** The part of `playTrack(t)` that runs once the resolver has answered. */
    method FinishPlayTrack(env: Env, t: Track)
      requires Valid()
      modifies this
      ensures State() == FinishPlayStep(old(State()), env, t)
      ensures Valid()
    {
      var url := ResolveUrl(env, t);
      if useNative {
        backend := backend + [NativeRequest(t, url)];
        if env.nativeOk {
          isPlaying := true;
          Emit(StateChange(true));
        } else {
          PlayWeb(url);
        }
      } else {
        PlayWeb(url);
      }
      store := store + [AddRecentlyPlayed(t)];
      Emit(TrackChange(t));
    }

    /** `playTrack(track)` run to completion. */
    method PlayTrack(env: Env, track: Option<Track>)
      requires Valid()
      modifies this
      ensures State() == PlayTrackStep(old(State()), env, track)
      ensures Valid()
    {
      var started := BeginPlayTrack(track);
      if started {
        FinishPlayTrack(env, track.value);
      }
    }

    /** `playTrackById(id)`. */
    method PlayTrackById(env: Env, id: TrackId)
      requires Valid()
      modifies this
      ensures State() == PlayTrackStep(old(State()), env, Lookup(old(cache), env.metadata, id))
      ensures Valid()
    {
      var t := GetCachedTrack(env.metadata, id);
      if t.Some? {
        PlayTrack(env, t);
      }
    }

    /** `playAll(tracks, startTrack)`. */
    method PlayAll(env: Env, tracks: seq<Track>, start: Option<Track>)
      requires Valid()
      modifies this
      ensures State() == PlayAllStep(old(State()), env, tracks, start)
      ensures Valid()
    {
      CacheTracks(tracks);
      var ids := Ids(tracks);
      var i := StartIndex(ids, start);
      store := store + [SetQueue(ids, i)];
      PlayTrack(env, if i < |tracks| then Some(tracks[i]) else None);
    }

    /** `play()`. */
    method Play(env: Env)
      requires Valid()
      modifies this
      ensures State() == PlayStep(old(State()), env)
      ensures Valid()
    {
      var web := if src != "" then [WebPlay(src)] else [];
      if useNative {
        backend := backend + [NativeResume];
        if env.nativeOk {
          isPlaying := true;
          Emit(StateChange(true));
        } else {
          backend := backend + web;
        }
      } else {
        backend := backend + web;
      }
    }

    /** `pause()`. */
    method Pause()
      requires Valid()
      modifies this
      ensures State() == PauseStep(old(State()))
      ensures Valid()
    {
      if useNative {
        backend := backend + [NativePause];
      }
      backend := backend + [WebPause];
      isPlaying := false;
      Emit(StateChange(false));
    }

    /** `togglePlay()`. */
    method TogglePlay(env: Env)
      requires Valid()
      modifies this
      ensures State() == ToggleStep(old(State()), env)
      ensures Valid()
    {
      if isPlaying {
        Pause();
      } else {
        Play(env);
      }
    }

    /** `pause()` followed by rewinding the audio element to 0. */
    method Stop()
      requires Valid()
      modifies this
      ensures State() == StopStep(old(State()))
      ensures Valid()
    {
      Pause();
      position := 0.0;
    }

    /** `next()`, where `nextId` is the store's answer to `nextInQueue()`. */
    method Next(env: Env, nextId: TrackId)
      requires Valid()
      modifies this
      ensures State() == NextStep(old(State()), env, nextId)
      ensures Valid()
    {
      store := store + [NextInQueue];
      if nextId != "" {
        var t := GetCachedTrack(env.metadata, nextId);
        if t.Some? {
          PlayTrack(env, t);
        }
      } else {
        Stop();
      }
    }

    /** `prev()`, where `prevId` is the store's answer to `prevInQueue()`. */
    method Prev(env: Env, prevId: TrackId)
      requires Valid()
      modifies this
      ensures State() == PrevStep(old(State()), env, prevId)
      ensures Valid()
    {
      if position > 3.0 {
        position := 0.0;
        if useNative {
          backend := backend + [NativeSeek(0)];
        }
        return;
      }
      store := store + [PrevInQueue];
      if prevId != "" {
        var t := GetCachedTrack(env.metadata, prevId);
        if t.Some? {
          PlayTrack(env, t);
        }
      }
    }

    /** `seek(time)`. */
    method Seek(time: Num)
      requires Valid()
      modifies this
      ensures State() == SeekStep(old(State()), time)
      ensures Valid()
    {
      if time.Finite? {
        position := SeekedPosition(audioDuration, time.v);
        if useNative {
          backend := backend + [NativeSeek(Round(time.v * 1000.0))];
        }
      }
    }

    /** `seekPercent(pct)`. */
    method SeekPercent(pct: Num)
      requires Valid()
      modifies this
      ensures State() == SeekPercentStep(old(State()), pct)
      ensures Valid()
    {
      if currentTrack.Some? && IsFinite(currentTrack.value.duration) && currentTrack.value.duration.v > 0.0 {
        Seek(Mul(currentTrack.value.duration, pct));
      } else if Truthy(audioDuration) && IsFinite(audioDuration) {
        Seek(Mul(audioDuration, pct));
      }
    }

    /** `setVolume(v)`. */
    method SetVolume(v: real)
      requires Valid()
      modifies this
      ensures State() == SetVolumeStep(old(State()), v)
      ensures Valid()
    {
      volume := ClampVolume(v);
      store := store + [StoreCall.SetVolume(v)];
    }

    /** Queue and play the tracks the end-of-track search found. */
    method Refill(env: Env, toPlay: seq<Track>)
      requires Valid() && |toPlay| > 0
      modifies this
      ensures State() == RefillStep(old(State()), env, toPlay)
      ensures Valid()
    {
      CacheTracks(toPlay);
      store := store + [SetQueue(Ids(toPlay), 0)];
      PlayTrack(env, Some(toPlay[0]));
    }

    /** `_onEnded()`: `nextId` is the store's answer to `nextInQueue()`, `search` the answer
        of the content search to the mood query, `oldQueue` the store's queue after it. */
    method OnEnded(env: Env, nextId: TrackId, oldQueue: seq<TrackId>, search: SearchOutcome)
      requires Valid()
      modifies this
      ensures State() == EndedStep(old(State()), env, nextId, oldQueue, search)
      ensures Valid()
    {
      store := store + [NextInQueue];
      if nextId != "" {
        var t := GetCachedTrack(env.metadata, nextId);
        if t.Some? {
          PlayTrack(env, t);
          return;
        }
      }
      AfterQueue(env, oldQueue, search);
    }

    /** The part of `_onEnded` after the queue had no next track. */
    method AfterQueue(env: Env, oldQueue: seq<TrackId>, search: SearchOutcome)
      requires Valid()
      modifies this
      ensures State() == QueueExhaustedStep(old(State()), env, oldQueue, search)
      ensures Valid()
    {
      if currentTrack.Some? {
        if currentTrack.value.mediaType == PodcastEpisode {
          Stop();
          return;
        }
        searches := searches + [DetectMood(currentTrack)];
        if search.Results? && |search.tracks| > 0 {
          var toPlay := FollowOn(search.tracks, oldQueue);
          Refill(env, toPlay);
          return;
        }
      }
      Stop();
    }

    // ───── Backend events ─────

    /** The audio element's `play` event. */
    method OnAudioPlay()
      requires Valid()
      modifies this
      ensures State() == AudioPlayStep(old(State()))
      ensures Valid()
    {
      isPlaying := true;
      Emit(StateChange(true));
    }

    /** The audio element's `pause` event. */
    method OnAudioPause()
      requires Valid()
      modifies this
      ensures State() == AudioPauseStep(old(State()))
      ensures Valid()
    {
      isPlaying := false;
      Emit(StateChange(false));
    }

    /** The audio element's `timeupdate` event. */
    method OnAudioTimeUpdate(time: real, duration: Num)
      requires Valid()
      modifies this
      ensures State() == AudioTimeStep(old(State()), time, duration)
      ensures Valid()
    {
      position, audioDuration := time, duration;
      Emit(TimeUpdate(Finite(time), OrZero(duration)));
    }

    /** The audio element's `loadedmetadata` event. */
    method OnLoadedMetadata(duration: Num)
      requires Valid()
      modifies this
      ensures State() == LoadedStep(old(State()), duration)
      ensures Valid()
    {
      audioDuration := duration;
      Emit(Loaded(duration));
    }

    /** The audio element's `error` event. */
    method OnAudioError()
      requires Valid()
      modifies this
      ensures State() == AudioErrorStep(old(State()))
      ensures Valid()
    {
      Emit(MediaError);
    }

    /** The native plugin's `timeupdate` event. */
    method OnNativeTimeUpdate(pos: Num, duration: Num)
      requires Valid()
      modifies this
      ensures State() == NativeTimeStep(old(State()), pos, duration)
      ensures Valid()
    {
      var d := if Truthy(duration) then duration
               else if currentTrack.Some? then currentTrack.value.duration else Finite(0.0);
      Emit(TimeUpdate(pos, d));
    }
  }
}
