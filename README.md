# MElo playback engine and page logic in Dafny

This project models the core of MElo, a music player for the web and Android:

- the playback engine `AudioPlayer` in `src/player.js`. It keeps an event registry and a
  track cache, and drives either the native media plugin or the web `Audio` element.
  It starts tracks, moves through the queue, seeks, sets the volume, and continues
  playback by mood once the queue runs out.
- the logic the pages compute around it:
  - the version comparison and update status of the settings page
  - the greeting, genre queries, section plan, recently-played row, Load-More gate and
    artist initials of the home page
  - the time format, lyrics clean-up, seek bar and "Live" rule of the now-playing page
  - the time and size formats, song counts, playlist resolution and playlist-name check
    of the library page

The engine is split into two layers:

- `Playback`: the engine's state as a value (`PlayerState`), with one pure step function
  per operation.
- `Player`: a `class AudioPlayer` whose fields are that state. Every method is proved to
  change the fields exactly as its step function does, and to keep the engine's invariant
  (`Inv`: listener sets without duplicates, a cache keyed by track id, a volume in [0, 1]).

`PlaybackLaws` proves what the steps promise. The now-playing page follows the same
pattern: `NowPlaying.View` and its step functions, and `class NowPlayingView`.

The collaborators the engine calls become inputs or logs:

- The queue store's answers (`nextInQueue`, `prevInQueue`, the previous queue) and the
  content search's answer are parameters.
- The persisted track metadata, the offline downloads and whether the native plugin call
  succeeds form the `Env` parameter.
- What the engine asks of the backends, the store and the search is appended to
  `backend`, `store` and `searches`.
- Events emitted and listener calls made are appended to `emitted` and `delivered`.

JavaScript numbers are `Numbers.Num`: a finite real, NaN, or either infinity. Each
arithmetic step (`Mul`, `Div`, `Add`, `ParseInt`, `Trunc`, `Round`) spells out what JS
does with non-finite operands. A missing id (`null` or `''`) is the empty `TrackId`.

Modules:

- `Options`: the Option type
- `Numbers`: JS numbers and the `m:ss` clock text
- `Strings`: lower-casing, trim, split and join, substring search, decimal text
- `Tracks`: tracks, the cache, id lookup and the primary artist
- `Mood`: the mood table of auto-continuation
- `Playback`: engine state and steps
- `PlaybackLaws`: the engine's properties
- `Player`: the class `AudioPlayer`
- `Version`: the settings page
- `Home`: the home page
- `NowPlaying`: the now-playing page
- `Library`: the library page

## Model

| member | source | states |
|---|---|---|
| Numbers.OrZero | src/player.js:34 | `x \|\| 0`: a truthy number is kept, anything falsy (0, NaN) becomes 0 |
| Numbers.Mul | src/player.js:248-250 | JS multiplication: finite operands give the real product, NaN propagates, a finite result needs finite operands |
| Numbers.Add | src/pages/nowplaying.js:225 | JS addition: finite operands give the real sum, a finite result needs finite operands |
| Numbers.Div | src/pages/nowplaying.js:210 | JS division: finite by non-zero is the real quotient, finite by an infinity is 0, NaN propagates |
| Numbers.ParseInt | src/pages/nowplaying.js:212 | `parseInt` of a number gives NaN for a non-finite value and truncates a finite one toward zero, which is what the source does for 0 and for 10^-6 <= abs(x) < 10^21 |
| Numbers.ClampUnit | src/pages/nowplaying.js:210 | `Math.max(0, Math.min(1, x))`: NaN stays NaN, anything else lands in [0, 1], values already there are kept, +inf gives 1 and -inf gives 0 |
| Numbers.Trunc | src/player.js:241 | truncation toward zero on both signs |
| Numbers.Round | src/player.js:241 | `Math.round` gives the integer within half a unit |
| Numbers.MulUnit | src/player.js:248 | a fraction in [0, 1] of a positive duration lies between 0 and that duration |
| Numbers.MulWithin | src/pages/nowplaying.js:225 | the same bound on JS numbers: the product is finite and within [0, duration] |
| Numbers.Times100IsMul | src/pages/nowplaying.js:297 | the percentage scaling is JS multiplication by 100 |
| Numbers.FloorShift | src/pages/nowplaying.js:309-310 | shifting by an integer shifts the floor by the same integer |
| Numbers.MinutesSecondsSplit | src/pages/nowplaying.js:309-310 | for a non-negative time, minutes >= 0, seconds in [0, 60) and 60 * minutes + seconds is the whole seconds |
| Numbers.SplitAtFirst | src/pages/nowplaying.js:311 | a text joined at one separator splits back into its two parts |
| Numbers.PadDigits | src/pages/nowplaying.js:311 | `padStart(2, '0')` of a number below 60 is two digits that read back as that number |
| Numbers.ClockOfParts | src/pages/nowplaying.js:311 | the text `m:ss` reads back as 60 * m + ss |
| Numbers.ClockTextRoundTrip | src/pages/nowplaying.js:307-312 | the clock text of a non-negative time reads back as its whole seconds |
| Strings.LowerChar | src/player.js:262 | `toLowerCase` on one ASCII character: A-Z move down by 32, every other character is kept, and no A-Z is left |
| Strings.Lower | src/player.js:262 | ASCII `toLowerCase` maps each character and keeps the length |
| Strings.LowerIdempotent | src/player.js:262 | lower-casing twice is lower-casing once |
| Strings.LowerAppend | src/player.js:262 | lower-casing distributes over concatenation |
| Strings.TrimStart | src/pages/nowplaying.js:185 | the result is a suffix, starts with a non-space, and only spaces were dropped |
| Strings.TrimEnd | src/pages/nowplaying.js:185 | the result is a prefix, ends with a non-space, and only spaces were dropped |
| Strings.Trim | src/pages/nowplaying.js:185 | the result occurs in the input and has no white space at either end |
| Strings.TrimPadded | src/pages/nowplaying.js:185 | what trim removes is white space only: the result sits in the input with nothing but white space before and after it |
| Strings.TrimUnique | src/pages/nowplaying.js:185 | any slice without white space at its ends and with only white space around it is the trim |
| Strings.PaddedAtExtended | src/pages/settings.js:5 | more white space around a padded text keeps it padded |
| Strings.TrimIgnoresPadding | src/pages/settings.js:5 | white space put around a text does not change its trim |
| Strings.TrimIdempotent | src/pages/library.js:131-132 | trimming twice is trimming once |
| Strings.TrimLeavesUnpadded | src/pages/nowplaying.js:185 | a text without white space at its ends is its own trim |
| Strings.FirstIndex | src/player.js:284 | the index of the first separator, or the length when there is none |
| Strings.Split | src/pages/settings.js:5-6 | `split` gives at least one part and no part contains the separator |
| Strings.JoinSplit | src/pages/home.js:341 | joining the parts of a split with the separator gives the text back |
| Strings.SplitHead | src/player.js:284 | the first part of a split is the text before the first separator |
| Strings.SplitAppend | src/pages/settings.js:5-6 | appending a separator and a separator-free part adds exactly that part |
| Strings.ContainsIff | src/player.js:277 | `includes` holds exactly when the pattern occurs at some index |
| Strings.DigitChar | src/pages/library.js:116 | a digit value below 10 maps to a character '0' to '9' |
| Strings.NatToString | src/pages/library.js:116 | a number's decimal text is non-empty, all digits, with no leading zero |
| Strings.IntToString | src/pages/library.js:302 | a negative number's text is a minus sign followed by its magnitude's text |
| Strings.DigitsOfNat | src/pages/library.js:116 | the decimal text of a number reads back as that number |
| Strings.PadStart2 | src/pages/nowplaying.js:311 | `padStart(2, '0')` keeps a text of length >= 2 and otherwise yields length 2 ending in the text |
| Strings.Take | src/pages/home.js:110 | `slice(0, n)` keeps the first min(n, length) elements |
| Tracks.CacheOne | src/player.js:102-106 | caching a track with an id sets that entry and keeps every other one; a track without id changes nothing; the cache stays keyed by id |
| Tracks.LastWithId | src/player.js:108-110 | the last track of the list with a given id, or none when no track has it |
| Tracks.CacheAllEntries | src/player.js:108-110 | after caching a list, an id holds the list's last track with that id; any other id keeps its old entry |
| Tracks.CacheAllWellKeyed | src/player.js:108-110 | caching a list keeps every entry stored under its own track's id |
| Tracks.Lookup | src/player.js:112-114 | `getCachedTrack`: the cache wins, then the persisted metadata, else nothing |
| Tracks.ResolveIds | src/pages/library.js:249 | resolving ids and dropping the unknown ones never gives more tracks than ids |
| Tracks.ResolveIdsAppend | src/pages/library.js:249 | resolution distributes over concatenation of id lists |
| Tracks.ResolveIdsMembers | src/pages/library.js:249 | a track is in the resolved list exactly when some id resolves to it |
| Tracks.ResolveIdsAllKnown | src/pages/library.js:249 | when every id is known, no id is dropped |
| Tracks.PrimaryArtist | src/player.js:284 | the first comma-separated artist, trimmed: no comma, no white space at the ends, and it is the text before the first comma with only white space removed around it |
| Tracks.TrimOfCommaFree | src/player.js:284 | trimming a comma-free text keeps it comma-free |
| Tracks.PrimaryArtistPlain | src/pages/home.js:190 | a single trimmed artist name is its own primary artist |
| Mood.FirstMatch | src/player.js:276-280 | the first table row one of whose keywords occurs in the text; no earlier row matches, and none means no row matches |
| Mood.DetectMood | src/player.js:260-289 | no track gives "hindi songs"; else the first matching row's query; else "<primary artist> best songs", or "trending hindi songs 2025" without artist |
| Mood.EarlierRowWins | src/player.js:276-280 | if row i matches, the query comes from a matching row at or before i |
| Mood.FallbackQuery | src/player.js:282-288 | with no row matching, the artist fallback or the trending query is used, never the no-track query |
| Mood.KeywordMatchIgnoresCase | src/player.js:262 | a keyword found in the lower-cased title makes its row match |
| Playback.AddListener | src/player.js:91-93 | `Set.add`: the listener is present, others unchanged, order kept, no duplicates created |
| Playback.RemoveListener | src/player.js:94 | `Set.delete`: the listener is gone, all others kept, no duplicates created |
| Playback.Deliver | src/player.js:97-99 | `_emit` calls every listener of the event once, in insertion order, with the event |
| Playback.ResolveUrl | src/player.js:124-125 | a non-empty offline copy wins over the track's stream url |
| Playback.Artwork | src/player.js:130 | a leading `http://` (any case) becomes `https://`; anything else is kept |
| Playback.ArtworkIsSecure | src/player.js:130 | the artwork url never starts with `http://` and rewriting is idempotent |
| Playback.IndexOf | src/player.js:166 | `indexOf`: the first position of the id, or -1 when absent |
| Playback.StartIndex | src/player.js:166-168 | `Math.max(0, indexOf)`: the start track's first position, or 0 when there is no start track or it is absent |
| Playback.Ids | src/player.js:165 | the ids of the tracks, position by position |
| Playback.Fresh | src/player.js:317 | the results whose ids were not in the old queue, no more than the results |
| Playback.FollowOn | src/player.js:316-318 | the fresh results when there are some, otherwise all results; empty only when the results are |
| Playback.PercentTarget | src/player.js:246-252 | the seek target is the track's duration times pct when that is finite and positive, else the element's duration times pct when that is truthy and finite, else no seek |
| Playback.SeekedPosition | src/player.js:239 | setting `currentTime` clamps into [0, duration] once the duration is finite, keeps an in-range time, never moves a non-negative time forward, and keeps the time as it is before the duration is known |
| Playback.ClampVolume | src/player.js:255 | the element's volume is v clamped to [0, 1] |
| PlaybackLaws.InvFromParts | src/player.js:22-23 | the invariant follows from a well-keyed cache with listeners and volume unchanged |
| PlaybackLaws.RegistryPreservesInv | src/player.js:91-99 | emitting, subscribing and unsubscribing keep the invariant |
| PlaybackLaws.PlayTrackPreservesInv | src/player.js:118-150 | playing a track keeps the invariant |
| PlaybackLaws.PlayAllPreservesInv | src/player.js:163-169 | playing a list keeps the invariant |
| PlaybackLaws.ControlsPreserveInv | src/player.js:171-257 | play, pause, toggle, stop, seek, seekPercent and setVolume keep the invariant |
| PlaybackLaws.QueueMovesPreserveInv | src/player.js:205-235 | next and prev keep the invariant |
| PlaybackLaws.EndedPreservesInv | src/player.js:291-332 | the end-of-track handler keeps the invariant on every path |
| PlaybackLaws.RefillPreservesInv | src/player.js:319-322 | refilling the queue keeps the invariant |
| PlaybackLaws.DeliverCallsOnce | src/player.js:97-99 | a listener in a duplicate-free set is called exactly once, any other never |
| PlaybackLaws.EmitCallsEachListenerOnce | src/player.js:97-99 | an emit records the event, only appends to the call log, every new call carries the event, and each listener of its name is called once |
| PlaybackLaws.OnIsIdempotent | src/player.js:91-95 | subscribing the same listener twice is subscribing it once |
| PlaybackLaws.SubscribedListenerCalledOnce | src/player.js:91-99 | a listener subscribed to an event is called exactly once per emit |
| PlaybackLaws.UnsubscribedListenerNotCalled | src/player.js:94 | after its unsubscribe function runs, a listener is not called, while other listeners still are |
| PlaybackLaws.PlayTrackIgnoresUnplayable | src/player.js:119 | no track or a track without url leaves the whole state unchanged |
| PlaybackLaws.PlayEffects | src/player.js:171-183 | play keeps track, position, source and store; native success sets playing and emits statechange(true); native failure or the web backend emits nothing, keeps isPlaying, and plays the element only when it has a source |
| PlaybackLaws.TogglePlayEffects | src/player.js:196-203 | toggling a playing player pauses it and emits statechange(false); otherwise it is play, and it plays exactly when the native backend resumed |
| PlaybackLaws.PlayTrackEffects | src/player.js:118-150 | current track and cache entry set, other entries kept, recently-played recorded, trackchange last; web path plays the resolved url, native path sends one request and reports playing, a failed native call falls back to the web; a web start puts the position back to 0 with an unknown (NaN) duration, a native start leaves the element's position and duration as they were |
| PlaybackLaws.PlayAllQueuesAndPlays | src/player.js:163-169 | playAll caches every track, queues all ids at the start track's index (0 when absent) and plays that track when it has a url |
| PlaybackLaws.WebSourceStartsAfresh | src/player.js:152-156 | after a web `playTrack`, `prev()` steps back in the queue rather than restarting the new track, and `seekPercent` on a track without a usable duration does nothing |
| PlaybackLaws.StaleCompletionWins | src/player.js:118-150 | two overlapping plays whose resolutions finish out of order leave the second as current track, while the first's url plays and its trackchange is emitted last |
| PlaybackLaws.NextAtEndStops | src/player.js:213-216 | next with an exhausted queue pauses, rewinds to 0 and keeps the current track |
| PlaybackLaws.NextPlaysResolvedTrack | src/player.js:207-212 | next plays the track the queued id resolves to, and does nothing more when it resolves to none |
| PlaybackLaws.PrevRestartsTrack | src/player.js:221-226 | prev past 3 seconds rewinds to 0 without moving the queue |
| PlaybackLaws.PrevPlaysPrevious | src/player.js:228-233 | prev within 3 seconds plays the previous queued track |
| PlaybackLaws.SeekIgnoresNonFinite | src/player.js:238 | seeking to a non-finite time changes nothing |
| PlaybackLaws.SeekPercentWithinTrack | src/player.js:246-248 | a fraction in [0, 1] of a known duration lands within the track. The element's position is that point, or its own end when that is shorter. The native backend is sent the requested position in rounded milliseconds |
| PlaybackLaws.SeekClampsToElement | src/player.js:237-244 | with the element's duration known, a seek lands on the nearest point of [0, duration]: in range as asked, past the end at the end, before 0 at 0. The native backend still gets the requested time, and track, source and duration are kept |
| PlaybackLaws.SeekPercentNeedsDuration | src/player.js:247-251 | without a usable duration seekPercent changes nothing |
| PlaybackLaws.SetVolumeClamps | src/player.js:254-257 | the element's volume is clamped into [0, 1] while the store is sent the raw value |
| PlaybackLaws.EndedPlaysQueuedNext | src/player.js:292-299 | when the queue yields a known track, that track plays and no search is made |
| PlaybackLaws.EndedPodcastStops | src/player.js:302-308 | a finished podcast episode stops playback without searching |
| PlaybackLaws.EndedWithoutTrackStops | src/player.js:301-331 | with no current track playback stops without searching |
| PlaybackLaws.EndedAfterSearch | src/player.js:310-331 | a finished song searches by mood and refills from the results, or stops when there are none or the search fails |
| PlaybackLaws.RefillAndStopKeepSearches | src/player.js:319-331 | refilling and stopping make no search of their own |
| PlaybackLaws.EndedSongSearchesOnce | src/player.js:312-314 | the end of a song with an exhausted queue makes exactly one search, with the detected mood query |
| PlaybackLaws.EndedNothingFoundStops | src/player.js:315-331 | an empty or failed search stops playback and keeps the current track |
| PlaybackLaws.EndedRefillsQueue | src/player.js:315-323 | results refill the queue from position 0 with the follow-on tracks; the first plays; it is fresh when any result is; all are cached |
| PlaybackLaws.FollowOnHead | src/player.js:316-318 | the first follow-on track is a result, and not an old-queue track when a fresh one exists |
| PlaybackLaws.RefillEffects | src/player.js:319-322 | a refill queues the ids from 0, plays the first track and caches them all |
| PlaybackLaws.AudioTimeReportsDuration | src/player.js:31-36 | the web time event reports the position and the element's duration, or 0 when that is falsy |
| PlaybackLaws.NativeTimeFallsBack | src/player.js:78-83 | the native time event reports the plugin's duration, else the current track's, else 0 |
| PlaybackLaws.PlayTrackBasics | src/player.js:118-150 | playing a track sets it current, records it as recently played and keeps other cache entries |
| PlaybackLaws.PlayAllUnfolds | src/player.js:163-169 | playAll is: cache the list, set the queue at the start index, play that track |
| PlaybackLaws.PlayAllOfThree | src/player.js:163-169 | playing [a, b, c] from b queues all three at index 1, plays b and caches c |
| PlaybackLaws.PlayAllThenNextToEnd | src/player.js:163-217 | after playing [a, b, c] from b, next plays c and a further next with an exhausted queue stops on c |
| Player.AudioPlayer.constructor | src/player.js:16-24 | not playing, no current track, no listeners, empty cache |
| Player.AudioPlayer.On | src/player.js:91-95 | the OnStep state, and a subscription that names the event and listener |
| Player.AudioPlayer.Unsubscribe | src/player.js:94 | the UnsubscribeStep state |
| Player.AudioPlayer.Emit | src/player.js:97-99 | the EmitStep state: one call per listener, in order |
| Player.AudioPlayer.CacheTrack | src/player.js:102-106 | the CacheStep state |
| Player.AudioPlayer.CacheTracks | src/player.js:108-110 | the CacheAllStep state, by a loop over the tracks |
| Player.AudioPlayer.GetCachedTrack | src/player.js:112-114 | the cached track, else the persisted metadata's, else none |
| Player.AudioPlayer.PlayWeb | src/player.js:152-156 | the element plays the given url, and loading it puts the position back to 0 with an unknown (NaN) duration |
| Player.AudioPlayer.BeginPlayTrack | src/player.js:119-122 | starts exactly for a track with a url, then sets it current and caches it; otherwise changes nothing |
| Player.AudioPlayer.FinishPlayTrack | src/player.js:124-149 | the FinishPlayStep state: backend call or fallback (a web start resets position and duration), recently-played, trackchange |
| Player.AudioPlayer.PlayTrack | src/player.js:118-150 | the PlayTrackStep state |
| Player.AudioPlayer.PlayTrackById | src/player.js:158-161 | plays what the id resolves to, nothing when it resolves to nothing |
| Player.AudioPlayer.PlayAll | src/player.js:163-169 | the PlayAllStep state |
| Player.AudioPlayer.Play | src/player.js:171-183 | the PlayStep state: native resume or the element's play when it has a source |
| Player.AudioPlayer.Pause | src/player.js:185-194 | the PauseStep state |
| Player.AudioPlayer.TogglePlay | src/player.js:196-203 | pause when playing, play otherwise |
| Player.AudioPlayer.Stop | src/player.js:330-331 | pause and rewind to 0 |
| Player.AudioPlayer.Next | src/player.js:205-217 | the NextStep state |
| Player.AudioPlayer.Prev | src/player.js:219-235 | the PrevStep state |
| Player.AudioPlayer.Seek | src/player.js:237-244 | the SeekStep state: a finite time moves the element to its clamped position, and the native backend gets the unclamped time in ms |
| Player.AudioPlayer.SeekPercent | src/player.js:246-252 | the SeekPercentStep state |
| Player.AudioPlayer.SetVolume | src/player.js:254-257 | the SetVolumeStep state |
| Player.AudioPlayer.Refill | src/player.js:319-322 | the RefillStep state |
| Player.AudioPlayer.OnEnded | src/player.js:291-299 | the EndedStep state |
| Player.AudioPlayer.AfterQueue | src/player.js:301-331 | the QueueExhaustedStep state |
| Player.AudioPlayer.OnAudioPlay | src/player.js:40-43 | playing, statechange(true) emitted |
| Player.AudioPlayer.OnAudioPause | src/player.js:44-47 | not playing, statechange(false) emitted |
| Player.AudioPlayer.OnAudioTimeUpdate | src/player.js:31-36 | the AudioTimeStep state |
| Player.AudioPlayer.OnLoadedMetadata | src/player.js:37-39 | the LoadedStep state |
| Player.AudioPlayer.OnAudioError | src/player.js:48-50 | the error event is emitted |
| Player.AudioPlayer.OnNativeTimeUpdate | src/player.js:78-83 | the NativeTimeStep state |
| Version.ComponentValueOfTrim | src/pages/settings.js:5 | a component's value is decided by its text without the white space around it, as `Number` trims it |
| Version.DigitComponent | src/pages/settings.js:5 | a component of digits alone has their decimal value, leading zeros included |
| Version.ComponentReadsIntegers | src/pages/settings.js:5 | every integer's decimal text, with a minus sign when negative, reads back as that integer |
| Version.ComponentIgnoresPadding | src/pages/settings.js:5 | white space around a component does not change its value |
| Version.Components | src/pages/settings.js:5-6 | one component per dot-separated part, each its value |
| Version.LeadingSpaceIgnored | src/pages/settings.js:5 | white space before a whole version leaves its components as they were |
| Version.NewerFromIff | src/pages/settings.js:7-13 | newer exactly when at the first differing index (missing parts as 0) the first version is larger |
| Version.NewerByPadded | src/pages/settings.js:8-9 | component lists that agree once padded with zeros compare the same |
| Version.NewerIrreflexive | src/pages/settings.js:4-14 | no version is newer than itself |
| Version.NewerAsymmetric | src/pages/settings.js:4-14 | two versions are never each newer than the other |
| Version.NewerTransitive | src/pages/settings.js:4-14 | newer is transitive |
| Version.TrailingZeroIgnored | src/pages/settings.js:8-9 | a trailing ".0" changes no comparison |
| Version.SplitTwo | src/pages/settings.js:5 | a two-part dotted version splits into its two parts |
| Version.SplitThree | src/pages/settings.js:5 | a three-part dotted version splits into its three parts |
| Version.ComponentsOfTwo | src/pages/settings.js:5 | a two-part version has its parts' values as components |
| Version.ComponentsOfThreeParts | src/pages/settings.js:5 | a three-part version has its parts' values as components |
| Version.ComponentsOfThree | src/pages/settings.js:5 | a three-part version of digit parts has their values as components |
| Version.SmallDigitValues | src/pages/settings.js:5 | the digit texts "10", "9", "1", "0" have their numeric values |
| Version.ComponentsOfCurrentVersion | src/pages/settings.js:1 | 1.0.10 and 1.0.9 have components [1, 0, 10] and [1, 0, 9] |
| Version.ComponentsCompareAsNumbers | src/pages/settings.js:4-14 | 1.0.10 is newer than 1.0.9 and not the other way round |
| Version.SignedComponentCounts | src/pages/settings.js:5-11 | a signed component is negative: 1.0 is newer than 1.-1 |
| Version.NonNumericComponentIsZero | src/pages/settings.js:5-11 | a component `Number` cannot read counts as 0: 1.0b is not newer than 1.0 |
| Version.CompareComponents | src/pages/settings.js:7-13 | the loop over the longer length answers NewerFrom: true exactly when the first differing component of a is larger |
| Version.IsNewer | src/pages/settings.js:4-14 | isNewer answers Newer: true exactly when the first differing component of a is larger |
| Version.StatusAfterCheck | src/pages/settings.js:104-130 | a failed request or a missing version fails the check; else an update is offered exactly when the published version is newer than 1.0.10 |
| Version.CurrentVersionIsUpToDate | src/pages/settings.js:114-117 | publishing the running version reports up to date |
| Home.Greeting | src/pages/home.js:30-33 | morning before 12, afternoon before 17, evening otherwise |
| Home.GreetingFollowsTheDay | src/pages/home.js:30-33 | a later hour never gives an earlier greeting |
| Home.GenreQuery | src/pages/home.js:10-23 | a known genre maps to its query, any other id is its own query and a non-empty id never gives an empty query |
| Home.UserInterests | src/pages/home.js:178 | the user's interests, or bollywood, pop and lofi when there are none |
| Home.QueriesFor | src/pages/home.js:180 | an interest's two sections, or none for an unknown interest |
| Home.BaseSectionsAppend | src/pages/home.js:179-182 | the interest sections of two lists concatenate |
| Home.BaseSectionsCount | src/pages/home.js:179-182 | two sections per known interest |
| Home.DefaultBaseSections | src/pages/home.js:178-182 | without interests, the bollywood, pop and lofi sections in that order |
| Home.ArtistOf | src/pages/home.js:188-190 | an artist exactly when the id resolves to a track with an artist, and then its primary artist |
| Home.ArtistsOf | src/pages/home.js:187-190 | one artist-or-none per recent id, in order |
| Home.PickStepWellFormed | src/pages/home.js:191-192 | one scan step keeps the picks distinct by lower-cased name, at most two, recorded in the seen set |
| Home.AppendKeepsDistinct | src/pages/home.js:191-192 | adding an unseen name keeps the picked names distinct case-insensitively |
| Home.AppendKeepsSeen | src/pages/home.js:192 | adding a name adds its lower-cased form to the seen set |
| Home.PickWellFormed | src/pages/home.js:185-200 | the whole scan picks at most two case-insensitively distinct artists |
| Home.PickFromArtists | src/pages/home.js:187-192 | every picked artist is the artist of some scanned track |
| Home.ArtistPicksFromIds | src/pages/home.js:187-192 | every picked artist comes from a recent id that resolves to a track with that primary artist |
| Home.ArtistSections | src/pages/home.js:193-196 | one "Because you listened to" section per picked artist, in order |
| Home.Layout | src/pages/home.js:193 | laying the artist sections into the base keeps every section |
| Home.PlannedSections | src/pages/home.js:123-203 | the planned home never exceeds eight sections |
| Home.Insert | src/pages/home.js:193 | `splice(i, 0, x)` adds exactly one element |
| Home.InsertExtendsLayout | src/pages/home.js:193 | inserting the next artist at 2 + its rank is the layout with one more artist |
| Home.LayoutStep | src/pages/home.js:191-193 | a scan step that picks an artist inserts its section at 2 + the new seen size; one that does not changes nothing |
| Home.InterestSections | src/pages/home.js:179-182 | the loop over interests builds the interest sections |
| Home.ScanAdvance | src/pages/home.js:187-199 | one more scanned id either picks a new artist (seen grows by its lower-cased name and the layout gains its section at 2 + seen size) or leaves picks and layout unchanged |
| Home.PlanSections | src/pages/home.js:123-203 | the planned sections, from the user's interests and the first ten recent ids |
| Home.LayInArtists | src/pages/home.js:185-203 | the loop over the first ten ids lays the picked artist sections into the base and keeps the first eight |
| Home.PlanWithoutHistory | src/pages/home.js:185-203 | with no history the plan is the first eight interest sections |
| Home.PlanArtistSections | src/pages/home.js:185-203 | the plan is the base with the picked artists' sections laid in, cut to eight |
| Home.RecentTracks | src/pages/home.js:106-110 | at most ten tracks, a prefix of the resolved recent ids |
| Home.RecentTracksFromIds | src/pages/home.js:107-110 | every recent track comes from a recent id; with every id known, the row has min(10, ids) tracks |
| Home.SectionRow | src/pages/home.js:273-278 | the first ten tracks are shown; Load More appears exactly for at least ten tracks and a query, and then ten cards are shown |
| Home.NonEmptyWords | src/pages/home.js:341 | the non-empty words, no more than there were words, each one of them |
| Home.FirstChars | src/pages/home.js:341 | one character per non-empty word, the i-th being the first character of the i-th non-empty word |
| Home.FirstCharsAppend | src/pages/home.js:341 | the initials of two word lists one after the other are the initials of each in turn |
| Home.Initials | src/pages/home.js:341 | the first characters of the name's first two non-empty words (fewer when it has fewer), never a space |
| Home.TwoWordInitials | src/pages/home.js:341 | a two-word name's initials are its words' first letters |
| Home.EmptyWordsAddNothing | src/pages/home.js:341 | an empty word adds no character |
| NowPlaying.FormatTime | src/pages/nowplaying.js:307-312 | a falsy or non-finite time shows 0:00 |
| NowPlaying.FormatTimeReadsBack | src/pages/nowplaying.js:307-312 | a non-negative time's text reads back as its whole seconds |
| NowPlaying.LeadingCount | src/pages/nowplaying.js:185 | the length of the leading run of one character |
| NowPlaying.CrRunsToLf | src/pages/nowplaying.js:185 | the corrected line-break step leaves no CR LF, keeps emptiness and starts with LF exactly at a break |
| NowPlaying.NoCrlfSlice | src/pages/nowplaying.js:185 | a slice of a CR LF-free text is CR LF-free |
| NowPlaying.NoTripleLfSlice | src/pages/nowplaying.js:185 | a slice of a text without three line feeds in a row has none either |
| NowPlaying.CollapseBlankLines | src/pages/nowplaying.js:185 | `replace(/\n{3,}/g, '\n\n')` leaves no three line feeds in a row, keeps the first character and adds no CR LF |
| NowPlaying.RunThenRest | src/pages/nowplaying.js:185 | one or two line feeds before a non-LF text make no run of three |
| NowPlaying.CharThenRest | src/pages/nowplaying.js:185 | a non-LF character before a text makes no run of three |
| NowPlaying.TrimKeepsNoCrlf | src/pages/nowplaying.js:185 | trimming adds no CR LF |
| NowPlaying.TrimKeepsNoTripleLf | src/pages/nowplaying.js:185 | trimming adds no run of three line feeds |
| NowPlaying.CrlfToLfOnDoubledCr | src/pages/nowplaying.js:185 | `/\r\n/g` turns "a\r\r\nb" into "a\r\nb" |
| NowPlaying.CollapseKeepsSingleBreak | src/pages/nowplaying.js:185 | collapsing leaves "a\r\nb" as it is |
| NowPlaying.TrimKeepsInnerBreak | src/pages/nowplaying.js:185 | trimming leaves "a\r\nb" as it is |
| NowPlaying.CrlfSurvivesCleanUp | src/pages/nowplaying.js:185 | the clean-up as written still contains CR LF for "a\r\r\nb" |
| NowPlaying.CrlfInside | src/pages/nowplaying.js:185 | a CR LF at positions 1-2 is contained |
| NowPlaying.CleanedDoubledCr | src/pages/nowplaying.js:185 | the clean-up as written maps "a\r\r\nb" to "a\r\nb" |
| NowPlaying.CleanLyrics | src/pages/nowplaying.js:185 | the corrected clean-up leaves no CR LF, no three line feeds in a row and no white space at either end |
| NowPlaying.CollapseFixpoint | src/pages/nowplaying.js:185 | text without three line feeds in a row passes `replace(/\n{3,}/g, '\n\n')` unchanged |
| NowPlaying.CollapseRun | src/pages/nowplaying.js:185 | a run of k line feeds before text not starting with one becomes exactly two when k >= 3, stays when k < 3, and the text after it is collapsed on its own |
| NowPlaying.CrRunsToLfFixpoint | src/pages/nowplaying.js:185 | text without CR LF passes the corrected line-break step unchanged |
| NowPlaying.CleanLyricsKeepsCleanText | src/pages/nowplaying.js:183-185 | lyrics with no CR LF, no three line feeds in a row and no white space at either end come out of the corrected clean-up unchanged, and also out of the as-written one when they have no CR |
| NowPlaying.CleanLyricsIdempotent | src/pages/nowplaying.js:185 | cleaning cleaned lyrics again changes nothing |
| NowPlaying.NoCrlfExcludesCrlf | src/pages/nowplaying.js:185 | the CR LF-free property means "\r\n" is not contained |
| NowPlaying.NoTripleLfExcludesBlankRuns | src/pages/nowplaying.js:185 | the run-free property means "\n\n\n" is not contained |
| NowPlaying.CleanLyricsHasNoCrlfOrBlankRuns | src/pages/nowplaying.js:185 | cleaned lyrics contain neither "\r\n" nor "\n\n\n" |
| NowPlaying.CrlfToLfWithoutCr | src/pages/nowplaying.js:185 | text without a CR passes `/\r\n/g` unchanged |
| NowPlaying.CrRunsToLfWithoutCr | src/pages/nowplaying.js:185 | text without a CR passes `/\r+\n/g` unchanged |
| NowPlaying.CleanUpsAgreeWithoutCr | src/pages/nowplaying.js:185 | the clean-up as written and the corrected one agree on lyrics without a CR |
| NowPlaying.CaptionText | src/pages/nowplaying.js:183-190 | missing or empty lyrics show the not-available text, otherwise the lyrics after the corrected clean-up |
| NowPlaying.CaptionTextAsWritten | src/pages/nowplaying.js:183-190 | missing or empty lyrics show the not-available text, otherwise the lyrics after the clean-up as written |
| NowPlaying.DivUnit | src/pages/nowplaying.js:210 | a position over a positive width is at most 0 left of the bar, at least 1 right of it, and within [0, 1] on it |
| NowPlaying.SeekFraction | src/pages/nowplaying.js:209-210 | the seek fraction is NaN only for a zero-width bar at its left edge, otherwise in [0, 1], and the clamped pointer ratio on a bar of positive width |
| NowPlaying.SeekDuration | src/pages/nowplaying.js:212-222 | the current track's duration, else `parseInt` of the element's: truncated when finite (as the source does for 10^-6 <= d < 10^21), NaN when infinite, 0 when NaN |
| NowPlaying.LiveLeavesFill | src/pages/nowplaying.js:281-303 | the current time is always shown; without a usable duration "Live" shows and the fill is kept; with one, the duration shows and the fill is current over duration times 100 |
| NowPlaying.FormatTimeIsNotLive | src/pages/nowplaying.js:287-294 | no formatted time reads "Live" |
| NowPlaying.SeekingHoldsProgress | src/pages/nowplaying.js:245-247 | time updates during a drag leave the view unchanged |
| NowPlaying.ReleaseSeeksWithinTrack | src/pages/nowplaying.js:218-227 | a release ends the drag, seeks exactly when dragging with a truthy duration, and the target lies within 0.1 and duration + 0.1 |
| NowPlaying.NoTrackUnknownDurationNeverSeeks | src/pages/nowplaying.js:212-222 | with no track and a non-finite element duration a release never seeks |
| NowPlaying.PressReleaseSeeksToPointer | src/pages/nowplaying.js:218-230 | a press then release seeks to duration times the pressed fraction plus 0.1 |
| NowPlaying.PressSetsFraction | src/pages/nowplaying.js:229-230 | a press starts a drag at the pointer's fraction |
| NowPlaying.ReleaseTarget | src/pages/nowplaying.js:225 | the seek target is duration times the fraction plus 0.1 |
| NowPlaying.CaptionFetchesOnce | src/pages/nowplaying.js:173-192 | a toggle flips the panel; lyrics are requested on the first opening only, and two toggles restore the panel with at most one request |
| NowPlaying.StaleLyricsAfterTrackChange | src/pages/nowplaying.js:166-278 | after a track change the page as written asks for and shows the lyrics of the page's original track; the corrected toggle asks for and shows those of the new one |
| NowPlaying.ToggleAgreesOnPageTrack | src/pages/nowplaying.js:173-192 | before any track change the as-written and corrected toggles request the same lyrics and differ at most in the caption text; they agree entirely when the answer has no CR |
| NowPlaying.NowPlayingView.constructor | src/pages/nowplaying.js:18-166 | the opened view for the track |
| NowPlaying.NowPlayingView.UpdateProgress | src/pages/nowplaying.js:281-303 | the ProgressStep view |
| NowPlaying.NowPlayingView.OnTimeUpdate | src/pages/nowplaying.js:245-247 | the TimeUpdateStep view |
| NowPlaying.NowPlayingView.OnTrackChange | src/pages/nowplaying.js:249-279 | the TrackChangeStep view: new track shown, total "Live" or its time, caption reset |
| NowPlaying.NowPlayingView.UpdateSeekUI | src/pages/nowplaying.js:199-216 | the SeekUIStep view with the page's duration rule |
| NowPlaying.NowPlayingView.Press | src/pages/nowplaying.js:229-230 | the PressStep view |
| NowPlaying.NowPlayingView.Move | src/pages/nowplaying.js:231-232 | the MoveStep view |
| NowPlaying.NowPlayingView.ReleasePointer | src/pages/nowplaying.js:218-234 | the ReleaseStep view, and the player sought to the target when there is one, untouched otherwise |
| NowPlaying.NowPlayingView.ToggleCaption | src/pages/nowplaying.js:173-192 | the corrected ToggleCaptionStep view |
| Library.FormatTime | src/pages/library.js:293-298 | a falsy or non-finite time shows nothing |
| Library.FormatTimeAgreesWithNowPlaying | src/pages/library.js:293-298 | for a truthy finite time both pages' formats agree; otherwise the library shows "" where the now-playing page shows 0:00 |
| Library.FormatTimeReadsBack | src/pages/library.js:293-298 | a positive time's text reads back as its whole seconds |
| Library.Kilobytes | src/pages/library.js:303 | `toFixed(0)` of bytes / 1024 is the nearest whole number of kilobytes |
| Library.TenthsOfMegabyte | src/pages/library.js:304 | `toFixed(1)` of the megabytes is the nearest tenth |
| Library.FormatSize | src/pages/library.js:300-305 | 0 is "0 B", below 1024 bytes, then KB below a megabyte, then MB with one decimal |
| Library.SizeShowsNearestUnit | src/pages/library.js:300-305 | the number shown is the size rounded to the nearest whole unit, KB, or tenth of MB |
| Library.JustUnderAMegabyte | src/pages/library.js:303 | 1048575 bytes show as "1024 KB" |
| Library.SongCount | src/pages/library.js:116 | the count followed by " song" or " songs" |
| Library.SongCountPlural | src/pages/library.js:116 | singular exactly for one, and the number in front reads back as the count |
| Library.PlaylistTracks | src/pages/library.js:249 | resolution never gives more tracks than ids |
| Library.PlaylistTracksFromIds | src/pages/library.js:249-255 | every shown track comes from an id; with all ids known none is dropped; the view is empty exactly when no id resolves |
| Library.PlaylistEmptyIff | src/pages/library.js:249-255 | no track resolves exactly when no id is known to the cache or metadata |
| Library.PlayPlaylist | src/pages/library.js:249-252 | the list resolved when the view opened is played from its first track when it is not empty; an empty one changes nothing |
| Library.PlaylistName | src/pages/library.js:130-132 | a playlist is created exactly when the answer is non-blank, with the trimmed name |
| Library.PlaylistNameIsTrimmed | src/pages/library.js:131-132 | the stored name has no white space at its ends and trimming it again changes nothing |

## Left out

- I/O, timers and the DOM. Markup, styles, haptics and the MediaSession are not
  modelled. The pages are reduced to the values they display and the calls they make.
- `_detectNative` is not modelled. Which backend is used is the constructor parameter
  `useNative`. The notification buttons of the native plugin call `next`, `prev` and
  `_onEnded`, which are modelled.
- The store, the download manager, the content search and the native plugin are not
  part of this model. Their answers are parameters (`Env`, `nextId`, `oldQueue`,
  `SearchOutcome`), and the requests made to them are logged.
- Asynchrony:
  - `playTrack` is split into a synchronous start (`BeginPlayStep`) and the part after
    the url resolves (`FinishPlayStep`). Every other operation runs atomically.
  - The lyrics fetch is atomic: the caption text is set in the same step as the request.
  - Listener faults are not isolated in the source and are not modelled.
- The error handler's delayed `next()` (one second later) is not modelled. The handler
  is modelled up to the emitted error event.
- Pointer coordinates: the x offset and bar width are parameters. Reading `clientX`
  from mouse and touch events is left out.
- Library.FormatSize: `toFixed` is rounding half up on exact reals. Binary
  floating-point ties, sizes of 10^21 and more, and fractional byte counts are not
  modelled.
- NowPlaying.FormatTime: floating-point `%` on huge values is exact real arithmetic
  here.
- Home page parts that are not modelled:
  - the chip row (its own default of four genres)
  - the downloads row
  - the parallel section searches and their rendering
  - the artist cards' covers
  - Load-More pagination after the first card
- Artist gating uses an `artist != ""` test for `recentTrack?.artist`. Non-string
  artists do not occur in the model.
- Library page parts that are not modelled: the like and download lists, the playlist
  card's cover, and the download play-all button.
- Strings.LowerChar, Strings.Lower: lower-casing covers ASCII A-Z only. Other capitals
  (É, Ä), the Kelvin sign (which `toLowerCase` turns into `k`) and İ (which becomes two
  characters) are kept as they are, so a title that matches a mood keyword only after
  full Unicode lower-casing is not matched here.
- Version.ComponentValue: `Number` is modelled for white space, the empty text, and
  decimal digits with one optional sign. Exponents (`1e3`), `0x`/`0o`/`0b` prefixes and
  `Infinity` are read as 0 here, where `Number` reads them as numbers. Components above
  2^53 are compared exactly, without floating-point rounding.
- Player.AudioPlayer.SetVolume: the volume is a real number. `setVolume(NaN)` is not
  modelled; in the source, the assignment to `audio.volume` throws before
  `store.setVolume` is called.
- Numbers.ParseInt, NowPlaying.SeekDuration: `parseInt(x)` reads `String(x)`, which is in
  exponent form for 0 < abs(x) < 10^-6 and for abs(x) >= 10^21. There, the source gives the
  sign and first digit (`parseInt(5e-7)` is 5, `parseInt(1e21)` is 1). The model
  truncates toward zero for every finite value. The same holds for the
  `parseInt(Math.round(time * 1000))` of the native seek (src/player.js:241), which the
  model takes as the rounded value: it differs only from 10^21 ms on.
- Playback.SeekStep, Player.AudioPlayer.Seek: a seek made before the element knows its
  duration is kept as the default playback start position. The clamp the element applies
  when the metadata arrives is not a step of its own. The next `timeupdate` reports the
  position the element settled on.
- Home.Initials, and `Strings` generally: JS strings count UTF-16 code units, so `w[0]`
  of a word starting outside the Basic Multilingual Plane (an emoji) is half a surrogate
  pair. Here a `char` is a whole Unicode scalar value, so the initial is the whole
  character.

## Findings

| source | as written | input that shows it | evidently intended | confidence | as-written member | corrected member |
|---|---|---|---|---|---|---|
| src/pages/nowplaying.js:185 | `replace(/\r\n/g, '\n')` removes one CR per line feed, so a line ending `\r\r\n` keeps a CR LF in the shown lyrics | lyrics "a\r\r\nb" are shown as "a\r\nb" | no CR LF is left in the shown lyrics, by replacing every run of CRs before a line feed (`/\r+\n/g`) | not executed; medium | NowPlaying.CrlfSurvivesCleanUp | NowPlaying.CleanLyricsHasNoCrlfOrBlankRuns |
| src/pages/nowplaying.js:166-278 | the caption fetch uses the `track` captured when the page was built, while a trackchange resets `lyricsLoaded` for the new track | open the page on track A; the player changes to B; open the caption: lyrics of A are requested and shown under B | the lyrics of the track being shown are requested | not executed; high | NowPlaying.StaleLyricsAfterTrackChange | NowPlaying.NowPlayingView.ToggleCaption |

Other behaviour that the model keeps as written:

- "1024 KB" is shown just under one megabyte (`Library.JustUnderAMegabyte`).
- The now-playing page's first total uses `formatTime` without the Live rule.
- The playlist card counts ids, while the opened playlist shows only the resolved tracks.
- `playTrack` has no guard against a stale completion (`PlaybackLaws.StaleCompletionWins`).
- `trackchange` is emitted even when the web `play()` later fails.
- `next` at the end of the queue pauses.
- `setVolume` stores the raw, unclamped value.
