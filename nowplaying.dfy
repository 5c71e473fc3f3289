/** The Now Playing page, `src/pages/nowplaying.js`: its time text, the clean-up of
    fetched lyrics, the progress bar's seek gesture and the rule that shows "Live" for a
    track without a usable duration. The page's closure variables (`seeking`, `seekPct`,
    `lyricsLoaded`) and what it shows live in a `NowPlayingView` object whose handlers
    update them in place; each handler follows a step function on `View`. */
module NowPlaying {
  import opened Options
  import opened Strings
  import opened Numbers
  import opened Tracks
  import opened Playback
  import opened Player

  // ───── Time text ─────

  /** `formatTime` of this page: `0:00` for a falsy or non-finite time, `m:ss` otherwise. */
  function FormatTime(seconds: Num): (r: string)
    ensures !Truthy(seconds) || !IsFinite(seconds) ==> r == "0:00"
  {
    if !Truthy(seconds) || !IsFinite(seconds) then "0:00" else ClockText(seconds.v)
  }

  /** Every non-negative finite time is shown as text that reads back as its whole seconds. */
  lemma FormatTimeReadsBack(s: real)
    requires s >= 0.0
    ensures ParseClock(FormatTime(Finite(s))) == Some(s.Floor)
  {
    if s == 0.0 {
      assert Split("0:00", ':') == ["0", "00"] by {
        assert "0:00" == "0" + [':'] + "00";
        SplitAtFirst("0", "00", ':');
      }
      assert "00"[..1] == "0" && "0"[..0] == [];
    } else {
      ClockTextRoundTrip(s);
    }
  }

  // ───── Lyrics ─────

  /** The number of copies of `c` that `s` starts with. */
  function LeadingCount(s: string, c: char): (n: nat)
    ensures n <= |s| && (forall i :: 0 <= i < n ==> s[i] == c) && (n < |s| ==> s[n] != c)
    decreases |s|
  {
    if s != [] && s[0] == c then 1 + LeadingCount(s[1..], c) else 0
  }

  /** No carriage return is directly followed by a line feed. */
  predicate NoCrlf(s: string) {
    forall i :: 0 <= i < |s| - 1 ==> !(s[i] == '\r' && s[i + 1] == '\n')
  }

  /** No three line feeds in a row. */
  predicate NoTripleLf(s: string) {
    forall i :: 0 <= i < |s| - 2 ==> !(s[i] == '\n' && s[i + 1] == '\n' && s[i + 2] == '\n')
  }

  /** `s.replace(/\r\n/g, '\n')`, the first step of the clean-up as written. */
  function CrlfToLf(s: string): string
    decreases |s|
  {
    if |s| >= 2 && s[0] == '\r' && s[1] == '\n' then "\n" + CrlfToLf(s[2..])
    else if s == [] then []
    else [s[0]] + CrlfToLf(s[1..])
  }

  /** `s` starts with a line break: carriage returns (possibly none) and then a line feed. */
  predicate BreakAhead(s: string) {
    var n := LeadingCount(s, '\r');
    n < |s| && s[n] == '\n'
  }

  /** `s.replace(/\r+\n/g, '\n')`: each run of carriage returns ending a line becomes one
      line feed, so no carriage return is left in front of a line feed. */
  function CrRunsToLf(s: string): (r: string)
    ensures s == [] <==> r == []
    ensures s != [] ==> (r[0] == '\n' <==> BreakAhead(s))
    ensures NoCrlf(r)
    decreases |s|
  {
    if s == [] then []
    else if s[0] == '\r' && BreakAhead(s) then "\n" + CrRunsToLf(s[LeadingCount(s, '\r') + 1..])
    else
      var rest := CrRunsToLf(s[1..]);
      assert s[0] == '\r' && rest != [] ==> rest[0] != '\n' by {
        if s[0] == '\r' && rest != [] {
          var n := LeadingCount(s, '\r');
          assert n == 1 + LeadingCount(s[1..], '\r');
          if n < |s| {
            assert s[1..][n - 1] == s[n];
          }
          assert !BreakAhead(s[1..]);
        }
      }
      assert forall i :: 1 <= i < |rest| ==> ([s[0]] + rest)[i + 1] == rest[i];
      [s[0]] + rest
  }

  /** A slice of a string keeps the string's absence of CR LF. */
  lemma NoCrlfSlice(s: string, i: nat, j: nat)
    requires NoCrlf(s) && i <= j <= |s|
    ensures NoCrlf(s[i..j])
  {
    assert forall k :: 0 <= k < j - i ==> s[i..j][k] == s[i + k];
  }

  lemma NoTripleLfSlice(s: string, i: nat, j: nat)
    requires NoTripleLf(s) && i <= j <= |s|
    ensures NoTripleLf(s[i..j])
  {
    assert forall k :: 0 <= k < j - i ==> s[i..j][k] == s[i + k];
  }

  /** `s.replace(/\n{3,}/g, '\n\n')`: every run of three or more line feeds becomes
      exactly two, and shorter runs stay. */
  function CollapseBlankLines(s: string): (r: string)
    ensures s == [] <==> r == []
    ensures s != [] ==> r[0] == s[0]
    ensures NoTripleLf(r)
    ensures NoCrlf(s) ==> NoCrlf(r)
    decreases |s|
  {
    if s == [] then []
    else if s[0] == '\n' then
      var n := LeadingCount(s, '\n');
      var run := if n >= 3 then "\n\n" else s[..n];
      var rest := CollapseBlankLines(s[n..]);
      assert NoCrlf(s) ==> NoCrlf(rest) by {
        if NoCrlf(s) {
          NoCrlfSlice(s, n, |s|);
        }
      }
      assert 1 <= n && |run| <= 2 && forall i :: 0 <= i < |run| ==> run[i] == '\n';
      assert rest != [] ==> rest[0] == s[n];
      RunThenRest(run, rest);
      run + rest
    else
      var rest := CollapseBlankLines(s[1..]);
      assert NoCrlf(s) ==> NoCrlf(rest) by {
        if NoCrlf(s) {
          NoCrlfSlice(s, 1, |s|);
        }
      }
      assert rest != [] ==> rest[0] == s[1];
      CharThenRest(s[0], rest);
      [s[0]] + rest
  }

  /** A run of one or two line feeds before text that does not start with one. */
  lemma RunThenRest(run: string, rest: string)
    requires 0 < |run| <= 2 && forall i :: 0 <= i < |run| ==> run[i] == '\n'
    requires NoTripleLf(rest) && (rest != [] ==> rest[0] != '\n')
    ensures NoTripleLf(run + rest)
    ensures NoCrlf(rest) ==> NoCrlf(run + rest)
  {
    assert forall i :: 0 <= i < |rest| ==> (run + rest)[|run| + i] == rest[i];
  }

  /** One character other than a line feed before collapsed text. */
  lemma CharThenRest(c: char, rest: string)
    requires c != '\n' && NoTripleLf(rest)
    ensures NoTripleLf([c] + rest)
    ensures NoCrlf(rest) && !(c == '\r' && rest != [] && rest[0] == '\n') ==> NoCrlf([c] + rest)
  {
    assert forall i :: 0 <= i < |rest| ==> ([c] + rest)[1 + i] == rest[i];
  }


  /** The text left after trimming keeps the line-break properties of the text trimmed. */
  lemma TrimKeepsNoCrlf(s: string)
    requires NoCrlf(s)
    ensures NoCrlf(Trim(s))
  {
    var r := Trim(s);
    var k :| OccursAt(s, r, k);
    NoCrlfSlice(s, k, k + |r|);
  }

  lemma TrimKeepsNoTripleLf(s: string)
    requires NoTripleLf(s)
    ensures NoTripleLf(Trim(s))
  {
    var r := Trim(s);
    var k :| OccursAt(s, r, k);
    NoTripleLfSlice(s, k, k + |r|);
  }

  /** The lyrics clean-up as written: CR LF to LF, blank runs collapsed, trimmed. */
  function CleanLyricsAsWritten(raw: string): string {
    Trim(CollapseBlankLines(CrlfToLf(raw)))
  }

  lemma CrlfToLfOnDoubledCr()
    ensures CrlfToLf("a\r\r\nb") == "a\r\nb"
  {
    var s := "a\r\r\nb";
    assert s[1..][1..] == "\r\nb" && s[1..][1..][2..] == "b";
    assert CrlfToLf("b") == "b" by {
      assert "b"[1..] == [];
    }
    assert CrlfToLf(s[1..][1..]) == "\nb";
    assert CrlfToLf(s[1..]) == "\r\nb";
  }

  lemma CollapseKeepsSingleBreak()
    ensures CollapseBlankLines("a\r\nb") == "a\r\nb"
  {
    var t := "a\r\nb";
    assert t[1..] == "\r\nb" && t[1..][1..] == "\nb" && t[2..][1..] == "b";
    assert CollapseBlankLines("b") == "b" by {
      assert "b"[1..] == [];
    }
    assert LeadingCount("\nb", '\n') == 1 by {
      assert "\nb"[1..] == "b";
    }
    assert "\nb"[1..] == "b" && "\nb"[..1] == "\n";
    assert CollapseBlankLines("\nb") == "\nb";
  }

  lemma TrimKeepsInnerBreak()
    ensures Trim("a\r\nb") == "a\r\nb"
  {
    var t := "a\r\nb";
    assert !IsSpace(t[0]) && !IsSpace(t[|t| - 1]);
    TrimLeavesUnpadded(t);
  }

  /** A doubled carriage return survives the clean-up as written: after `\r\r\n` loses
      its `\r\n`, the remaining `\r` is followed by the new `\n`. */
  lemma CrlfSurvivesCleanUp()
    ensures Contains(CleanLyricsAsWritten("a\r\r\nb"), "\r\n")
  {
    CleanedDoubledCr();
    CrlfInside("a\r\nb");
  }

  lemma CrlfInside(t: string)
    requires |t| >= 3 && t[1] == '\r' && t[2] == '\n'
    ensures Contains(t, "\r\n")
  {
    assert t[1..][..2] == "\r\n";
    assert IsPrefix("\r\n", t[1..]);
  }

  lemma CleanedDoubledCr()
    ensures CleanLyricsAsWritten("a\r\r\nb") == "a\r\nb"
  {
    CrlfToLfOnDoubledCr();
    CollapseKeepsSingleBreak();
    TrimKeepsInnerBreak();
  }

  /** The clean-up with the line-break step as intended: every run of carriage returns
      before a line feed goes, so the text has no CR LF and no more than one blank line
      in a row, and is trimmed. */
  function CleanLyrics(raw: string): (r: string)
    ensures NoCrlf(r) && NoTripleLf(r)
    ensures r != [] ==> !IsSpace(r[0]) && !IsSpace(r[|r| - 1])
  {
    var c := CollapseBlankLines(CrRunsToLf(raw));
    TrimKeepsNoCrlf(c);
    TrimKeepsNoTripleLf(c);
    Trim(c)
  }

  /** Text without carriage returns passes the as-written line-break step unchanged. */
  lemma {:induction false} CrlfToLfWithoutCr(s: string)
    requires '\r' !in s
    ensures CrlfToLf(s) == s
    decreases |s|
  {
    if s != [] {
      CrlfToLfWithoutCr(s[1..]);
    }
  }

  /** Text without carriage returns passes the intended line-break step unchanged. */
  lemma {:induction false} CrRunsToLfWithoutCr(s: string)
    requires '\r' !in s
    ensures CrRunsToLf(s) == s
    decreases |s|
  {
    if s != [] {
      CrRunsToLfWithoutCr(s[1..]);
    }
  }

  /** The two clean-ups differ only on carriage returns: lyrics without any are cleaned
      alike. */
  lemma CleanUpsAgreeWithoutCr(raw: string)
    requires '\r' !in raw
    ensures CleanLyricsAsWritten(raw) == CleanLyrics(raw)
  {
    CrlfToLfWithoutCr(raw);
    CrRunsToLfWithoutCr(raw);
  }

  /** Text without three line feeds in a row passes the collapse unchanged. */
  lemma {:induction false} CollapseFixpoint(s: string)
    requires NoTripleLf(s)
    ensures CollapseBlankLines(s) == s
    decreases |s|
  {
    if s != [] {
      if s[0] == '\n' {
        var n := LeadingCount(s, '\n');
        assert |s| >= 3 ==> !(s[0] == '\n' && s[1] == '\n' && s[2] == '\n');
        NoTripleLfSlice(s, n, |s|);
        CollapseFixpoint(s[n..]);
        assert s[..n] + s[n..] == s;
      } else {
        NoTripleLfSlice(s, 1, |s|);
        CollapseFixpoint(s[1..]);
        assert [s[0]] + s[1..] == s;
      }
    }
  }

  /** `k` line feeds. */
  function LineFeeds(k: nat): string {
    seq(k, _ => '\n')
  }

  /** A run of `k` line feeds in front of text that does not start with one becomes
      exactly two line feeds when `k >= 3` and stays as it is otherwise. The text after
      it is collapsed on its own. */
  lemma CollapseRun(k: nat, t: string)
    requires 0 < k
    requires t != [] ==> t[0] != '\n'
    ensures CollapseBlankLines(LineFeeds(k) + t)
      == (if k >= 3 then "\n\n" else LineFeeds(k)) + CollapseBlankLines(t)
  {
    var s := LineFeeds(k) + t;
    assert forall i :: 0 <= i < k ==> s[i] == '\n';
    assert k < |s| ==> s[k] == t[0];
    assert LeadingCount(s, '\n') == k;
    assert s[..k] == LineFeeds(k) && s[k..] == t;
  }

  /** Text without CR LF passes the intended line-break step unchanged: each carriage
      return it has is not part of a line break. */
  lemma {:induction false} CrRunsToLfFixpoint(s: string)
    requires NoCrlf(s)
    ensures CrRunsToLf(s) == s
    decreases |s|
  {
    if s != [] {
      var n := LeadingCount(s, '\r');
      assert 1 <= n < |s| ==> s[n - 1] == '\r' && !(s[n - 1] == '\r' && s[n] == '\n');
      NoCrlfSlice(s, 1, |s|);
      CrRunsToLfFixpoint(s[1..]);
      assert [s[0]] + s[1..] == s;
    }
  }

  /** Lyrics that are already clean, with no CR LF, no three line feeds in a row and no
      white space at either end, come out of the clean-up unchanged. The as-written
      clean-up leaves them unchanged too when they have no carriage return at all. */
  lemma CleanLyricsKeepsCleanText(s: string)
    requires NoCrlf(s) && NoTripleLf(s)
    requires s != [] ==> !IsSpace(s[0]) && !IsSpace(s[|s| - 1])
    ensures CleanLyrics(s) == s
    ensures '\r' !in s ==> CleanLyricsAsWritten(s) == s
  {
    CrRunsToLfFixpoint(s);
    CollapseFixpoint(s);
    TrimLeavesUnpadded(s);
    if '\r' !in s {
      CleanUpsAgreeWithoutCr(s);
    }
  }

  /** Cleaning cleaned lyrics again changes nothing. */
  lemma CleanLyricsIdempotent(raw: string)
    ensures CleanLyrics(CleanLyrics(raw)) == CleanLyrics(raw)
  {
    CleanLyricsKeepsCleanText(CleanLyrics(raw));
  }

  lemma NoCrlfExcludesCrlf(r: string)
    requires NoCrlf(r)
    ensures !Contains(r, "\r\n")
  {
    forall i ensures !OccursAt(r, "\r\n", i) {
      if 0 <= i <= |r| - 2 {
        assert r[i..i + 2][0] == r[i] && r[i..i + 2][1] == r[i + 1];
      }
    }
    ContainsIff(r, "\r\n");
  }

  lemma NoTripleLfExcludesBlankRuns(r: string)
    requires NoTripleLf(r)
    ensures !Contains(r, "\n\n\n")
  {
    forall i ensures !OccursAt(r, "\n\n\n", i) {
      if 0 <= i <= |r| - 3 {
        assert r[i..i + 3][0] == r[i] && r[i..i + 3][1] == r[i + 1] && r[i..i + 3][2] == r[i + 2];
      }
    }
    ContainsIff(r, "\n\n\n");
  }

  /** The cleaned lyrics contain neither `\r\n` nor `\n\n\n` (at most one blank line in
      a row). */
  lemma CleanLyricsHasNoCrlfOrBlankRuns(raw: string)
    ensures !Contains(CleanLyrics(raw), "\r\n")
    ensures !Contains(CleanLyrics(raw), "\n\n\n")
  {
    var r := CleanLyrics(raw);
    NoCrlfExcludesCrlf(r);
    NoTripleLfExcludesBlankRuns(r);
  }

  const LyricsNotAvailable: string := "Lyrics not available for this song."

  /** The lyrics request for a track: its title and artist. */
  datatype LyricsRequest = LyricsRequest(title: string, artist: string)

  function RequestFor(t: Track): LyricsRequest {
    LyricsRequest(t.title, t.artist)
  }

  /** What the lyrics service answers: the lyrics it knows for a request (a failed or
      empty answer is `None`). */
  function Answer(catalog: map<LyricsRequest, string>, q: LyricsRequest): Option<string> {
    if q in catalog then Some(catalog[q]) else None
  }

  /** The caption text for an answer: cleaned lyrics, or the notice when there are none. */
  function CaptionText(lyrics: Option<string>): (r: string)
    ensures lyrics.None? || lyrics.value == "" ==> r == LyricsNotAvailable
    ensures lyrics.Some? && lyrics.value != "" ==> r == CleanLyrics(lyrics.value)
  {
    if lyrics.Some? && lyrics.value != "" then CleanLyrics(lyrics.value) else LyricsNotAvailable
  }

  /** The caption text as written: the lyrics go through the clean-up as written. */
  function CaptionTextAsWritten(lyrics: Option<string>): (r: string)
    ensures lyrics.None? || lyrics.value == "" ==> r == LyricsNotAvailable
    ensures lyrics.Some? && lyrics.value != "" ==> r == CleanLyricsAsWritten(lyrics.value)
  {
    if lyrics.Some? && lyrics.value != "" then CleanLyricsAsWritten(lyrics.value) else LyricsNotAvailable
  }

  // ───── Seeking ─────

  /** Where `x / w` lies for a positive width `w`. */
  lemma DivUnit(x: real, w: real)
    ensures w > 0.0 && x <= 0.0 ==> x / w <= 0.0
    ensures w > 0.0 && x >= w ==> x / w >= 1.0
    ensures w > 0.0 && 0.0 <= x <= w ==> 0.0 <= x / w <= 1.0
  {
  }

  /** `Math.max(0, Math.min(1, x / rect.width))` for a pointer `x` pixels right of the
      bar's left edge. */
  function SeekFraction(x: real, width: real): (r: Num)
    ensures r.NaN? <==> x == 0.0 && width == 0.0
    ensures r.Finite? ==> 0.0 <= r.v <= 1.0
    ensures width > 0.0 ==> r == Finite(if x <= 0.0 then 0.0 else if x >= width then 1.0 else x / width)
  {
    DivUnit(x, width);
    ClampUnit(Div(Finite(x), Finite(width)))
  }

  /** The duration the seek gesture uses: the current track's, otherwise the media
      element's through `parseInt(audio.duration || 0)`. */
  function SeekDuration(track: Option<Track>, audioDuration: Num): (d: Num)
    ensures track.Some? ==> d == track.value.duration
    ensures track.None? && audioDuration.Finite? ==> d == Finite(Trunc(audioDuration.v) as real)
    ensures track.None? && (audioDuration.PosInf? || audioDuration.NegInf?) ==> d.NaN?
    ensures track.None? && audioDuration.NaN? ==> d == Finite(0.0)
  {
    if track.Some? then track.value.duration else ParseInt(OrZero(audioDuration))
  }

  // ───── The page's state ─────

  /** What the page holds: the track it was opened for, the track it shows, the seek
      gesture, the time texts and progress fill (`None` before any width was set), the
      lyrics caption (`None` while the loading notice is up) and the lyrics requested. */
  datatype View = View(
    pageTrack: Track,
    shown: Track,
    seeking: bool,
    seekPct: Num,
    currentText: string,
    totalText: string,
    fill: Option<Num>,
    lyricsLoaded: bool,
    captionOpen: bool,
    captionText: Option<string>,
    requests: seq<LyricsRequest>)

  /** The page as first rendered for `track`. */
  function Opened(track: Track): View {
    View(track, track, false, Finite(0.0), "0:00", FormatTime(track.duration), None, false, false, None, [])
  }

  /** A duration the progress bar can use: truthy and finite. */
  predicate UsableDuration(d: Num) {
    Truthy(d) && IsFinite(d)
  }

  /** `(currentTime / duration) * 100`, the width of the progress fill. */
  function Percent(part: Num, whole: Num): Num {
    Times100(Div(part, whole))
  }

  /** `updateProgress(currentTime, duration)`. */
  function ProgressStep(v: View, currentTime: Num, duration: Num): View {
    var v1 := v.(currentText := FormatTime(currentTime));
    if !UsableDuration(duration) then v1.(totalText := "Live")
    else v1.(totalText := FormatTime(duration), fill := Some(Percent(currentTime, duration)))
  }

  /** The `timeupdate` handler: the progress follows playback unless a seek is in progress. */
  function TimeUpdateStep(v: View, currentTime: Num, duration: Num): View {
    if v.seeking then v else ProgressStep(v, currentTime, duration)
  }

  /** The `trackchange` handler: show the new track and close and reset the caption. */
  function TrackChangeStep(v: View, t: Track): View {
    v.(shown := t,
       totalText := if !Truthy(t.duration) then "Live" else FormatTime(t.duration),
       lyricsLoaded := false, captionOpen := false, captionText := None)
  }

  /** `updateSeekUI`: the fraction under the pointer, previewed when the duration is known. */
  function SeekUIStep(v: View, x: real, width: real, duration: Num): View {
    var pct := SeekFraction(x, width);
    var v1 := v.(seekPct := pct);
    if Truthy(duration) then ProgressStep(v1, Mul(pct, duration), duration) else v1
  }

  /** `mousedown` / `touchstart` on the bar. */
  function PressStep(v: View, x: real, width: real, duration: Num): View {
    SeekUIStep(v.(seeking := true), x, width, duration)
  }

  /** `mousemove` / `touchmove` anywhere on the document. */
  function MoveStep(v: View, x: real, width: real, duration: Num): View {
    if v.seeking then SeekUIStep(v, x, width, duration) else v
  }

  /** The outcome of releasing the pointer: the new page state and the time handed to
      `player.seek`, if any. */
  datatype Release = Release(view: View, target: Option<Num>)

  /** `mouseup` / `touchend`: `commitSeek` ends the gesture and seeks to the fraction of
      the duration plus 0.1 s, unless the duration is falsy. */
  function ReleaseStep(v: View, duration: Num): Release {
    if !v.seeking then Release(v, None)
    else
      var v1 := v.(seeking := false);
      if !Truthy(duration) then Release(v1, None)
      else Release(v1, Some(Add(Mul(duration, v.seekPct), Finite(0.1))))
  }

  /** The caption toggle as written: opening it the first time after the page opened or
      the track changed requests the lyrics of the track the page was opened for. */
  function ToggleCaptionAsWritten(v: View, catalog: map<LyricsRequest, string>): View {
    var wasOpen := v.captionOpen;
    var v1 := v.(captionOpen := !wasOpen);
    if !wasOpen && !v.lyricsLoaded then
      var q := RequestFor(v.pageTrack);
      v1.(lyricsLoaded := true, requests := v.requests + [q], captionText := Some(CaptionTextAsWritten(Answer(catalog, q))))
    else v1
  }

  /** The caption toggle as intended: the lyrics requested are those of the track shown. */
  function ToggleCaptionStep(v: View, catalog: map<LyricsRequest, string>): View {
    var wasOpen := v.captionOpen;
    var v1 := v.(captionOpen := !wasOpen);
    if !wasOpen && !v.lyricsLoaded then
      var q := RequestFor(v.shown);
      v1.(lyricsLoaded := true, requests := v.requests + [q], captionText := Some(CaptionText(Answer(catalog, q))))
    else v1
  }

  // ───── Laws of the page ─────

  /** A duration that is missing, zero or not finite shows "Live" and leaves the progress
      fill as it was; a usable one shows its time and sets the fill to the percentage played. */
  lemma LiveLeavesFill(v: View, currentTime: Num, duration: Num)
    ensures var w := ProgressStep(v, currentTime, duration);
      && w.currentText == FormatTime(currentTime)
      && (!UsableDuration(duration) ==> w.totalText == "Live" && w.fill == v.fill)
      && (UsableDuration(duration) && currentTime.Finite? ==>
            w.totalText != "Live" && w.fill == Some(Finite(currentTime.v / duration.v * 100.0)))
  {
    FormatTimeIsNotLive(duration);
    var w := ProgressStep(v, currentTime, duration);
    if UsableDuration(duration) {
      assert w.fill == Some(Percent(currentTime, duration));
      if currentTime.Finite? {
        assert Div(currentTime, duration) == Finite(currentTime.v / duration.v);
      }
    } else {
      assert w == v.(currentText := FormatTime(currentTime), totalText := "Live");
    }
  }

  /** No time text reads "Live": every one has a colon. */
  lemma FormatTimeIsNotLive(x: Num)
    ensures FormatTime(x) != "Live"
  {
    if UsableDuration(x) {
      var m := IntToString(Minutes(x.v));
      var t := m + ":" + PadStart2(IntToString(Seconds(x.v)));
      assert t[|m|] == ':';
      assert ':' !in "Live";
    }
  }

  /** While the pointer is down, playback time does not move the progress bar. */
  lemma SeekingHoldsProgress(v: View, currentTime: Num, duration: Num)
    requires v.seeking
    ensures TimeUpdateStep(v, currentTime, duration) == v
  {
  }

  /** A release seeks only after a press and only with a truthy duration; for a positive
      duration and a fraction under the pointer, the target lies within the track, shifted
      by a tenth of a second. */
  lemma ReleaseSeeksWithinTrack(v: View, duration: Num)
    ensures var r := ReleaseStep(v, duration);
      && !r.view.seeking
      && (r.target.Some? <==> v.seeking && Truthy(duration))
      && (r.target.Some? && duration.Finite? && duration.v > 0.0 && v.seekPct.Finite? && 0.0 <= v.seekPct.v <= 1.0 ==>
            r.target.value.Finite? && 0.1 <= r.target.value.v <= duration.v + 0.1)
  {
    if v.seeking && duration.Finite? && duration.v > 0.0 && v.seekPct.Finite? && 0.0 <= v.seekPct.v <= 1.0 {
      MulWithin(duration, v.seekPct);
      var t := Mul(duration, v.seekPct).v;
      assert 0.0 <= t <= duration.v;
      assert ReleaseStep(v, duration).target == Some(Finite(t + 0.1));
    }
  }

  /** Without a current track a live stream (infinite element duration) or an element
      that has not loaded (`NaN`) never seeks. */
  lemma NoTrackUnknownDurationNeverSeeks(v: View, audioDuration: Num)
    requires !audioDuration.Finite?
    ensures ReleaseStep(v, SeekDuration(None, audioDuration)).target.None?
  {
  }

  /** Press, release: the seek goes to the duration times the fraction of the bar under
      the pointer at the press, plus a tenth of a second. */
  lemma PressReleaseSeeksToPointer(v: View, x: real, width: real, duration: Num)
    requires Truthy(duration)
    ensures ReleaseStep(PressStep(v, x, width, duration), duration).target ==
      Some(Add(Mul(duration, SeekFraction(x, width)), Finite(0.1)))
  {
    PressSetsFraction(v, x, width, duration);
    ReleaseTarget(PressStep(v, x, width, duration), duration);
  }

  /** Pressing starts a gesture at the fraction under the pointer, whatever the preview. */
  lemma PressSetsFraction(v: View, x: real, width: real, duration: Num)
    ensures PressStep(v, x, width, duration).seeking
    ensures PressStep(v, x, width, duration).seekPct == SeekFraction(x, width)
  {
    var v1 := v.(seeking := true, seekPct := SeekFraction(x, width));
    if Truthy(duration) {
      var w := ProgressStep(v1, Mul(SeekFraction(x, width), duration), duration);
      assert w.seeking == v1.seeking && w.seekPct == v1.seekPct;
    }
  }

  lemma ReleaseTarget(v: View, duration: Num)
    requires v.seeking && Truthy(duration)
    ensures ReleaseStep(v, duration).target == Some(Add(Mul(duration, v.seekPct), Finite(0.1)))
  {
  }

  /** The caption fetches lyrics once per track: once loaded, toggling never requests again
      until the track changes, and two toggles leave the caption as it was. */
  lemma CaptionFetchesOnce(v: View, catalog: map<LyricsRequest, string>)
    ensures var w := ToggleCaptionStep(v, catalog);
      && w.captionOpen == !v.captionOpen
      && w.lyricsLoaded == (v.lyricsLoaded || !v.captionOpen)
      && (v.lyricsLoaded ==> w.requests == v.requests && w.captionText == v.captionText)
      && (!v.lyricsLoaded && !v.captionOpen ==> w.requests == v.requests + [RequestFor(v.shown)])
    ensures var w := ToggleCaptionStep(ToggleCaptionStep(v, catalog), catalog);
      w.captionOpen == v.captionOpen
      && |w.requests| <= |v.requests| + 1
  {
  }

  /** After a change to a track with another title or artist, the caption as written
      still requests (and shows) the lyrics of the track the page was opened for, while
      the intended caption requests those of the track shown. */
  lemma StaleLyricsAfterTrackChange(t0: Track, t: Track, catalog: map<LyricsRequest, string>)
    requires RequestFor(t) != RequestFor(t0)
    ensures var v := TrackChangeStep(Opened(t0), t);
      && ToggleCaptionAsWritten(v, catalog).requests == [RequestFor(t0)]
      && ToggleCaptionAsWritten(v, catalog).captionText == Some(CaptionTextAsWritten(Answer(catalog, RequestFor(t0))))
      && ToggleCaptionStep(v, catalog).requests == [RequestFor(t)]
      && ToggleCaptionStep(v, catalog).captionText == Some(CaptionText(Answer(catalog, RequestFor(t))))
  {
  }

  /** For the track the page was opened for, both toggles request the same lyrics and
      differ at most in how they clean them up; lyrics without carriage returns make them
      agree entirely. */
  lemma ToggleAgreesOnPageTrack(v: View, catalog: map<LyricsRequest, string>)
    requires v.shown == v.pageTrack
    ensures var w := ToggleCaptionAsWritten(v, catalog);
      w == ToggleCaptionStep(v, catalog).(captionText := w.captionText)
    ensures var a := Answer(catalog, RequestFor(v.shown));
      a.None? || '\r' !in a.value ==> ToggleCaptionAsWritten(v, catalog) == ToggleCaptionStep(v, catalog)
  {
    var a := Answer(catalog, RequestFor(v.shown));
    if a.Some? && '\r' !in a.value {
      CleanUpsAgreeWithoutCr(a.value);
    }
  }

  // ───── The page object ─────

  /** The Now Playing page's state, updated in place by its event handlers. */
  class NowPlayingView {
    const pageTrack: Track
    var shown: Track
    var seeking: bool
    var seekPct: Num
    var currentText: string
    var totalText: string
    var fill: Option<Num>
    var lyricsLoaded: bool
    var captionOpen: bool
    var captionText: Option<string>
    var requests: seq<LyricsRequest>

    function State(): View
      reads this
    {
      View(pageTrack, shown, seeking, seekPct, currentText, totalText, fill,
           lyricsLoaded, captionOpen, captionText, requests)
    }

    constructor(track: Track)
      ensures State() == Opened(track)
    {
      pageTrack := track;
      shown := track;
      seeking := false;
      seekPct := Finite(0.0);
      currentText := "0:00";
      totalText := FormatTime(track.duration);
      fill := None;
      lyricsLoaded := false;
      captionOpen := false;
      captionText := None;
      requests := [];
    }

    method UpdateProgress(currentTime: Num, duration: Num)
      modifies this
      ensures State() == ProgressStep(old(State()), currentTime, duration)
    {
      currentText := FormatTime(currentTime);
      if !Truthy(duration) || !IsFinite(duration) {
        if totalText != "Live" {
          totalText := "Live";
        }
        return;
      }
      var formatted := FormatTime(duration);
      if totalText != formatted {
        totalText := formatted;
      }
      fill := Some(Percent(currentTime, duration));
    }

    method OnTimeUpdate(currentTime: Num, duration: Num)
      modifies this
      ensures State() == TimeUpdateStep(old(State()), currentTime, duration)
    {
      if !seeking {
        UpdateProgress(currentTime, duration);
      }
    }

    method OnTrackChange(t: Track)
      modifies this
      ensures State() == TrackChangeStep(old(State()), t)
    {
      shown := t;
      if !Truthy(t.duration) {
        totalText := "Live";
      } else {
        totalText := FormatTime(t.duration);
      }
      lyricsLoaded := false;
      captionOpen := false;
      captionText := None;
    }

    method UpdateSeekUI(x: real, width: real, player: AudioPlayer)
      modifies this
      ensures State() == SeekUIStep(old(State()), x, width, SeekDuration(player.currentTrack, player.audioDuration))
    {
      seekPct := SeekFraction(x, width);
      var duration := if player.currentTrack.Some? then player.currentTrack.value.duration
                      else ParseInt(OrZero(player.audioDuration));
      if !Truthy(duration) {
        return;
      }
      UpdateProgress(Mul(seekPct, duration), duration);
    }

    method Press(x: real, width: real, player: AudioPlayer)
      modifies this
      ensures State() == PressStep(old(State()), x, width, SeekDuration(player.currentTrack, player.audioDuration))
    {
      seeking := true;
      UpdateSeekUI(x, width, player);
    }

    method Move(x: real, width: real, player: AudioPlayer)
      modifies this
      ensures State() == MoveStep(old(State()), x, width, SeekDuration(player.currentTrack, player.audioDuration))
    {
      if seeking {
        UpdateSeekUI(x, width, player);
      }
    }

    /** `commitSeek`, reached from `mouseup` / `touchend`: the player seeks to the target. */
    method ReleasePointer(player: AudioPlayer)
      requires player.Valid()
      modifies this, player
      ensures var r := ReleaseStep(old(State()), SeekDuration(old(player.currentTrack), old(player.audioDuration)));
        && State() == r.view
        && (r.target.Some? ==> player.State() == SeekStep(old(player.State()), r.target.value))
        && (r.target.None? ==> player.State() == old(player.State()))
      ensures player.Valid()
    {
      if !seeking {
        return;
      }
      seeking := false;
      var duration := if player.currentTrack.Some? then player.currentTrack.value.duration
                      else ParseInt(OrZero(player.audioDuration));
      if !Truthy(duration) {
        return;
      }
      var target := Add(Mul(duration, seekPct), Finite(0.1));
      player.Seek(target);
    }

    /** The caption toggle; `catalog` stands for the lyrics service. */
    method ToggleCaption(catalog: map<LyricsRequest, string>)
      modifies this
      ensures State() == ToggleCaptionStep(old(State()), catalog)
    {
      var wasOpen := captionOpen;
      captionOpen := !wasOpen;
      if !wasOpen && !lyricsLoaded {
        lyricsLoaded := true;
        var q := RequestFor(shown);
        requests := requests + [q];
        var lyrics := if q in catalog then Some(catalog[q]) else None;
        if lyrics.Some? && lyrics.value != "" {
          captionText := Some(CleanLyrics(lyrics.value));
        } else {
          captionText := Some(LyricsNotAvailable);
        }
      }
    }
  }
}
