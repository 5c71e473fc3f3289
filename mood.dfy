/** The mood classifier of `AudioPlayer._detectMood`: the search query the engine uses to
    continue playback once the queue has run out. */
module Mood {
  import opened Options
  import opened Strings
  import opened Tracks

  /** One row of the ordered keyword table: any keyword selects the query. */
  datatype MoodRow = MoodRow(keywords: seq<string>, query: string)

  /** The table, in its priority order; the first row with a matching keyword wins. */
  const MoodTable: seq<MoodRow> := [
    MoodRow(["sad", "dard", "dil", "tanha", "alvida", "bewafa", "rona", "aansu", "judai", "broken", "heartbreak", "emotional"], "sad emotional hindi songs"),
    MoodRow(["romantic", "love", "pyar", "ishq", "mohabbat", "prem", "valentine", "couple"], "romantic love hindi songs"),
    MoodRow(["party", "dance", "club", "dj", "remix", "bass", "beat", "drop", "edm"], "party dance hindi songs"),
    MoodRow(["lofi", "lo-fi", "chill", "relax", "sleep", "calm", "acoustic", "unplugged", "slowed"], "lofi chill hindi songs"),
    MoodRow(["motivat", "inspire", "workout", "gym", "energy", "power", "pump"], "motivational workout hindi songs"),
    MoodRow(["sufi", "qawwali", "devotion", "bhajan", "spiritual"], "sufi devotional songs"),
    MoodRow(["rap", "hip hop", "hiphop", "rapper", "bars"], "hindi rap hip hop songs"),
    MoodRow(["old", "classic", "90s", "80s", "70s", "retro", "purana"], "old classic bollywood hits"),
    MoodRow(["punjabi", "bhangra", "jatt"], "punjabi latest songs")
  ]

  const NoTrackQuery: string := "hindi songs"
  const TrendingQuery: string := "trending hindi songs 2025"
  const BestSongsSuffix: string := " best songs"

  /** The lower-cased text the keywords are searched in: title, artist and album
      separated by single spaces. */
  function MoodText(t: Track): string {
    Lower(t.title + " " + t.artist + " " + t.album)
  }

  /** `mood.keywords.some(kw => text.includes(kw))`. */
  predicate RowMatches(row: MoodRow, text: string) {
    exists k :: 0 <= k < |row.keywords| && Contains(text, row.keywords[k])
  }

  /** Index of the first row of `rows` that matches `text`. */
  function FirstMatch(rows: seq<MoodRow>, text: string): (r: Option<nat>)
    ensures r.Some? ==> r.value < |rows| && RowMatches(rows[r.value], text)
    ensures r.Some? ==> forall j :: 0 <= j < r.value ==> !RowMatches(rows[j], text)
    ensures r.None? ==> forall j :: 0 <= j < |rows| ==> !RowMatches(rows[j], text)
  {
    if rows == [] then None
    else if RowMatches(rows[0], text) then Some(0)
    else
      match FirstMatch(rows[1..], text)
      case None => None
      case Some(i) => Some(i + 1)
  }

  /** `_detectMood(track)`: no track gives the generic query; otherwise the first
      table row with a keyword in the track's text wins; otherwise the primary artist's
      best songs; otherwise the trending query. */
  function DetectMood(track: Option<Track>): (q: string)
    ensures track.None? ==> q == NoTrackQuery
    ensures track.Some? ==> match FirstMatch(MoodTable, MoodText(track.value))
      case Some(i) => q == MoodTable[i].query
      case None => q == (if track.value.artist != "" then PrimaryArtist(track.value.artist) + BestSongsSuffix else TrendingQuery)
  {
    match track
    case None => NoTrackQuery
    case Some(t) =>
      match FirstMatch(MoodTable, MoodText(t))
      case Some(i) => MoodTable[i].query
      case None => if t.artist != "" then PrimaryArtist(t.artist) + BestSongsSuffix else TrendingQuery
  }

  /** Ties are broken by table order: whenever row `i` matches, the query comes from
      row `i` or from an earlier row, never from a later one. */
  lemma {:induction false} EarlierRowWins(t: Track, i: nat)
    requires i < |MoodTable| && RowMatches(MoodTable[i], MoodText(t))
    ensures exists j :: 0 <= j <= i && DetectMood(Some(t)) == MoodTable[j].query && RowMatches(MoodTable[j], MoodText(t))
  {
    var m := FirstMatch(MoodTable, MoodText(t));
    assert m.Some?;
    assert m.value <= i;
  }

  /** A track none of whose keywords match falls back on its primary artist, or, without
      an artist, on the trending query; the result is never the no-track query. */
  lemma {:induction false} FallbackQuery(t: Track)
    requires forall j :: 0 <= j < |MoodTable| ==> !RowMatches(MoodTable[j], MoodText(t))
    ensures t.artist != "" ==> DetectMood(Some(t)) == PrimaryArtist(t.artist) + BestSongsSuffix
    ensures t.artist == "" ==> DetectMood(Some(t)) == TrendingQuery
    ensures DetectMood(Some(t)) != NoTrackQuery
  {
    var m := FirstMatch(MoodTable, MoodText(t));
    assert m.None?;
    if t.artist != "" {
      var q := PrimaryArtist(t.artist) + BestSongsSuffix;
      assert q[|q| - 11..] == BestSongsSuffix;
      assert NoTrackQuery[0..] != BestSongsSuffix;
    }
  }

  /** Matching ignores case: a keyword found anywhere in the lower-cased title selects
      its row, whatever the case of the title's letters. */
  lemma {:induction false} KeywordMatchIgnoresCase(t: Track, i: nat, k: nat)
    requires i < |MoodTable| && k < |MoodTable[i].keywords|
    requires Contains(Lower(t.title), MoodTable[i].keywords[k])
    ensures RowMatches(MoodTable[i], MoodText(t))
  {
    var kw := MoodTable[i].keywords[k];
    ContainsIff(Lower(t.title), kw);
    var p :| OccursAt(Lower(t.title), kw, p);
    var rest := " " + t.artist + " " + t.album;
    assert t.title + " " + t.artist + " " + t.album == t.title + rest;
    LowerAppend(t.title, rest);
    var text := MoodText(t);
    assert text[p..p + |kw|] == Lower(t.title)[p..p + |kw|];
    assert OccursAt(text, kw, p);
    ContainsIff(text, kw);
  }
}
