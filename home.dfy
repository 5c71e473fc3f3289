/** The computations of the home page, `src/pages/home.js`: the greeting, the genre chip
    query, the plan of personalised sections, the recently-played row, the gating of
    the Load-More card and the artist initials. The track lookup the page borrows from
    the player is `Lookup` over the engine's cache and the persisted metadata. */
module Home {
  import opened Options
  import opened Strings
  import opened Tracks

  // ───── Greeting ─────

  /** The greeting for the local hour of the day. */
  function Greeting(hour: int): (g: string)
    ensures hour < 12 ==> g == "Good morning"
    ensures 12 <= hour < 17 ==> g == "Good afternoon"
    ensures hour >= 17 ==> g == "Good evening"
  {
    if hour < 12 then "Good morning" else if hour < 17 then "Good afternoon" else "Good evening"
  }

  /** The position of a greeting in the course of the day. */
  function GreetingRank(g: string): nat {
    if g == "Good morning" then 0 else if g == "Good afternoon" then 1 else 2
  }

  /** Over a day the greetings only move forward: morning, afternoon, evening. */
  lemma GreetingFollowsTheDay(h1: int, h2: int)
    requires h1 <= h2
    ensures GreetingRank(Greeting(h1)) <= GreetingRank(Greeting(h2))
  {
  }

  // ───── Genre chips ─────

  /** The search query of each genre chip. */
  const GenreQueries: map<string, string> := map[
    "pop" := "latest pop hits",
    "hiphop" := "hip hop trending",
    "rock" := "rock hits",
    "lofi" := "lofi chill beats",
    "electronic" := "electronic dance",
    "rnb" := "r&b soul",
    "jazz" := "jazz classics",
    "classical" := "classical music",
    "indie" := "indie music",
    "kpop" := "kpop trending",
    "bollywood" := "bollywood latest songs",
    "ambient" := "ambient relax"
  ]

  /** `genreQueries[id] || id`: a genre without a mapped query searches for its own id. */
  function GenreQuery(id: string): (q: string)
    ensures id in GenreQueries ==> q == GenreQueries[id]
    ensures id !in GenreQueries ==> q == id
    ensures id != "" ==> q != ""
  {
    if id in GenreQueries then GenreQueries[id] else id
  }

  // ───── Personalised sections ─────

  /** A planned section: its heading and the search query that fills it. */
  datatype Section = Section(title: string, query: string)

  /** The two sections each interest contributes, in order. */
  const InterestQueries: map<string, seq<Section>> := map[
    "pop" := [Section("Pop Hits \U{1F3B5}", "latest pop songs new 2025"),
              Section("International Pop", "top english pop songs trending")],
    "hiphop" := [Section("Hip Hop Fire \U{1F525}", "hindi rap songs trending 2025"),
                 Section("Underground Beats", "indian hip hop rapper tracks")],
    "rock" := [Section("Rock Anthems \U{1F3B8}", "rock songs hindi best"),
               Section("Alt Rock Picks", "alternative rock band songs")],
    "lofi" := [Section("Lo-Fi Chill \U{1F319}", "lofi hindi chill beats study"),
               Section("Late Night Vibes", "slowed reverb songs hindi aesthetic")],
    "electronic" := [Section("EDM Drops \U{26A1}", "edm electronic dance songs"),
                     Section("Bass & Beats", "electronic bass music remix")],
    "rnb" := [Section("R&B Smooth \U{1F3A4}", "rnb soul music smooth"),
              Section("Soulful Vibes", "soul music relaxing")],
    "jazz" := [Section("Jazz Sessions \U{1F3B7}", "jazz songs instrumental smooth"),
               Section("Jazz Classics", "jazz classic legends vocals")],
    "classical" := [Section("Classical Ragas \U{1F3BB}", "indian classical music raga"),
                    Section("Timeless Melodies", "classical instrumental piano soothing")],
    "indie" := [Section("Indie Picks \U{1F33F}", "indie music hindi artist"),
                Section("Fresh Indie", "independent artist songs new")],
    "kpop" := [Section("K-Pop Faves \U{1F49C}", "kpop trending songs BTS"),
               Section("K-Pop New Releases", "kpop latest songs 2025")],
    "bollywood" := [Section("Bollywood Hits \U{1F3AC}", "bollywood songs latest trending 2025"),
                    Section("Filmi Favorites", "best bollywood movie songs romantic")],
    "ambient" := [Section("Ambient Escape \U{1F9D8}", "ambient meditation music calm"),
                  Section("Nature & Peace", "relaxing music nature sounds sleep")]
  ]

  const DefaultInterests: seq<string> := ["bollywood", "pop", "lofi"]

  /** The interests the plan is built from: the user's, or the defaults when there are none. */
  function UserInterests(interests: seq<string>): (r: seq<string>)
    ensures interests != [] ==> r == interests
    ensures interests == [] ==> r == DefaultInterests
  {
    if |interests| > 0 then interests else DefaultInterests
  }

  /** `interestQueries[interest] || []`. */
  function QueriesFor(interest: string): (r: seq<Section>)
    ensures interest in InterestQueries ==> r == InterestQueries[interest]
    ensures interest !in InterestQueries ==> r == []
  {
    if interest in InterestQueries then InterestQueries[interest] else []
  }

  /** The sections of the interests, interest after interest. */
  function BaseSections(interests: seq<string>): seq<Section>
    decreases |interests|
  {
    if interests == [] then []
    else BaseSections(interests[..|interests| - 1]) + QueriesFor(interests[|interests| - 1])
  }

  /** Interests contribute independently: the sections of a concatenation are the
      concatenation of the sections. */
  lemma {:induction false} BaseSectionsAppend(a: seq<string>, b: seq<string>)
    ensures BaseSections(a + b) == BaseSections(a) + BaseSections(b)
    decreases |b|
  {
    if b == [] {
      assert a + b == a;
    } else {
      var b0 := b[..|b| - 1];
      assert (a + b)[..|a + b| - 1] == a + b0;
      assert (a + b)[|a + b| - 1] == b[|b| - 1];
      BaseSectionsAppend(a, b0);
    }
  }

  /** The number of interests that have sections. */
  function KnownCount(interests: seq<string>): nat
    decreases |interests|
  {
    if interests == [] then 0
    else KnownCount(interests[..|interests| - 1]) + (if interests[|interests| - 1] in InterestQueries then 1 else 0)
  }

  /** Every known interest contributes exactly two sections, an unknown one none. */
  lemma {:induction false} BaseSectionsCount(interests: seq<string>)
    ensures |BaseSections(interests)| == 2 * KnownCount(interests)
    decreases |interests|
  {
    if interests != [] {
      BaseSectionsCount(interests[..|interests| - 1]);
    }
  }

  /** Without interests the plan starts from Bollywood, Pop and Lo-Fi, two sections each. */
  lemma DefaultBaseSections()
    ensures BaseSections(UserInterests([])) ==
      InterestQueries["bollywood"] + InterestQueries["pop"] + InterestQueries["lofi"]
  {
    assert DefaultInterests[..2] == ["bollywood", "pop"];
    assert DefaultInterests[..2][..1] == ["bollywood"];
    assert ["bollywood"][..0] == [];
  }

  /** The section inserted for a recently played artist. */
  function ArtistSection(name: string): Section {
    Section("Because you listened to " + name, name + " best songs more")
  }

  /** The artists picked from recently played tracks, in the order they were picked, and
      the lower-cased names seen so far. */
  datatype Picks = Picks(names: seq<string>, seen: set<string>)

  /** The primary artist of the track an id resolves to, when it has a non-empty artist field. */
  function ArtistOf(id: TrackId, cache: map<TrackId, Track>, metadata: map<TrackId, Track>): (r: Option<string>)
    ensures r.Some? <==> exists t :: Lookup(cache, metadata, id) == Some(t) && t.artist != ""
    ensures r.Some? ==> r.value == PrimaryArtist(Lookup(cache, metadata, id).value.artist)
  {
    match Lookup(cache, metadata, id)
    case Some(t) => if t.artist != "" then Some(PrimaryArtist(t.artist)) else None
    case None => None
  }

  /** The artist of each scanned id, in order. */
  function ArtistsOf(ids: seq<TrackId>, cache: map<TrackId, Track>, metadata: map<TrackId, Track>): (r: seq<Option<string>>)
    ensures |r| == |ids| && forall i :: 0 <= i < |ids| ==> r[i] == ArtistOf(ids[i], cache, metadata)
  {
    seq(|ids|, i requires 0 <= i < |ids| => ArtistOf(ids[i], cache, metadata))
  }

  /** Whether the scan picks artist `a` after having picked `p`: its lower-cased name is
      new and fewer than two have been picked. */
  predicate Picks2(p: Picks, a: Option<string>) {
    a.Some? && Lower(a.value) !in p.seen && |p.seen| < 2
  }

  /** One step of the scan. */
  function PickStep(p: Picks, a: Option<string>): Picks {
    if Picks2(p, a) then Picks(p.names + [a.value], p.seen + {Lower(a.value)}) else p
  }

  /** The artists picked from a run of scanned artists, in order. */
  function Pick(artists: seq<Option<string>>): Picks
    decreases |artists|
  {
    if artists == [] then Picks([], {})
    else PickStep(Pick(artists[..|artists| - 1]), artists[|artists| - 1])
  }

  /** The artists picked from the ids scanned, in order. */
  function ArtistPicks(ids: seq<TrackId>, cache: map<TrackId, Track>, metadata: map<TrackId, Track>): Picks {
    Pick(ArtistsOf(ids, cache, metadata))
  }

  /** The picks are at most two, their lower-cased names are pairwise different and are
      exactly the names seen. */
  ghost predicate PicksWellFormed(p: Picks) {
    && |p.names| == |p.seen| <= 2
    && (forall i, j :: 0 <= i < j < |p.names| ==> Lower(p.names[i]) != Lower(p.names[j]))
    && (forall k :: k in p.seen <==> exists i :: 0 <= i < |p.names| && Lower(p.names[i]) == k)
  }

  lemma PickStepWellFormed(p: Picks, a: Option<string>)
    requires PicksWellFormed(p)
    ensures PicksWellFormed(PickStep(p, a))
  {
    if Picks2(p, a) {
      assert |p.seen + {Lower(a.value)}| == |p.seen| + 1;
      AppendKeepsDistinct(p, a.value);
      AppendKeepsSeen(p, a.value);
    }
  }

  lemma AppendKeepsDistinct(p: Picks, name: string)
    requires PicksWellFormed(p) && Lower(name) !in p.seen
    ensures var names := p.names + [name];
      forall i, j :: 0 <= i < j < |names| ==> Lower(names[i]) != Lower(names[j])
  {
    var names := p.names + [name];
    forall i, j | 0 <= i < j < |names| ensures Lower(names[i]) != Lower(names[j]) {
      assert names[i] == p.names[i];
      assert Lower(p.names[i]) in p.seen;
    }
  }

  lemma AppendKeepsSeen(p: Picks, name: string)
    requires PicksWellFormed(p)
    ensures var names := p.names + [name];
      forall k :: k in p.seen + {Lower(name)} <==> exists i :: 0 <= i < |names| && Lower(names[i]) == k
  {
    var names := p.names + [name];
    forall k ensures k in p.seen + {Lower(name)} <==> exists i :: 0 <= i < |names| && Lower(names[i]) == k {
      if k in p.seen {
        var i :| 0 <= i < |p.names| && Lower(p.names[i]) == k;
        assert names[i] == p.names[i];
      }
      if i :| 0 <= i < |names| && Lower(names[i]) == k {
        if i < |p.names| {
          assert names[i] == p.names[i];
        }
      }
      if k == Lower(name) {
        assert Lower(names[|p.names|]) == k;
      }
    }
  }

  lemma {:induction false} PickWellFormed(artists: seq<Option<string>>)
    ensures PicksWellFormed(Pick(artists))
    decreases |artists|
  {
    if artists != [] {
      PickWellFormed(artists[..|artists| - 1]);
      PickStepWellFormed(Pick(artists[..|artists| - 1]), artists[|artists| - 1]);
    }
  }

  /** Every picked name is one of the scanned artists. */
  lemma {:induction false} PickFromArtists(artists: seq<Option<string>>, i: nat)
    requires i < |Pick(artists).names|
    ensures exists k :: 0 <= k < |artists| && artists[k] == Some(Pick(artists).names[i])
    decreases |artists|
  {
    var last := |artists| - 1;
    var prev := Pick(artists[..last]);
    if i < |prev.names| {
      PickFromArtists(artists[..last], i);
      var k :| 0 <= k < last && artists[..last][k] == Some(prev.names[i]);
      assert artists[k] == artists[..last][k];
    } else {
      assert artists[last] == Some(Pick(artists).names[i]);
    }
  }

  /** Every picked artist is the primary artist of a track some scanned id resolves to. */
  lemma ArtistPicksFromIds(ids: seq<TrackId>, cache: map<TrackId, Track>, metadata: map<TrackId, Track>, i: nat)
    requires i < |ArtistPicks(ids, cache, metadata).names|
    ensures exists k :: (0 <= k < |ids| && Lookup(cache, metadata, ids[k]).Some?
      && (var t := Lookup(cache, metadata, ids[k]).value;
          t.artist != "" && ArtistPicks(ids, cache, metadata).names[i] == PrimaryArtist(t.artist)))
  {
    var artists := ArtistsOf(ids, cache, metadata);
    PickFromArtists(artists, i);
    var k :| 0 <= k < |artists| && artists[k] == Some(Pick(artists).names[i]);
    assert ArtistOf(ids[k], cache, metadata).Some?;
  }

  /** The sections of the picked artists. */
  function ArtistSections(names: seq<string>): (r: seq<Section>)
    ensures |r| == |names| && forall i :: 0 <= i < |names| ==> r[i] == ArtistSection(names[i])
  {
    seq(|names|, i requires 0 <= i < |names| => ArtistSection(names[i]))
  }

  /** Where the artist sections end up: after the first three interest sections (after
      all of them when there are fewer), in the order the artists were picked. */
  function Layout(base: seq<Section>, artists: seq<Section>): (r: seq<Section>)
    ensures |r| == |base| + |artists|
  {
    var c := if |base| < 3 then |base| else 3;
    base[..c] + artists + base[c..]
  }

  /** The personalised plan: interest sections with the artist sections of the first ten
      recently played ids laid in, at most eight sections in all. */
  function PlannedSections(interests: seq<string>, recent: seq<TrackId>, cache: map<TrackId, Track>, metadata: map<TrackId, Track>): (r: seq<Section>)
    ensures |r| <= 8
  {
    var base := BaseSections(UserInterests(interests));
    var picks := ArtistPicks(Take(recent, 10), cache, metadata);
    Take(Layout(base, ArtistSections(picks.names)), 8)
  }

  /** `sections.splice(i, 0, x)`: an index past the end appends. */
  function Insert(xs: seq<Section>, i: nat, x: Section): (r: seq<Section>)
    ensures |r| == |xs| + 1
  {
    if i >= |xs| then xs + [x] else xs[..i] + [x] + xs[i..]
  }

  /** Inserting the next artist section at `2 + size` of the seen set, the set already
      holding the new artist, puts it right after the artist sections before it. */
  lemma InsertExtendsLayout(base: seq<Section>, artists: seq<Section>, a: Section)
    requires |artists| <= 1
    ensures Insert(Layout(base, artists), 2 + |artists| + 1, a) == Layout(base, artists + [a])
  {
    if |base| >= 3 {
      var l := Layout(base, artists);
      assert l[..3 + |artists|] == base[..3] + artists;
      assert l[3 + |artists|..] == base[3..];
    }
  }

  /** One scanned artist changes the sections as the page's splice does. */
  lemma LayoutStep(base: seq<Section>, p: Picks, a: Option<string>)
    requires PicksWellFormed(p)
    ensures Picks2(p, a) ==>
      Layout(base, ArtistSections(PickStep(p, a).names)) ==
        Insert(Layout(base, ArtistSections(p.names)), 2 + |p.seen| + 1, ArtistSection(a.value))
  {
    if Picks2(p, a) {
      assert ArtistSections(p.names + [a.value]) == ArtistSections(p.names) + [ArtistSection(a.value)];
      InsertExtendsLayout(base, ArtistSections(p.names), ArtistSection(a.value));
    }
  }

  /** The interest part of the plan: the sections of each interest pushed in turn. */
  method InterestSections(user: seq<string>) returns (sections: seq<Section>)
    ensures sections == BaseSections(user)
  {
    sections := [];
    var i := 0;
    while i < |user|
      invariant 0 <= i <= |user|
      invariant sections == BaseSections(user[..i])
    {
      var qs := QueriesFor(user[i]);
      var j := 0;
      while j < |qs|
        invariant 0 <= j <= |qs|
        invariant sections == BaseSections(user[..i]) + qs[..j]
      {
        sections := sections + [qs[j]];
        j := j + 1;
      }
      assert user[..i + 1][..i] == user[..i];
      i := i + 1;
    }
    assert user[..i] == user;
  }

  /** One more scanned artist: either it is picked, one more name is seen and its section
      goes in after those already laid in, or nothing changes. */
  lemma ScanAdvance(base: seq<Section>, artists: seq<Option<string>>, k: nat)
    requires k < |artists|
    ensures var prev := Pick(artists[..k]); var next := Pick(artists[..k + 1]);
      && (Picks2(prev, artists[k]) ==>
        && next.seen == prev.seen + {Lower(artists[k].value)}
        && |next.seen| == |prev.seen| + 1
        && Layout(base, ArtistSections(next.names)) ==
             Insert(Layout(base, ArtistSections(prev.names)), 2 + |next.seen|, ArtistSection(artists[k].value)))
      && (!Picks2(prev, artists[k]) ==> next == prev)
  {
    var prev := Pick(artists[..k]);
    assert artists[..k + 1][..k] == artists[..k];
    assert Pick(artists[..k + 1]) == PickStep(prev, artists[k]);
    PickWellFormed(artists[..k]);
    LayoutStep(base, prev, artists[k]);
  }

  /** The plan of the "For You" page as the page builds it: push the sections of each
      interest, splice in an artist section for each new artist among the first ten
      recently played ids (two at most), keep the first eight. */
  method PlanSections(interests: seq<string>, recent: seq<TrackId>, cache: map<TrackId, Track>, metadata: map<TrackId, Track>)
    returns (sections: seq<Section>)
    ensures sections == PlannedSections(interests, recent, cache, metadata)
  {
    var base := InterestSections(UserInterests(interests));
    sections := LayInArtists(base, Take(recent, 10), cache, metadata);
  }

  /** The scan of the recently played ids: each new primary artist, up to two, gets its
      section laid in after those already there; the plan is then cut to eight. */
  method LayInArtists(base: seq<Section>, ids: seq<TrackId>, cache: map<TrackId, Track>, metadata: map<TrackId, Track>)
    returns (sections: seq<Section>)
    ensures sections == Take(Layout(base, ArtistSections(ArtistPicks(ids, cache, metadata).names)), 8)
  {
    sections := base;
    ghost var artists := ArtistsOf(ids, cache, metadata);
    var seen: set<string> := {};
    var k := 0;
    while k < |ids|
      invariant 0 <= k <= |ids|
      invariant seen == Pick(artists[..k]).seen
      invariant sections == Layout(base, ArtistSections(Pick(artists[..k]).names))
    {
      ghost var prev := Pick(artists[..k]);
      ScanAdvance(base, artists, k);
      var t := Lookup(cache, metadata, ids[k]);
      var artist: Option<string> := None;
      if t.Some? && t.value.artist != "" {
        artist := Some(PrimaryArtist(t.value.artist));
      }
      assert artist == artists[k];
      if artist.Some? && Lower(artist.value) !in seen && |seen| < 2 {
        assert Picks2(prev, artist);
        seen := seen + {Lower(artist.value)};
        sections := Insert(sections, 2 + |seen|, ArtistSection(artist.value));
      } else {
        assert !Picks2(prev, artist);
      }
      k := k + 1;
    }
    assert artists[..k] == artists;
    sections := Take(sections, 8);
  }

  /** With no recently played tracks the plan is the first eight interest sections. */
  lemma PlanWithoutHistory(interests: seq<string>, cache: map<TrackId, Track>, metadata: map<TrackId, Track>)
    ensures PlannedSections(interests, [], cache, metadata) == Take(BaseSections(UserInterests(interests)), 8)
  {
    var base := BaseSections(UserInterests(interests));
    assert Layout(base, ArtistSections([])) == base;
  }

  /** The plan holds at most two artist sections, for different artists (ignoring case),
      laid in after the first three interest sections. */
  lemma {:induction false} PlanArtistSections(interests: seq<string>, recent: seq<TrackId>, cache: map<TrackId, Track>, metadata: map<TrackId, Track>)
    ensures var picks := ArtistPicks(Take(recent, 10), cache, metadata);
      && |picks.names| <= 2
      && (forall i, j :: 0 <= i < j < |picks.names| ==> Lower(picks.names[i]) != Lower(picks.names[j]))
      && PlannedSections(interests, recent, cache, metadata) ==
           Take(Layout(BaseSections(UserInterests(interests)), ArtistSections(picks.names)), 8)
  {
    PickWellFormed(ArtistsOf(Take(recent, 10), cache, metadata));
  }

  // ───── Rows of tracks ─────

  /** The recently played row: the recent ids resolved in order, unknown ids dropped,
      at most ten. */
  function RecentTracks(recent: seq<TrackId>, cache: map<TrackId, Track>, metadata: map<TrackId, Track>): (r: seq<Track>)
    ensures |r| <= 10 && |r| <= |ResolveIds(recent, cache, metadata)|
    ensures r == ResolveIds(recent, cache, metadata)[..|r|]
  {
    Take(ResolveIds(recent, cache, metadata), 10)
  }

  /** Every track of the recently played row is what one of the recent ids resolves to,
      and when all recent ids are known the row holds the first ten of them in order. */
  lemma {:induction false} RecentTracksFromIds(recent: seq<TrackId>, cache: map<TrackId, Track>, metadata: map<TrackId, Track>)
    ensures forall t :: t in RecentTracks(recent, cache, metadata) ==>
      exists i :: 0 <= i < |recent| && Lookup(cache, metadata, recent[i]) == Some(t)
    ensures (forall i :: 0 <= i < |recent| ==> recent[i] in cache || recent[i] in metadata) ==>
      |RecentTracks(recent, cache, metadata)| == if |recent| < 10 then |recent| else 10
  {
    var all := ResolveIds(recent, cache, metadata);
    forall t | t in RecentTracks(recent, cache, metadata)
      ensures exists i :: 0 <= i < |recent| && Lookup(cache, metadata, recent[i]) == Some(t)
    {
      assert t in all;
      ResolveIdsMembers(recent, cache, metadata, t);
    }
    if forall i :: 0 <= i < |recent| ==> recent[i] in cache || recent[i] in metadata {
      ResolveIdsAllKnown(recent, cache, metadata);
    }
  }

  /** What a section row shows: its first ten cards, and a Load-More card when the row
      started with at least ten tracks and has a query to page through ("" for none). */
  datatype RowView = RowView(cards: seq<Track>, loadMore: bool)

  function SectionRow(tracks: seq<Track>, query: string): (v: RowView)
    ensures |v.cards| <= 10 && |v.cards| <= |tracks| && v.cards == tracks[..|v.cards|]
    ensures v.loadMore <==> |tracks| >= 10 && query != ""
    ensures v.loadMore ==> |v.cards| == 10
    ensures |tracks| <= 10 ==> v.cards == tracks
  {
    RowView(Take(tracks, 10), |tracks| >= 10 && query != "")
  }

  // ───── Artist initials ─────

  /** The words of a list that are not empty, in order. */
  function NonEmptyWords(words: seq<string>): (r: seq<string>)
    ensures |r| <= |words|
    ensures forall i :: 0 <= i < |r| ==> r[i] != [] && r[i] in words
  {
    if words == [] then []
    else (if words[0] != [] then [words[0]] else []) + NonEmptyWords(words[1..])
  }

  /** The first character of each non-empty word (`w[0]` of an empty word joins as ""):
      the `i`-th character is the first of the `i`-th non-empty word. */
  function FirstChars(words: seq<string>): (r: string)
    ensures |r| == |NonEmptyWords(words)|
    ensures forall i :: 0 <= i < |r| ==> r[i] == NonEmptyWords(words)[i][0]
  {
    if words == [] then []
    else (if words[0] != [] then [words[0][0]] else []) + FirstChars(words[1..])
  }

  /** Initials of words said one after another are the initials of each in turn. */
  lemma {:induction false} FirstCharsAppend(a: seq<string>, b: seq<string>)
    ensures FirstChars(a + b) == FirstChars(a) + FirstChars(b)
    decreases |a|
  {
    if a == [] {
      assert a + b == b;
    } else {
      assert (a + b)[1..] == a[1..] + b;
      FirstCharsAppend(a[1..], b);
    }
  }

  /** `name.split(' ').map(w => w[0]).join('').slice(0, 2)`: the first characters of the
      first two words of the name, blank runs skipped, so never a space. */
  function Initials(name: string): (r: string)
    ensures var words := NonEmptyWords(Split(name, ' '));
      && |r| == (if |words| < 2 then |words| else 2)
      && forall i :: 0 <= i < |r| ==> r[i] == words[i][0]
    ensures ' ' !in r
  {
    var r := Take(FirstChars(Split(name, ' ')), 2);
    var words := NonEmptyWords(Split(name, ' '));
    assert forall i :: 0 <= i < |r| ==> words[i] in Split(name, ' ') && words[i][0] in words[i];
    r
  }

  /** A two-word name gives the first letters of both words. */
  lemma TwoWordInitials(first: string, last: string)
    requires first != [] && last != [] && ' ' !in first && ' ' !in last
    ensures Initials(first + " " + last) == [first[0], last[0]]
  {
    assert first + " " + last == first + [' '] + last;
    assert Split(first, ' ') == [first] by {
      assert FirstIndex(first, ' ') == |first|;
    }
    SplitAppend(first, last, ' ');
    assert Split(first + " " + last, ' ') == [first, last];
    assert [first, last][1..] == [last];
    assert FirstChars([last]) == [last[0]] + FirstChars([]);
    assert FirstChars([first, last]) == [first[0], last[0]];
  }

  /** Blank runs do not produce initials: repeated spaces give empty words, which add nothing. */
  lemma EmptyWordsAddNothing(words: seq<string>)
    ensures FirstChars(words + [[]]) == FirstChars(words)
  {
    FirstCharsAppend(words, [[]]);
    assert FirstChars([[]]) == [] + FirstChars([]);
  }
}
