/**
 * The matching engine (src/kutx2spotify/matcher.py): for one played song, a stored resolution
 * wins; otherwise an album-constrained search whose hit must really carry the song's album;
 * otherwise a broad search whose candidates are split by the duration tolerance and ranked by
 * popularity. The catalog's two searches are inputs (functions of the query fields), so the
 * engine also reports which searches it issued, and `MatchSongs` logs on the shared Spotify client
 * the requests those searches send.
 */
module Matcher {
  import opened Wrappers
  import opened Text
  import opened Seqs
  import opened Models
  import opened Cache
  import opened Spotify

  /** `DURATION_TOLERANCE_MS`: ten seconds. */
  const DurationToleranceMs := 10000

  /** The popularity a track synthesised from a stored resolution carries. */
  const ResolvedPopularity := 100

  /** `_albums_match`: equal after lowercasing. */
  predicate AlbumsMatch(songAlbum: string, trackAlbum: string) {
    Lower(songAlbum) == Lower(trackAlbum)
  }

  function Abs(x: int): nat {
    if x < 0 then -x else x
  }

  /** `_is_within_duration_tolerance`: the durations differ by at most the tolerance. */
  predicate WithinTolerance(song: Song, track: Track) {
    Abs(song.durationMs - track.durationMs) <= DurationToleranceMs
  }

  /**
   * What the engine can ask the catalog: `search_track` with title, artist and album (one best
   * hit or none) and the broad search with title and artist (any number of candidates), plus
   * whether the client is configured at all.
   */
  datatype Catalog = Catalog(
    configured: bool,
    searchTrack: (string, string, string) -> Option<Track>,
    searchTracks: (string, string) -> seq<Track>)

  /** A search the engine issued. */
  datatype Query = ExactQuery(title: string, artist: string, album: string) | BroadQuery(title: string, artist: string)

  /** The match for one song, and the searches issued to find it, in order. */
  datatype Outcome = Outcome(chosen: Match, queries: seq<Query>)

  // ---------------------------------------------------------------------------
  // The two comparison predicates
  // ---------------------------------------------------------------------------

  /** Album comparison ignores letter case, is reflexive and symmetric, and two empty albums match. */
  lemma AlbumsMatchProperties(a: string, b: string)
    ensures AlbumsMatch(a, a)
    ensures AlbumsMatch(a, b) <==> AlbumsMatch(b, a)
    ensures AlbumsMatch(a, Lower(a))
    ensures AlbumsMatch("", "")
  {
    LowerIdempotent(a);
  }

  /** The tolerance is inclusive at exactly ten seconds, the same for shorter and for longer tracks. */
  lemma ToleranceWindow(song: Song, track: Track)
    ensures WithinTolerance(song, track) <==>
            song.durationMs - 10000 <= track.durationMs <= song.durationMs + 10000
  {
  }

  // ---------------------------------------------------------------------------
  // Step 2: the album-verified search
  // ---------------------------------------------------------------------------

  /** `_find_exact_match`: the search hit is kept only when its album matches the song's. */
  function FindExactMatch(song: Song, hit: Option<Track>): (r: Option<Track>)
    ensures r.Some? <==> hit.Some? && AlbumsMatch(song.album, hit.value.album)
    ensures r.Some? ==> r == hit
  {
    if hit.None? then None
    else if !AlbumsMatch(song.album, hit.value.album) then None
    else hit
  }

  // ---------------------------------------------------------------------------
  // Step 3: the broad search
  // ---------------------------------------------------------------------------

  /**
   * The position Python's `max(ts, key=lambda t: t.popularity)` returns: it scans from the left
   * and replaces its pick only on a strictly greater popularity, so the pick is the first
   * track of maximal popularity.
   */
  function MostPopularIndex(ts: seq<Track>): (i: nat)
    requires |ts| > 0
    ensures i < |ts|
    ensures forall j :: 0 <= j < |ts| ==> ts[j].popularity <= ts[i].popularity
    ensures forall j :: 0 <= j < i ==> ts[j].popularity < ts[i].popularity
  {
    if |ts| == 1 then 0
    else
      var k := MostPopularIndex(ts[..|ts| - 1]);
      if ts[|ts| - 1].popularity > ts[k].popularity then |ts| - 1 else k
  }

  function MostPopular(ts: seq<Track>): Track
    requires |ts| > 0
  {
    ts[MostPopularIndex(ts)]
  }

  /** `_find_best_fallback`: the best candidate and whether it lies within the tolerance. */
  function FindBestFallback(song: Song, tracks: seq<Track>): (Option<Track>, bool) {
    if tracks == [] then (None, false)
    else
      var within := Filter(tracks, t => WithinTolerance(song, t));
      var outside := Filter(tracks, t => !WithinTolerance(song, t));
      if within != [] then (Some(MostPopular(within)), true)
      else if outside != [] then (Some(MostPopular(outside)), false)
      else (None, false)
  }

  /** Appending a track moves the pick to it exactly when it is strictly more popular. */
  lemma MostPopularSnoc(ts: seq<Track>, x: Track)
    requires |ts| > 0
    ensures MostPopular(ts + [x]) == if x.popularity > MostPopular(ts).popularity then x else MostPopular(ts)
  {
    assert (ts + [x])[..|ts|] == ts;
  }

  /**
   * Position `i` holds a track satisfying `p` that no such track outdoes in popularity, and every
   * such track before it is strictly less popular.
   */
  predicate FirstMostPopular(ts: seq<Track>, p: Track -> bool, i: nat) {
    && i < |ts| && p(ts[i])
    && (forall j :: 0 <= j < |ts| && p(ts[j]) ==> ts[j].popularity <= ts[i].popularity)
    && (forall j :: 0 <= j < i && p(ts[j]) ==> ts[j].popularity < ts[i].popularity)
  }

  lemma FirstMostPopularSkip(front: seq<Track>, x: Track, p: Track -> bool, i: nat)
    requires !p(x) && FirstMostPopular(front, p, i)
    ensures FirstMostPopular(front + [x], p, i) && (front + [x])[i] == front[i]
  {
    assert forall j :: 0 <= j < |front| ==> (front + [x])[j] == front[j];
  }

  lemma FirstMostPopularFirst(front: seq<Track>, x: Track, p: Track -> bool)
    requires p(x) && forall j :: 0 <= j < |front| ==> !p(front[j])
    ensures FirstMostPopular(front + [x], p, |front|)
  {
    assert forall j :: 0 <= j < |front| ==> (front + [x])[j] == front[j];
  }

  lemma FirstMostPopularCompare(front: seq<Track>, x: Track, p: Track -> bool, i: nat)
    requires p(x) && FirstMostPopular(front, p, i)
    ensures FirstMostPopular(front + [x], p, if x.popularity > front[i].popularity then |front| else i)
    ensures (front + [x])[i] == front[i]
  {
    assert forall j :: 0 <= j < |front| ==> (front + [x])[j] == front[j];
  }

  /** The pick among the tracks in `p` after one more track: unchanged, that track, or the more popular of the two. */
  lemma MostPopularOfSnoc(front: seq<Track>, x: Track, p: Track -> bool)
    requires Filter(front + [x], p) != []
    ensures Filter(front, p) == [] ==> p(x) && MostPopular(Filter(front + [x], p)) == x
    ensures Filter(front, p) != [] && !p(x) ==> MostPopular(Filter(front + [x], p)) == MostPopular(Filter(front, p))
    ensures Filter(front, p) != [] && p(x) ==>
      MostPopular(Filter(front + [x], p)) == if x.popularity > MostPopular(Filter(front, p)).popularity then x else MostPopular(Filter(front, p))
  {
    var ff := Filter(front, p);
    FilterSnoc(front, x, p);
    if !p(x) {
      assert ff + [] == ff;
    } else if ff == [] {
      assert Filter(front + [x], p) == [x];
    } else {
      MostPopularSnoc(ff, x);
    }
  }

  /**
   * The most popular of the tracks that satisfy `p`, seen in the original list: it is the first
   * such track whose popularity no other such track exceeds.
   */
  lemma {:induction false} MostPopularOfFilter(ts: seq<Track>, p: Track -> bool) returns (i: nat)
    requires Filter(ts, p) != []
    ensures FirstMostPopular(ts, p, i) && ts[i] == MostPopular(Filter(ts, p))
  {
    var front, x := ts[..|ts| - 1], ts[|ts| - 1];
    assert ts == front + [x];
    MostPopularOfSnoc(front, x, p);
    if Filter(front, p) == [] {
      FilterEmpty(front, p);
      FirstMostPopularFirst(front, x, p);
      i := |front|;
    } else {
      var k := MostPopularOfFilter(front, p);
      if p(x) {
        FirstMostPopularCompare(front, x, p, k);
        i := if x.popularity > front[k].popularity then |front| else k;
      } else {
        FirstMostPopularSkip(front, x, p, k);
        i := k;
      }
    }
  }

  /** `Track -> bool` forms of the tolerance test for one song. */
  function Inside(song: Song): Track -> bool { t => WithinTolerance(song, t) }

  function Outside(song: Song): Track -> bool { t => !WithinTolerance(song, t) }

  /**
   * The fallback pick: none exactly when the broad search found nothing; otherwise a candidate
   * from the list; within the tolerance whenever any candidate is, with the highest popularity
   * among those candidates whatever the popularity of the others; otherwise the most popular of
   * all; and on a tie the earliest such candidate.
   */
  lemma FallbackPick(song: Song, tracks: seq<Track>)
    ensures var (pick, within) := FindBestFallback(song, tracks);
      && (pick.None? <==> tracks == [])
      && (pick.None? ==> !within)
      && (within <==> exists j :: 0 <= j < |tracks| && WithinTolerance(song, tracks[j]))
      && (pick.Some? ==>
            exists i :: 0 <= i < |tracks| && tracks[i] == pick.value
              && WithinTolerance(song, tracks[i]) == within
              && (forall j :: 0 <= j < |tracks| && WithinTolerance(song, tracks[j]) == within ==>
                    tracks[j].popularity <= tracks[i].popularity)
              && (forall j :: 0 <= j < i && WithinTolerance(song, tracks[j]) == within ==>
                    tracks[j].popularity < tracks[i].popularity))
  {
    var (pick, within) := FindBestFallback(song, tracks);
    if tracks != [] {
      var ins := Filter(tracks, Inside(song));
      var outs := Filter(tracks, Outside(song));
      assert ins == Filter(tracks, t => WithinTolerance(song, t));
      assert outs == Filter(tracks, t => !WithinTolerance(song, t));
      FilterEmpty(tracks, Inside(song));
      if ins != [] {
        var i := MostPopularOfFilter(tracks, Inside(song));
        assert tracks[i] == pick.value;
      } else {
        FilterKeepsAll(tracks, Outside(song));
        var i := MostPopularOfFilter(tracks, Outside(song));
        assert tracks[i] == pick.value;
      }
    }
  }

  // ---------------------------------------------------------------------------
  // Step 1: the resolution store
  // ---------------------------------------------------------------------------

  /** What `_check_resolution_cache` looks up: nothing when the matcher has no store. */
  function ResolutionFor(store: Option<map<string, Entry>>, song: Song): Option<Resolution> {
    if store.None? then None else Lookup(store.value, song)
  }

  /**
   * `_check_resolution_cache`, given the lookup result: a track made from the stored URI (its id
   * is what follows the URI's last ':'), the song's own title, artist and duration, the resolved
   * album and a popularity of 100.
   */
  function CheckResolution(song: Song, resolution: Option<Resolution>): Option<Match> {
    if resolution.None? then None
    else
      var r := resolution.value;
      var track := Track(
        id := LastPart(r.spotifyUri, ':'),
        uri := r.spotifyUri,
        title := song.title,
        artist := song.artist,
        album := r.resolvedAlbum,
        durationMs := song.durationMs,
        popularity := ResolvedPopularity);
      var status := if AlbumsMatch(song.album, r.resolvedAlbum) then Exact else AlbumFallback;
      Some(Match(song, Some(track), status))
  }

  // ---------------------------------------------------------------------------
  // match_song
  // ---------------------------------------------------------------------------

  /** `match_song`: the first rule that applies decides. */
  function MatchSong(song: Song, resolution: Option<Resolution>, catalog: Catalog): Outcome {
    var cached := CheckResolution(song, resolution);
    if cached.Some? then Outcome(cached.value, [])
    else
      var exactQuery := ExactQuery(song.title, song.artist, song.album);
      var exactTrack := FindExactMatch(song, catalog.searchTrack(song.title, song.artist, song.album));
      if exactTrack.Some? then
        if WithinTolerance(song, exactTrack.value) then Outcome(Match(song, exactTrack, Exact), [exactQuery])
        else Outcome(Match(song, exactTrack, DurationMismatch), [exactQuery])
      else
        var queries := [exactQuery, BroadQuery(song.title, song.artist)];
        var (fallbackTrack, withinTolerance) := FindBestFallback(song, catalog.searchTracks(song.title, song.artist));
        if fallbackTrack.None? then Outcome(Match(song, None, NotFound), queries)
        else if AlbumsMatch(song.album, fallbackTrack.value.album) then
          if withinTolerance then Outcome(Match(song, fallbackTrack, Exact), queries)
          else Outcome(Match(song, fallbackTrack, DurationMismatch), queries)
        else if withinTolerance then Outcome(Match(song, fallbackTrack, AlbumFallback), queries)
        else Outcome(Match(song, fallbackTrack, DurationMismatch), queries)
  }

  /** The status a found track deserves: album and duration, album wrong but duration right, or duration wrong. */
  function StatusFor(albumMatches: bool, withinTolerance: bool): MatchStatus {
    if !withinTolerance then DurationMismatch
    else if albumMatches then Exact
    else AlbumFallback
  }

  /**
   * A resolution hit issues no search and does not depend on the catalog; its track carries the
   * stored URI, the id after the URI's last ':', the song's title, artist and duration, the
   * resolved album and popularity 100; its status is EXACT iff the albums match.
   */
  lemma ResolutionHit(song: Song, r: Resolution, c1: Catalog, c2: Catalog)
    ensures var o := MatchSong(song, Some(r), c1);
      && o == MatchSong(song, Some(r), c2)
      && o.queries == []
      && o.chosen.song == song
      && o.chosen.track.Some?
      && o.chosen.track.value.uri == r.spotifyUri
      && ':' !in o.chosen.track.value.id
      && |o.chosen.track.value.id| <= |r.spotifyUri|
      && r.spotifyUri[|r.spotifyUri| - |o.chosen.track.value.id|..] == o.chosen.track.value.id
      && (':' in r.spotifyUri ==>
            |o.chosen.track.value.id| < |r.spotifyUri| && r.spotifyUri[|r.spotifyUri| - |o.chosen.track.value.id| - 1] == ':')
      && (':' !in r.spotifyUri ==> o.chosen.track.value.id == r.spotifyUri)
      && o.chosen.track.value.title == song.title
      && o.chosen.track.value.artist == song.artist
      && o.chosen.track.value.album == r.resolvedAlbum
      && o.chosen.track.value.durationMs == song.durationMs
      && o.chosen.track.value.popularity == 100
      && (o.chosen.status == Exact <==> AlbumsMatch(song.album, r.resolvedAlbum))
      && (o.chosen.status == AlbumFallback <==> !AlbumsMatch(song.album, r.resolvedAlbum))
  {
    LastPartShape(r.spotifyUri, ':');
  }

  /**
   * Without a resolution the album-constrained search always runs first; the broad search runs
   * exactly when its hit is missing or carries another album, and nothing else is searched.
   */
  lemma SearchesIssued(song: Song, catalog: Catalog)
    ensures var o := MatchSong(song, None, catalog);
      var hit := catalog.searchTrack(song.title, song.artist, song.album);
      var verified := hit.Some? && AlbumsMatch(song.album, hit.value.album);
      && (verified ==> o.queries == [ExactQuery(song.title, song.artist, song.album)]
                       && o.chosen.track == hit
                       && o.chosen.status == (if WithinTolerance(song, hit.value) then Exact else DurationMismatch))
      && (!verified ==> o.queries == [ExactQuery(song.title, song.artist, song.album), BroadQuery(song.title, song.artist)]
                        && o.chosen.track == FindBestFallback(song, catalog.searchTracks(song.title, song.artist)).0)
  {
  }

  /**
   * Every match keeps the input song, is NOT_FOUND exactly when it has no track, and a found
   * track's status is the one its album and duration deserve: EXACT needs both, ALBUM_FALLBACK a
   * wrong album within the tolerance, DURATION_MISMATCH any track outside it.
   */
  lemma MatchSongClassified(song: Song, resolution: Option<Resolution>, catalog: Catalog)
    ensures var m := MatchSong(song, resolution, catalog).chosen;
      && m.song == song
      && WellFormed(m)
      && (m.track.Some? ==> m.status == StatusFor(AlbumsMatch(song.album, m.track.value.album), WithinTolerance(song, m.track.value)))
  {
    var cached := CheckResolution(song, resolution);
    if cached.None? {
      var exactTrack := FindExactMatch(song, catalog.searchTrack(song.title, song.artist, song.album));
      if exactTrack.None? {
        var tracks := catalog.searchTracks(song.title, song.artist);
        var (fb, within) := FindBestFallback(song, tracks);
        FallbackPick(song, tracks);
        if fb.Some? {
          var i :| 0 <= i < |tracks| && tracks[i] == fb.value && WithinTolerance(song, tracks[i]) == within;
        }
      }
    }
  }

  /** The album-constrained search never yields ALBUM_FALLBACK. */
  lemma ExactPathNeverAlbumFallback(song: Song, catalog: Catalog)
    requires FindExactMatch(song, catalog.searchTrack(song.title, song.artist, song.album)).Some?
    ensures MatchSong(song, None, catalog).chosen.status in {Exact, DurationMismatch}
  {
  }

  /** An empty catalog gives NOT_FOUND with no track. */
  lemma EmptyCatalogNotFound(song: Song, catalog: Catalog)
    requires catalog.searchTrack(song.title, song.artist, song.album).None?
    requires catalog.searchTracks(song.title, song.artist) == []
    ensures MatchSong(song, None, catalog).chosen == Match(song, None, NotFound)
  {
  }

  // ---------------------------------------------------------------------------
  // match_songs
  // ---------------------------------------------------------------------------

  /** The match for one song in a batch: NOT_FOUND without searching when the catalog is not configured. */
  function BatchMatch(song: Song, store: Option<map<string, Entry>>, catalog: Catalog): Match {
    if !catalog.configured then Match(song, None, NotFound)
    else MatchSong(song, ResolutionFor(store, song), catalog).chosen
  }

  /** One match per song, in song order. */
  function MatchAll(songs: seq<Song>, store: Option<map<string, Entry>>, catalog: Catalog): (ms: seq<Match>)
    ensures |ms| == |songs|
    ensures forall i :: 0 <= i < |songs| ==> ms[i] == BatchMatch(songs[i], store, catalog)
  {
    Map(songs, s => BatchMatch(s, store, catalog))
  }

  /**
   * The batch returns exactly one well-formed match per song, match i being about song i; when
   * the catalog is not configured every match is NOT_FOUND without a track.
   */
  lemma MatchAllOrdered(songs: seq<Song>, store: Option<map<string, Entry>>, catalog: Catalog)
    ensures var ms := MatchAll(songs, store, catalog);
      && |ms| == |songs|
      && (forall i :: 0 <= i < |songs| ==> ms[i].song == songs[i] && WellFormed(ms[i]))
      && (!catalog.configured ==> forall i :: 0 <= i < |songs| ==> ms[i] == Match(songs[i], None, NotFound))
  {
    var ms := MatchAll(songs, store, catalog);
    forall i | 0 <= i < |songs|
      ensures ms[i].song == songs[i] && WellFormed(ms[i])
    {
      if catalog.configured {
        MatchSongClassified(songs[i], ResolutionFor(store, songs[i]), catalog);
      }
    }
  }

  lemma MatchAllSnoc(songs: seq<Song>, i: nat, store: Option<map<string, Entry>>, catalog: Catalog)
    requires i < |songs|
    ensures MatchAll(songs[..i + 1], store, catalog) == MatchAll(songs[..i], store, catalog) + [BatchMatch(songs[i], store, catalog)]
  {
  }

  /** The request `search_track` sends for the album-constrained search of a song. */
  function ExactSearch(song: Song): Request {
    Search(BuildQuery(song.title, song.artist, Some(song.album)), 1)
  }

  /**
   * The requests a trace of searches sends through the client: the album-constrained search is
   * `search_track`; the broad search has no method in the client and sends nothing through it.
   */
  function QueryRequests(qs: seq<Query>): seq<Request> {
    if qs == [] then []
    else
      var q := qs[0];
      (if q.ExactQuery? then [Search(BuildQuery(q.title, q.artist, Some(q.album)), 1)] else []) + QueryRequests(qs[1..])
  }

  /** The songs of a batch that reach the catalog: it is configured and they have no stored resolution. */
  function Searched(store: Option<map<string, Entry>>, catalog: Catalog): Song -> bool {
    song => catalog.configured && ResolutionFor(store, song).None?
  }

  /** The requests matching one song of a batch sends through the client. */
  function SongRequests(song: Song, store: Option<map<string, Entry>>, catalog: Catalog): seq<Request> {
    if catalog.configured && ResolutionFor(store, song).None? then [ExactSearch(song)] else []
  }

  /** The requests matching a batch sends through the client, song after song. */
  function BatchRequests(songs: seq<Song>, store: Option<map<string, Entry>>, catalog: Catalog): seq<Request> {
    if songs == [] then []
    else BatchRequests(songs[..|songs| - 1], store, catalog) + SongRequests(songs[|songs| - 1], store, catalog)
  }

  /**
   * The requests of one song are those of the searches `match_song` issues for it: nothing on an
   * unconfigured catalog, otherwise one request per album-constrained search of its trace.
   */
  lemma SongRequestsFollowTrace(song: Song, store: Option<map<string, Entry>>, catalog: Catalog)
    ensures !catalog.configured ==> SongRequests(song, store, catalog) == []
    ensures catalog.configured ==>
      SongRequests(song, store, catalog) == QueryRequests(MatchSong(song, ResolutionFor(store, song), catalog).queries)
  {
    if catalog.configured {
      var qs := MatchSong(song, ResolutionFor(store, song), catalog).queries;
      if ResolutionFor(store, song).None? {
        var exact, broad := ExactQuery(song.title, song.artist, song.album), BroadQuery(song.title, song.artist);
        assert qs == [exact] || qs == [exact, broad];
        assert QueryRequests([broad]) == [];
        assert QueryRequests([exact]) == [ExactSearch(song)];
        if qs != [exact] {
          assert qs[1..] == [broad];
        }
      } else {
        assert qs == [];
      }
    }
  }

  /**
   * A batch sends, in song order, one album-constrained search for each song that reaches the
   * catalog and nothing for the others; an unconfigured catalog sends nothing.
   */
  lemma {:induction false} BatchRequestsSpec(songs: seq<Song>, store: Option<map<string, Entry>>, catalog: Catalog)
    ensures BatchRequests(songs, store, catalog) == Map(Filter(songs, Searched(store, catalog)), ExactSearch)
    ensures |BatchRequests(songs, store, catalog)| == CountWhere(songs, Searched(store, catalog))
    ensures !catalog.configured ==> BatchRequests(songs, store, catalog) == []
  {
    var p := Searched(store, catalog);
    if songs != [] {
      var front, last := songs[..|songs| - 1], songs[|songs| - 1];
      BatchRequestsSpec(front, store, catalog);
      assert songs == front + [last];
      FilterMapSnoc(front, last, p, ExactSearch);
    }
    CountIsFilterLength(songs, p);
    if !catalog.configured {
      FilterEmpty(songs, p);
    }
  }

  lemma BatchRequestsSnoc(songs: seq<Song>, i: nat, store: Option<map<string, Entry>>, catalog: Catalog)
    requires i < |songs|
    ensures BatchRequests(songs[..i + 1], store, catalog) == BatchRequests(songs[..i], store, catalog) + SongRequests(songs[i], store, catalog)
  {
    assert songs[..i + 1][..i] == songs[..i];
  }

  /** The store a matcher consults: its resolution cache's contents, or none. */
  function StoreOf(cache: ResolutionCache?): Option<map<string, Entry>>
    reads cache
  {
    if cache == null then None else Some(cache.Contents())
  }

  /**
   * One song of `match_songs` on a configured catalog: consult the store, and send the
   * album-constrained search when it holds no resolution for the song.
   */
  method MatchStep(song: Song, catalog: Catalog, cache: ResolutionCache?, client: SpotifyClient) returns (m: Match)
    requires catalog.configured && IsConfigured(client.env)
    modifies client, cache
    ensures m == BatchMatch(song, old(StoreOf(cache)), catalog)
    ensures StoreOf(cache) == old(StoreOf(cache))
    ensures cache != null ==> cache.file == old(cache.file)
    ensures client.sent == old(client.sent) + SongRequests(song, old(StoreOf(cache)), catalog)
    ensures client.connected == (old(client.connected) || |client.sent| > |old(client.sent)|)
  {
    var resolution: Option<Resolution> := None;
    if cache != null {
      resolution := cache.Get(song);
    }
    if resolution.None? {
      var sendResult := client.SendSearch(song.title, song.artist, Some(song.album));
    }
    m := MatchSong(song, resolution, catalog).chosen;
  }

  /**
   * `match_songs`: a fresh result, filled by `add` in song order. When the catalog is not
   * configured no lookup and no search happens at all; otherwise each song consults the store
   * once, and a song without a resolution sends its album-constrained search through the client
   * the matcher shares with the rest of the program.
   */
  method MatchSongs(songs: seq<Song>, catalog: Catalog, cache: ResolutionCache?, client: SpotifyClient)
    returns (result: MatchResult)
    requires catalog.configured == IsConfigured(client.env)
    modifies client, cache
    ensures fresh(result)
    ensures result.matches == MatchAll(songs, old(StoreOf(cache)), catalog)
    ensures StoreOf(cache) == old(StoreOf(cache))
    ensures cache != null ==> cache.file == old(cache.file)
    ensures client.sent == old(client.sent) + BatchRequests(songs, old(StoreOf(cache)), catalog)
    ensures client.connected == (old(client.connected) || BatchRequests(songs, old(StoreOf(cache)), catalog) != [])
  {
    result := new MatchResult();
    ghost var store := StoreOf(cache);
    if !catalog.configured {
      for i := 0 to |songs|
        invariant result.matches == MatchAll(songs[..i], store, catalog)
        invariant StoreOf(cache) == store
        invariant cache != null ==> cache.file == old(cache.file)
        invariant client.sent == old(client.sent)
        invariant client.connected == old(client.connected)
      {
        MatchAllSnoc(songs, i, store, catalog);
        BatchRequestsSnoc(songs, i, store, catalog);
        result.Add(Match(songs[i], None, NotFound));
      }
      assert songs[..|songs|] == songs;
      BatchRequestsSpec(songs, store, catalog);
      return;
    }
    MatchEach(songs, catalog, cache, client, result);
  }

  /** The loop of `match_songs` on a configured catalog: one step per song, in song order. */
  method MatchEach(songs: seq<Song>, catalog: Catalog, cache: ResolutionCache?, client: SpotifyClient, result: MatchResult)
    requires catalog.configured && IsConfigured(client.env)
    modifies result, client, cache
    ensures result.matches == old(result.matches) + MatchAll(songs, old(StoreOf(cache)), catalog)
    ensures StoreOf(cache) == old(StoreOf(cache))
    ensures cache != null ==> cache.file == old(cache.file)
    ensures client.sent == old(client.sent) + BatchRequests(songs, old(StoreOf(cache)), catalog)
    ensures client.connected == (old(client.connected) || BatchRequests(songs, old(StoreOf(cache)), catalog) != [])
  {
    ghost var store := StoreOf(cache);
    for i := 0 to |songs|
      invariant result.matches == old(result.matches) + MatchAll(songs[..i], store, catalog)
      invariant StoreOf(cache) == store
      invariant cache != null ==> cache.file == old(cache.file)
      invariant client.sent == old(client.sent) + BatchRequests(songs[..i], store, catalog)
      invariant client.connected == (old(client.connected) || |client.sent| > |old(client.sent)|)
    {
      var m := MatchStep(songs[i], catalog, cache, client);
      MatchAllSnoc(songs, i, store, catalog);
      BatchRequestsSnoc(songs, i, store, catalog);
      AppendAssoc(old(result.matches), MatchAll(songs[..i], store, catalog), [m]);
      AppendAssoc(old(client.sent), BatchRequests(songs[..i], store, catalog), SongRequests(songs[i], store, catalog));
      result.Add(m);
    }
    assert songs[..|songs|] == songs;
  }
}
