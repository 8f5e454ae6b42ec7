/**
 * The command (src/kutx2spotify/cli.py): reading `--resolve INDEX=CHOICE`, fetching the day's
 * songs through the day cache, acknowledging resolutions, and publishing the playlist; `Run`
 * strings these together as `main` does. Option parsing by the command-line library, the
 * printing, the date and time parsers and the clock are not modelled; the feed's answer for
 * the day, the new playlist's id and the catalog's answers are inputs.
 */
module Cli {
  import opened Wrappers
  import opened Text
  import opened Seqs
  import opened Models
  import opened Cache
  import opened Matcher
  import opened Kutx
  import opened Spotify
  import Output

  // ---------------------------------------------------------------------------
  // parse_resolve
  // ---------------------------------------------------------------------------

  function ResolveError(arg: string): string {
    "Invalid resolve format: " + arg + ". Expected INDEX=CHOICE (e.g., 3=1)."
  }

  /** `parse_resolve`: exactly one '=' with an integer on each side; any other text is a bad parameter. */
  function ParseResolve(arg: string): Result<(int, int), string> {
    var parts := Split(arg, '=');
    if |parts| != 2 then Err(ResolveError(arg))
    else
      var index := ParseInt(parts[0]);
      var choice := ParseInt(parts[1]);
      if index.None? || choice.None? then Err(ResolveError(arg))
      else Ok((index.value, choice.value))
  }

  /** Accepted iff the text splits on '=' into exactly two parts that both read as integers. */
  lemma ParseResolveSpec(arg: string)
    ensures ParseResolve(arg).Ok? <==>
      |Split(arg, '=')| == 2 && ParseInt(Split(arg, '=')[0]).Some? && ParseInt(Split(arg, '=')[1]).Some?
    ensures ParseResolve(arg).Ok? ==>
      ParseResolve(arg).value == (ParseInt(Split(arg, '=')[0]).value, ParseInt(Split(arg, '=')[1]).value)
    ensures ParseResolve(arg).Err? ==> ParseResolve(arg).error == ResolveError(arg)
  {
  }

  /** Every pair of integers written as `I=C` reads back as that pair. */
  lemma ParseResolveRoundTrip(index: int, choice: int)
    ensures ParseResolve(IntToString(index) + "=" + IntToString(choice)) == Ok((index, choice))
  {
    var a := IntToString(index);
    var b := IntToString(choice);
    assert '=' !in a && '=' !in b;
    SplitPair(a, '=', b);
    ParseIntOfString(index);
    ParseIntOfString(choice);
    var parts := Split(a + "=" + b, '=');
    assert parts[0] == a && parts[1] == b;
  }

  /**
   * The hint `print_issues` prints under a duration mismatch with a track is an argument
   * `--resolve` accepts: what follows "--resolve " reads back as the match's index and choice 1.
   */
  lemma ResolveHintReadsBack(idx: int, m: Match, encode: string -> string)
    requires m.status == DurationMismatch && m.track.Some?
    ensures |Output.IssueDetail(idx, m, encode)| == 4
    ensures var line, opening := Output.IssueDetail(idx, m, encode)[3], "  Resolve: --resolve ";
      |line| >= |opening| && line[..|opening|] == opening && ParseResolve(line[|opening|..]) == Ok((idx, 1))
  {
    Output.IssueDetailCases(idx, m, encode);
    var opening := "  Resolve: --resolve ";
    var arg := IntToString(idx) + "=1";
    var line := Output.IssueDetail(idx, m, encode)[3];
    assert line == opening + arg;
    assert line[..|opening|] == opening && line[|opening|..] == arg;
    assert IntToString(1) == "1";
    assert arg == IntToString(idx) + "=" + IntToString(1);
    ParseResolveRoundTrip(idx, 1);
  }

  /** A dash is no separator. */
  lemma ParseResolveRejectsDash()
    ensures ParseResolve("3-1").Err?
  {
    SplitNone("3-1", '=');
  }

  /** Words are no integers. */
  lemma ParseResolveRejectsWords()
    ensures ParseResolve("a=b").Err?
  {
    SplitNone("b", '=');
    SplitAfter("a", '=', "b");
    assert "a=b" == "a" + "=" + "b";
    assert Strip("a") == "a" by { StripUnchanged("a"); }
    assert !IsDigitGroups("a");
  }

  /** A second '=' is one too many. */
  lemma ParseResolveRejectsTwoSigns()
    ensures ParseResolve("1=2=3").Err?
  {
    SplitNone("3", '=');
    SplitAfter("2", '=', "3");
    SplitAfter("1", '=', "2=3");
    assert "1=2=3" == "1" + "=" + "2=3";
    assert "2=3" == "2" + "=" + "3";
  }

  /** The results of parsing each argument in turn, or the error of the first that fails. */
  function ParseEach<T>(args: seq<string>, parse: string -> Result<T, string>): Result<seq<T>, string> {
    if args == [] then Ok([])
    else
      var front := ParseEach(args[..|args| - 1], parse);
      var last := parse(args[|args| - 1]);
      if front.Err? then front
      else if last.Err? then Err(last.error)
      else Ok(front.value + [last.value])
  }

  function ParseAll(args: seq<string>): Result<seq<(int, int)>, string> {
    ParseEach(args, ParseResolve)
  }

  /** The loop of `main` over the `--resolve` arguments. */
  method ParseResolutions(args: seq<string>) returns (r: Result<seq<(int, int)>, string>)
    ensures r == ParseAll(args)
  {
    var resolutions: seq<(int, int)> := [];
    for i := 0 to |args|
      invariant ParseEach(args[..i], ParseResolve) == Ok(resolutions)
    {
      assert args[..i + 1][..i] == args[..i];
      var parsed := ParseResolve(args[i]);
      if parsed.Err? {
        r := Err(parsed.error);
        FirstErrorStays(args, ParseResolve, i + 1, parsed.error);
        return;
      }
      resolutions := resolutions + [parsed.value];
    }
    assert args[..|args|] == args;
    r := Ok(resolutions);
  }

  /** Once a prefix fails, every longer prefix fails with the same error. */
  lemma {:induction false} FirstErrorStays<T>(args: seq<string>, parse: string -> Result<T, string>, i: nat, e: string)
    requires i <= |args| && ParseEach(args[..i], parse) == Err(e)
    ensures ParseEach(args, parse) == Err(e)
    decreases |args| - i
  {
    if i < |args| {
      assert args[..i + 1][..i] == args[..i];
      FirstErrorStays(args, parse, i + 1, e);
    } else {
      assert args[..i] == args;
    }
  }

  /** All arguments are accepted iff each one is, and then the results come in argument order. */
  lemma {:induction false} ParseEachSpec<T>(args: seq<string>, parse: string -> Result<T, string>)
    ensures ParseEach(args, parse).Ok? <==> forall i :: 0 <= i < |args| ==> parse(args[i]).Ok?
    ensures ParseEach(args, parse).Ok? ==>
      |ParseEach(args, parse).value| == |args|
      && forall i :: 0 <= i < |args| ==> ParseEach(args, parse).value[i] == parse(args[i]).value
  {
    if args != [] {
      var front := args[..|args| - 1];
      var last := args[|args| - 1];
      ParseEachSpec(front, parse);
      var pf := ParseEach(front, parse);
      var pl := parse(last);
      if pf.Err? {
        var i :| 0 <= i < |front| && !parse(front[i]).Ok?;
        assert args[i] == front[i];
      } else if pl.Ok? {
        assert ParseEach(args, parse).value == pf.value + [pl.value];
        forall i | 0 <= i < |args|
          ensures parse(args[i]).Ok? && ParseEach(args, parse).value[i] == parse(args[i]).value
        {
          if i < |front| {
            assert args[i] == front[i];
          }
        }
      }
    }
  }

  // ---------------------------------------------------------------------------
  // _apply_cli_resolutions
  // ---------------------------------------------------------------------------

  /** What is printed for one resolution. */
  datatype Note = InvalidIndex(index: int) | Noted(index: int, choice: int)

  function NoteFor(total: nat, resolution: (int, int)): Note {
    var (idx, choice) := resolution;
    if idx < 1 || idx > total then InvalidIndex(idx) else Noted(idx, choice)
  }

  /**
   * `_apply_cli_resolutions`: one note per resolution, in order; the result itself is handed back
   * as it came.
   */
  method ApplyCliResolutions(result: MatchResult, resolutions: seq<(int, int)>) returns (same: MatchResult, notes: seq<Note>)
    ensures same == result
    ensures |notes| == |resolutions|
    ensures forall i :: 0 <= i < |resolutions| ==> notes[i] == NoteFor(|result.matches|, resolutions[i])
  {
    notes := [];
    for i := 0 to |resolutions|
      invariant |notes| == i
      invariant forall j :: 0 <= j < i ==> notes[j] == NoteFor(|result.matches|, resolutions[j])
    {
      var (idx, choice) := resolutions[i];
      if idx < 1 || idx > |result.matches| {
        notes := notes + [InvalidIndex(idx)];
        continue;
      }
      notes := notes + [Noted(idx, choice)];
    }
    same := result;
  }

  /** An index is reported invalid iff it is below 1 or beyond the number of matches. */
  lemma NoteSpec(total: nat, idx: int, choice: int)
    ensures NoteFor(total, (idx, choice)).InvalidIndex? <==> idx < 1 || idx > total
    ensures NoteFor(total, (idx, choice)).index == idx
    ensures NoteFor(total, (idx, choice)).Noted? ==> NoteFor(total, (idx, choice)).choice == choice
  {
  }

  // ---------------------------------------------------------------------------
  // _fetch_songs
  // ---------------------------------------------------------------------------

  /** The songs stored per date by the day cache. */
  class DayCache {
    var stored: map<string, seq<Song>>

    constructor(stored: map<string, seq<Song>>)
      ensures this.stored == stored
    {
      this.stored := stored;
    }

    method Get(date: string) returns (r: Option<seq<Song>>)
      ensures r == EntryOf(stored, date)
    {
      if date in stored {
        return Some(stored[date]);
      }
      return None;
    }

    method Set(date: string, songs: seq<Song>)
      modifies this
      ensures stored == old(stored)[date := songs]
    {
      stored := stored[date := songs];
    }
  }

  function EntryOf(stored: map<string, seq<Song>>, date: string): Option<seq<Song>> {
    if date in stored then Some(stored[date]) else None
  }

  /** The songs a fetch returns and the day cache's entry for the date afterwards. */
  datatype Fetch = Fetch(songs: seq<Song>, entry: Option<seq<Song>>)

  /**
   * `_fetch_songs` as written, with `day` what the feed returns for the date: a hit is filtered
   * again, but a miss stores the list `fetch_range` has already narrowed to the requested window.
   */
  function FetchAsWritten(day: seq<Song>, entry: Option<seq<Song>>, cached: bool, start: Option<TimeOfDay>, end: Option<TimeOfDay>): Fetch {
    if cached && entry.Some? then Fetch(TimeFilter(entry.value, start, end), entry)
    else
      var songs := TimeFilter(day, start, end);
      Fetch(songs, if cached then Some(songs) else entry)
  }

  /** `_fetch_songs` with the day stored whole on a miss, so that the date's entry is always the full day. */
  function FetchDaySongs(day: seq<Song>, entry: Option<seq<Song>>, cached: bool, start: Option<TimeOfDay>, end: Option<TimeOfDay>): Fetch {
    if cached && entry.Some? then Fetch(TimeFilter(entry.value, start, end), entry)
    else Fetch(TimeFilter(day, start, end), if cached then Some(day) else entry)
  }

  /** The cache is consulted only with `--cached` (`cache` non-null). */
  method FetchSongsAsWritten(day: seq<Song>, cache: DayCache?, date: string, start: Option<TimeOfDay>, end: Option<TimeOfDay>)
    returns (songs: seq<Song>, fetched: bool)
    modifies cache
    ensures cache == null ==> fetched && songs == TimeFilter(day, start, end)
    ensures cache != null ==>
      && (fetched <==> date !in old(cache.stored))
      && Fetch(songs, EntryOf(cache.stored, date)) == FetchAsWritten(day, EntryOf(old(cache.stored), date), true, start, end)
      && (forall d :: d != date ==> EntryOf(cache.stored, d) == EntryOf(old(cache.stored), d))
      && cache.stored == if date in old(cache.stored) then old(cache.stored) else old(cache.stored)[date := TimeFilter(day, start, end)]
  {
    var hit: Option<seq<Song>> := None;
    if cache != null {
      hit := cache.Get(date);
    }
    if hit.None? {
      songs := FilterByTime(day, start, end);
      fetched := true;
      if cache != null {
        cache.Set(date, songs);
      }
    } else {
      songs := FilterByTime(hit.value, start, end);
      fetched := false;
    }
  }

  /**
   * `_fetch_songs`: on a hit no fetch and the cached day filtered by the window; on a miss the
   * day is fetched, stored whole when caching, and filtered.
   */
  method FetchSongs(day: seq<Song>, cache: DayCache?, date: string, start: Option<TimeOfDay>, end: Option<TimeOfDay>)
    returns (songs: seq<Song>, fetched: bool)
    modifies cache
    ensures cache == null ==> fetched && songs == TimeFilter(day, start, end)
    ensures cache != null ==>
      && (fetched <==> date !in old(cache.stored))
      && Fetch(songs, EntryOf(cache.stored, date)) == FetchDaySongs(day, EntryOf(old(cache.stored), date), true, start, end)
      && (forall d :: d != date ==> EntryOf(cache.stored, d) == EntryOf(old(cache.stored), d))
      && cache.stored == if date in old(cache.stored) then old(cache.stored) else old(cache.stored)[date := day]
  {
    var hit: Option<seq<Song>> := None;
    if cache != null {
      hit := cache.Get(date);
    }
    if hit.None? {
      fetched := true;
      if cache != null {
        cache.Set(date, day);
      }
      songs := FilterByTime(day, start, end);
    } else {
      songs := FilterByTime(hit.value, start, end);
      fetched := false;
    }
  }

  /** A requested window. */
  datatype Window = Window(start: Option<TimeOfDay>, end: Option<TimeOfDay>)

  /** The songs of successive cached runs over one date, each with its own window. */
  function CachedRuns(day: seq<Song>, entry: Option<seq<Song>>, runs: seq<Window>): seq<seq<Song>>
    decreases |runs|
  {
    if runs == [] then []
    else
      var f := FetchDaySongs(day, entry, true, runs[0].start, runs[0].end);
      [f.songs] + CachedRuns(day, f.entry, runs[1..])
  }

  /**
   * With the day stored whole, every cached run returns what a run without the cache returns for
   * its window, whatever windows the earlier runs asked for.
   */
  lemma {:induction false} CachedRunsAgree(day: seq<Song>, entry: Option<seq<Song>>, runs: seq<Window>)
    requires entry.None? || entry == Some(day)
    ensures |CachedRuns(day, entry, runs)| == |runs|
    ensures forall i :: 0 <= i < |runs| ==>
      CachedRuns(day, entry, runs)[i] == FetchDaySongs(day, None, false, runs[i].start, runs[i].end).songs
    decreases |runs|
  {
    if runs != [] {
      var f := FetchDaySongs(day, entry, true, runs[0].start, runs[0].end);
      assert f.entry == Some(day);
      CachedRunsAgree(day, f.entry, runs[1..]);
      var rs := CachedRuns(day, entry, runs);
      assert forall i :: 1 <= i < |runs| ==> rs[i] == CachedRuns(day, f.entry, runs[1..])[i - 1] && runs[i] == runs[1..][i - 1];
    }
  }

  /** One early and one late song of the same day. */
  function Early(): Song { Song("Early Song", "Artist", "", 200000, DateTime(2024, 1, 15, TimeOfDay(9, 0, 0))) }

  function Late(): Song { Song("Late Song", "Artist", "", 200000, DateTime(2024, 1, 15, TimeOfDay(15, 0, 0))) }

  /**
   * As written, a first cached run from 14:00 stores only the late song under the date; a second
   * cached run without a window then returns the late song alone, where the day has both.
   */
  lemma StaleWindowCounterexample()
    ensures var day := [Early(), Late()];
      var first := FetchAsWritten(day, None, true, Some(TimeOfDay(14, 0, 0)), None);
      var second := FetchAsWritten(day, first.entry, true, None, None);
      && first.songs == [Late()]
      && first.entry == Some([Late()])
      && second.songs == [Late()]
      && FetchAsWritten(day, None, false, None, None).songs == [Early(), Late()]
  {
    var day := [Early(), Late()];
    var w := InRange(Some(TimeOfDay(14, 0, 0)), None);
    assert !w(Early()) && w(Late());
    assert Filter(day, w) == [Late()] by {
      assert day[1..] == [Late()];
      assert Filter([Late()], w) == [Late()];
    }
    assert TimeFilter([Late()], None, None) == [Late()];
    FilterKeepsAll(day, InRange(None, None));
  }

  // ---------------------------------------------------------------------------
  // _create_playlist
  // ---------------------------------------------------------------------------

  function TrackUri(m: Match): string {
    if m.track.Some? then m.track.value.uri else ""
  }

  /** `[m.track.uri for m in result.matches if m.track]`: a track object is always truthy. */
  function TrackUris(ms: seq<Match>): seq<string> {
    Map(Filter(ms, HasTrack), TrackUri)
  }

  /** One URI per match with a track, from that track, in match order. */
  lemma {:induction false} TrackUrisSpec(ms: seq<Match>)
    ensures |TrackUris(ms)| == FoundCount(ms)
    ensures TrackUris(ms) == [] <==> forall i :: 0 <= i < |ms| ==> ms[i].track.None?
    ensures forall m :: m in ms && m.track.Some? ==> m.track.value.uri in TrackUris(ms)
  {
    CountIsFilterLength(ms, HasTrack);
    FilterEmpty(ms, HasTrack);
    forall m | m in ms && m.track.Some? ensures m.track.value.uri in TrackUris(ms) {
      FilterMembers(ms, HasTrack, m);
      var f := Filter(ms, HasTrack);
      var k :| 0 <= k < |f| && f[k] == m;
      assert TrackUris(ms)[k] == m.track.value.uri;
    }
  }

  /** Appending a match adds its URI at the end exactly when it has a track. */
  lemma TrackUrisSnoc(ms: seq<Match>, m: Match)
    ensures TrackUris(ms + [m]) == TrackUris(ms) + (if m.track.Some? then [m.track.value.uri] else [])
  {
    FilterConcat(ms, [m], HasTrack);
    MapSnoc(Filter(ms, HasTrack), m, TrackUri);
  }

  /** `name or f"KUTX {date}"`. */
  function PlaylistName(name: Option<string>, date: string): string {
    if name.Some? && name.value != "" then name.value else "KUTX " + date
  }

  /** The description `_create_playlist` gives the new playlist. */
  function PlaylistDescription(date: string): string {
    "KUTX playlist from " + date
  }

  /** The requests a publication sends: the public playlist is created, then its tracks go out in batches. */
  function PublishRequests(ms: seq<Match>, name: Option<string>, date: string, playlistId: string): seq<Request> {
    [NewPlaylist(PlaylistName(name, date), PlaylistDescription(date), true)] + AddRequests(playlistId, Batches(TrackUris(ms)))
  }

  /** A given non-empty name is kept; a missing or empty one becomes "KUTX " and the date. */
  lemma PlaylistNameSpec(name: Option<string>, date: string)
    ensures name.Some? && name.value != "" ==> PlaylistName(name, date) == name.value
    ensures name.None? || name.value == "" ==> PlaylistName(name, date) == "KUTX " + date
    ensures PlaylistName(name, date) != ""
  {
  }

  /**
   * A publication first creates the public playlist under its name and description, then adds
   * every track URI of the matches, in match order, to that playlist.
   */
  lemma PublishRequestsSpec(ms: seq<Match>, name: Option<string>, date: string, playlistId: string)
    ensures var rs := PublishRequests(ms, name, date, playlistId);
      && rs[0] == NewPlaylist(PlaylistName(name, date), "KUTX playlist from " + date, true)
      && AddedUris(rs) == TrackUris(ms)
      && (forall k :: 1 <= k < |rs| ==> rs[k].AddItems? && rs[k].playlistId == playlistId)
  {
    var rs := PublishRequests(ms, name, date, playlistId);
    var adds := AddRequests(playlistId, Batches(TrackUris(ms)));
    AddRequestsCarryUris(playlistId, Batches(TrackUris(ms)));
    BatchesSpec(TrackUris(ms));
    assert rs[1..] == adds;
    assert forall k :: 1 <= k < |rs| ==> rs[k] == adds[k - 1];
  }

  /** Why a run stops with exit status 1 (or, for a bad `--resolve`, as a usage error). */
  datatype RunError = BadParameter(message: string) | NoSongs | NoCredentials | NoTracks

  /** What `print_playlist_created` reports. */
  datatype Created = Created(name: string, url: string, added: nat)

  /** The playlist `_create_playlist` would make for these matches, or why it stops. */
  function PlaylistPlan(configured: bool, ms: seq<Match>, name: Option<string>, date: string, playlistId: string): Result<Created, RunError> {
    if !configured then Err(NoCredentials)
    else if TrackUris(ms) == [] then Err(NoTracks)
    else Ok(Created(PlaylistName(name, date), PlaylistUrl(playlistId), |TrackUris(ms)|))
  }

  /**
   * Credentials are checked before anything else, so an unconfigured client stops even without
   * tracks; a published playlist holds as many tracks as there are matches with a track.
   */
  lemma PlaylistPlanSpec(configured: bool, ms: seq<Match>, name: Option<string>, date: string, playlistId: string)
    ensures !configured ==> PlaylistPlan(configured, ms, name, date, playlistId) == Err(NoCredentials)
    ensures configured && (forall i :: 0 <= i < |ms| ==> ms[i].track.None?) ==>
      PlaylistPlan(configured, ms, name, date, playlistId) == Err(NoTracks)
    ensures PlaylistPlan(configured, ms, name, date, playlistId).Ok? ==>
      PlaylistPlan(configured, ms, name, date, playlistId).value.added == FoundCount(ms) > 0
  {
    TrackUrisSpec(ms);
  }

  /**
   * `_create_playlist`: `playlistId` is the id the Web API gives the new playlist. Nothing is
   * sent without credentials or without tracks; otherwise the URIs go out in batches.
   */
  method CreatePlaylist(client: SpotifyClient, result: MatchResult, name: Option<string>, date: string, playlistId: string)
    returns (r: Result<Created, RunError>)
    modifies client
    ensures r == PlaylistPlan(IsConfigured(client.env), result.matches, name, date, playlistId)
    ensures r.Err? ==> client.sent == old(client.sent) && client.connected == old(client.connected)
    ensures r.Ok? ==> client.sent == old(client.sent) + PublishRequests(result.matches, name, date, playlistId) && client.connected
  {
    if !IsConfigured(client.env) {
      return Err(NoCredentials);
    }
    var uris := TrackUris(result.matches);
    if uris == [] {
      return Err(NoTracks);
    }
    var playlistName := PlaylistName(name, date);
    var created := client.CreatePlaylist(playlistName, PlaylistDescription(date), true, playlistId);
    var added := client.AddTracks(created.value, uris);
    var url := PlaylistUrl(created.value);
    r := Ok(Created(playlistName, url, added.value));
  }

  // ---------------------------------------------------------------------------
  // main
  // ---------------------------------------------------------------------------

  /** The options of the command; `date` is the date as `YYYY-MM-DD`. */
  datatype Args = Args(
    date: string,
    start: Option<TimeOfDay>,
    end: Option<TimeOfDay>,
    name: Option<string>,
    preview: bool,
    manual: bool,
    cached: bool,
    resolve: seq<string>)

  /** How a run ends: stopped, shown without publishing (`--preview`, `--manual`), or published. */
  datatype RunOutcome =
    | Failed(error: RunError)
    | Previewed(matches: seq<Match>, notes: seq<Note>)
    | Published(matches: seq<Match>, notes: seq<Note>, created: Created)

  /**
   * The second half of `main`, once there are songs: match them against the resolution store,
   * note the resolutions, and publish unless previewing.
   */
  method MatchAndPublish(args: Args, resolutions: seq<(int, int)>, songs: seq<Song>, store: ResolutionCache,
                         client: SpotifyClient, catalog: Catalog, playlistId: string)
    returns (outcome: RunOutcome)
    requires catalog.configured == IsConfigured(client.env)
    modifies store, client
    ensures var ms := MatchAll(songs, Some(old(store.Contents())), catalog);
      && ((args.manual || args.preview) ==> outcome == Previewed(ms, Map(resolutions, NoteOf(|songs|))))
      && (!args.manual && !args.preview ==>
            var plan := PlaylistPlan(catalog.configured, ms, args.name, args.date, playlistId);
            && (plan.Err? ==> outcome == Failed(plan.error))
            && (plan.Ok? ==> outcome == Published(ms, Map(resolutions, NoteOf(|songs|)), plan.value)))
    ensures store.Contents() == old(store.Contents()) && store.file == old(store.file)
    ensures var searches := BatchRequests(songs, Some(old(store.Contents())), catalog);
      && client.sent == old(client.sent) + searches
           + (if outcome.Published? then PublishRequests(outcome.matches, args.name, args.date, playlistId) else [])
      && client.connected == (old(client.connected) || searches != [] || outcome.Published?)
  {
    var result := MatchSongs(songs, catalog, store, client);
    var notes;
    result, notes := ApplyCliResolutions(result, resolutions);
    if args.manual || args.preview {
      return Previewed(result.matches, notes);
    }
    var created := CreatePlaylist(client, result, args.name, args.date, playlistId);
    if created.Err? {
      return Failed(created.error);
    }
    outcome := Published(result.matches, notes, created.value);
  }

  function NoteOf(total: nat): ((int, int)) -> Note {
    r => NoteFor(total, r)
  }

  /**
   * `main`: parse the resolutions, fetch (through the day cache with `--cached`), stop on no
   * songs, then match and publish. `day` is the feed's answer for the date and `catalog` the
   * client's searches, whose configuration is the client's.
   */
  method Run(args: Args, day: seq<Song>, dayCache: DayCache, store: ResolutionCache, client: SpotifyClient, catalog: Catalog, playlistId: string)
    returns (outcome: RunOutcome)
    requires catalog.configured == IsConfigured(client.env)
    modifies dayCache, store, client
    ensures ParseAll(args.resolve).Err? ==>
      outcome == Failed(BadParameter(ParseAll(args.resolve).error)) && dayCache.stored == old(dayCache.stored)
    ensures ParseAll(args.resolve).Ok? ==>
      var fetch := FetchDaySongs(day, EntryOf(old(dayCache.stored), args.date), args.cached, args.start, args.end);
      var ms := MatchAll(fetch.songs, Some(old(store.Contents())), catalog);
      var notes := Map(ParseAll(args.resolve).value, NoteOf(|fetch.songs|));
      && (fetch.songs == [] ==> outcome == Failed(NoSongs))
      && (fetch.songs != [] && (args.manual || args.preview) ==> outcome == Previewed(ms, notes))
      && (fetch.songs != [] && !args.manual && !args.preview ==>
            var plan := PlaylistPlan(catalog.configured, ms, args.name, args.date, playlistId);
            && (plan.Err? ==> outcome == Failed(plan.error))
            && (plan.Ok? ==> outcome == Published(ms, notes, plan.value)))
    ensures dayCache.stored ==
      if ParseAll(args.resolve).Ok? && args.cached && args.date !in old(dayCache.stored)
      then old(dayCache.stored)[args.date := day] else old(dayCache.stored)
    ensures store.Contents() == old(store.Contents()) && store.file == old(store.file)
    ensures ParseAll(args.resolve).Err? ==> client.sent == old(client.sent) && client.connected == old(client.connected)
    ensures ParseAll(args.resolve).Ok? ==>
      var fetch := FetchDaySongs(day, EntryOf(old(dayCache.stored), args.date), args.cached, args.start, args.end);
      var searches := BatchRequests(fetch.songs, Some(old(store.Contents())), catalog);
      && client.sent == old(client.sent) + searches
           + (if outcome.Published? then PublishRequests(outcome.matches, args.name, args.date, playlistId) else [])
      && client.connected == (old(client.connected) || searches != [] || outcome.Published?)
  {
    var parsed := ParseResolutions(args.resolve);
    if parsed.Err? {
      return Failed(BadParameter(parsed.error));
    }
    var cache: DayCache? := if args.cached then dayCache else null;
    var songs, _ := FetchSongs(day, cache, args.date, args.start, args.end);
    if songs == [] {
      return Failed(NoSongs);
    }
    outcome := MatchAndPublish(args, parsed.value, songs, store, client, catalog, playlistId);
  }
}
