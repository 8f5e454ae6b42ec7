/**
 * The catalog client (src/kutx2spotify/spotify.py): whether credentials are configured, the
 * search query text, reading a track out of a search response, adding tracks to a playlist in
 * batches of at most 100, and the playlist URL. The environment is a map; the Web API is not
 * called: a search's response is an input, and the client records every request it would send.
 */
module Spotify {
  import opened Wrappers
  import opened Text
  import opened Seqs
  import opened Models

  /** `SPOTIFY_ENV_VARS`, in declared order. */
  const EnvVars: seq<string> := ["SPOTIPY_CLIENT_ID", "SPOTIPY_CLIENT_SECRET", "SPOTIPY_REDIRECT_URI"]

  /** `SPOTIFY_ADD_TRACKS_LIMIT`: the most URIs one add request may carry. */
  const AddTracksLimit := 100

  const PlaylistUrlPrefix := "https://open.spotify.com/playlist/"

  // ---------------------------------------------------------------------------
  // Configuration
  // ---------------------------------------------------------------------------

  /** `os.environ.get(var)` is truthy: the variable is set and not empty. */
  predicate VarSet(env: map<string, string>, v: string) {
    v in env && env[v] != ""
  }

  function Unset(env: map<string, string>): string -> bool {
    v => !VarSet(env, v)
  }

  /** `is_configured`. */
  predicate IsConfigured(env: map<string, string>) {
    forall i :: 0 <= i < |EnvVars| ==> VarSet(env, EnvVars[i])
  }

  /** The variables `SpotifyNotConfiguredError` lists. */
  function MissingVars(env: map<string, string>): seq<string> {
    Filter(EnvVars, Unset(env))
  }

  /** The message of `SpotifyNotConfiguredError`, naming the missing variables. */
  function NotConfiguredMessage(missing: seq<string>): string {
    "Spotify API credentials not configured. Missing environment variables: " + Join(missing, ", ")
  }

  /**
   * The message names every unset or empty variable, and it lists nothing beyond its opening
   * exactly when all three are set.
   */
  lemma NotConfiguredMessageNamesMissing(env: map<string, string>)
    ensures forall v :: v in EnvVars && !VarSet(env, v) ==> Contains(NotConfiguredMessage(MissingVars(env)), v)
    ensures IsConfigured(env) <==> NotConfiguredMessage(MissingVars(env)) == NotConfiguredMessage([])
  {
    var missing := MissingVars(env);
    MissingVarsSpec(env);
    var opening := NotConfiguredMessage([]);
    assert opening == "Spotify API credentials not configured. Missing environment variables: " + "";
    forall v | v in EnvVars && !VarSet(env, v)
      ensures Contains(NotConfiguredMessage(missing), v)
    {
      var k :| 0 <= k < |missing| && missing[k] == v;
      JoinContainsParts(missing, ", ", k);
      ContainsInSuffix("Spotify API credentials not configured. Missing environment variables: ", Join(missing, ", "), v);
    }
    if !IsConfigured(env) {
      JoinContainsParts(missing, ", ", 0);
      assert missing[0] in EnvVars;
      assert |Join(missing, ", ")| > 0;
      assert |NotConfiguredMessage(missing)| > |opening|;
    }
  }

  /** With no variable set the message lists all three, in declared order. */
  lemma NotConfiguredMessageAllMissing()
    ensures MissingVars(map[]) == EnvVars
    ensures NotConfiguredMessage(MissingVars(map[])) ==
      "Spotify API credentials not configured. Missing environment variables: "
      + EnvVars[0] + ", " + EnvVars[1] + ", " + EnvVars[2]
  {
    var none: map<string, string> := map[];
    var p := Unset(none);
    assert Filter(EnvVars[2..], p) == [EnvVars[2]] + Filter(EnvVars[3..], p);
    assert Filter(EnvVars[1..], p) == [EnvVars[1]] + Filter(EnvVars[2..], p);
    assert Filter(EnvVars, p) == [EnvVars[0]] + Filter(EnvVars[1..], p);
    assert MissingVars(none) == EnvVars;
    assert Join(EnvVars[2..], ", ") == EnvVars[2];
    assert Join(EnvVars[1..], ", ") == EnvVars[1] + ", " + EnvVars[2];
    assert Join(EnvVars, ", ") == EnvVars[0] + ", " + (EnvVars[1] + ", " + EnvVars[2]);
  }

  /**
   * Configured iff nothing is missing; the missing list names exactly the unset or empty
   * variables, in declared order.
   */
  lemma MissingVarsSpec(env: map<string, string>)
    ensures IsConfigured(env) <==> MissingVars(env) == []
    ensures forall v :: v in MissingVars(env) <==> v in EnvVars && !VarSet(env, v)
    ensures IsSubsequence(MissingVars(env), EnvVars)
  {
    FilterEmpty(EnvVars, Unset(env));
    forall v ensures v in MissingVars(env) <==> v in EnvVars && !VarSet(env, v) {
      FilterMembers(EnvVars, Unset(env), v);
    }
    FilterIsSubsequence(EnvVars, Unset(env));
  }

  // ---------------------------------------------------------------------------
  // Queries
  // ---------------------------------------------------------------------------

  /** The query of `search_track`: the album term is added only for a non-empty album. */
  function BuildQuery(title: string, artist: string, album: Option<string>): string {
    var base := "track:\"" + title + "\" artist:\"" + artist + "\"";
    if album.Some? && album.value != "" then base + " album:\"" + album.value + "\"" else base
  }

  /**
   * With an album the query is the album-less query followed by the album term; no album and an
   * empty album give the same query.
   */
  lemma QueryShape(title: string, artist: string, album: string)
    ensures album != "" ==>
      BuildQuery(title, artist, Some(album)) == BuildQuery(title, artist, None) + " album:\"" + album + "\""
    ensures BuildQuery(title, artist, Some("")) == BuildQuery(title, artist, None)
    ensures BuildQuery(title, artist, None) == "track:\"" + title + "\" artist:\"" + artist + "\""
  {
  }

  // ---------------------------------------------------------------------------
  // Reading a track out of a response
  // ---------------------------------------------------------------------------

  datatype ArtistRecord = ArtistRecord(name: Option<string>)

  datatype AlbumRecord = AlbumRecord(name: Option<string>)

  /** A track object of a search response; `None` is a key it does not have. */
  datatype TrackRecord = TrackRecord(
    id: Option<string>,
    uri: Option<string>,
    name: Option<string>,
    artists: Option<seq<ArtistRecord>>,
    album: Option<AlbumRecord>,
    durationMs: Option<int>)

  datatype TracksPage = TracksPage(items: Option<seq<TrackRecord>>)

  datatype SearchResponse = SearchResponse(tracks: Option<TracksPage>)

  /**
   * Why a call fails: missing credentials (the error carries the missing variables, its message
   * is `NotConfiguredMessage` of them), or Python's `KeyError` on a required key.
   */
  datatype ClientError = NotConfigured(missing: seq<string>) | MissingKey(key: string)

  /**
   * `_parse_track`. The artist is read first, then id, uri and name, so a missing key is reported
   * in that order. The popularity is not read and keeps its default of 0.
   */
  function ParseTrack(t: TrackRecord): Result<Track, ClientError> {
    var artists := t.artists.GetOr([]);
    if artists != [] && artists[0].name.None? then Err(MissingKey("name"))
    else
      var artistName := if artists != [] then artists[0].name.value else "";
      if t.id.None? then Err(MissingKey("id"))
      else if t.uri.None? then Err(MissingKey("uri"))
      else if t.name.None? then Err(MissingKey("name"))
      else
        var album := if t.album.Some? then t.album.value.name.GetOr("") else "";
        Ok(Track(t.id.value, t.uri.value, t.name.value, artistName, album, t.durationMs.GetOr(0)))
  }

  /**
   * A record with its id, uri and name, and a name on its first artist if it has one, reads as a
   * track carrying them verbatim; a missing artist list, album or duration reads as "", "" and 0;
   * every other record is a `KeyError`.
   */
  lemma ParseTrackSpec(t: TrackRecord)
    ensures var artists := t.artists.GetOr([]);
      ParseTrack(t).Ok? <==> t.id.Some? && t.uri.Some? && t.name.Some? && (artists == [] || artists[0].name.Some?)
    ensures ParseTrack(t).Ok? ==>
      var track := ParseTrack(t).value;
      && track.id == t.id.value && track.uri == t.uri.value && track.title == t.name.value
      && (t.artists.None? || t.artists.value == [] ==> track.artist == "")
      && (t.artists.Some? && t.artists.value != [] ==> track.artist == t.artists.value[0].name.value)
      && (t.album.None? || t.album.value.name.None? ==> track.album == "")
      && (t.album.Some? && t.album.value.name.Some? ==> track.album == t.album.value.name.value)
      && (t.durationMs.None? ==> track.durationMs == 0)
      && (t.durationMs.Some? ==> track.durationMs == t.durationMs.value)
      && track.popularity == 0
  {
  }

  /** The track object the Web API would answer for `t`; it carries no popularity. */
  function RecordOf(t: Track): TrackRecord {
    TrackRecord(Some(t.id), Some(t.uri), Some(t.title), Some([ArtistRecord(Some(t.artist))]),
      Some(AlbumRecord(Some(t.album))), Some(t.durationMs))
  }

  /** Reading back the track object of a track gives that track, up to the popularity it drops. */
  lemma ParseTrackRoundTrip(t: Track)
    ensures ParseTrack(RecordOf(t)) == Ok(t.(popularity := 0))
  {
  }

  /** What `search_track` makes of the response: nothing without items, else the first item read as a track. */
  function FirstTrack(response: SearchResponse): Result<Option<Track>, ClientError> {
    var items := if response.tracks.Some? then response.tracks.value.items.GetOr([]) else [];
    if items == [] then Ok(None)
    else
      var parsed := ParseTrack(items[0]);
      if parsed.Err? then Err(parsed.error) else Ok(Some(parsed.value))
  }

  /** Only the first item matters: the items after it are never read. */
  lemma FirstTrackSpec(response: SearchResponse, first: TrackRecord, rest: seq<TrackRecord>)
    ensures FirstTrack(SearchResponse(None)) == Ok(None)
    ensures FirstTrack(SearchResponse(Some(TracksPage(None)))) == Ok(None)
    ensures FirstTrack(SearchResponse(Some(TracksPage(Some([]))))) == Ok(None)
    ensures var r := FirstTrack(SearchResponse(Some(TracksPage(Some([first] + rest)))));
      && (ParseTrack(first).Ok? ==> r == Ok(Some(ParseTrack(first).value)))
      && (ParseTrack(first).Err? ==> r == Err(ParseTrack(first).error))
  {
  }

  // ---------------------------------------------------------------------------
  // Batching
  // ---------------------------------------------------------------------------

  function Min(a: int, b: int): int { if a < b then a else b }

  /** The slices `uris[i:i+100]` for `i` in `range(0, len(uris), 100)`. */
  function Batches(uris: seq<string>): seq<seq<string>>
    decreases |uris|
  {
    if uris == [] then []
    else
      var k := Min(|uris|, AddTracksLimit);
      [uris[..k]] + Batches(uris[k..])
  }

  /**
   * The batches are non-empty consecutive slices of at most 100 URIs that concatenate to the
   * input; there are ceil(n/100) of them, every one but the last holding exactly 100.
   */
  lemma {:induction false} BatchesSpec(uris: seq<string>)
    ensures Flatten(Batches(uris)) == uris
    ensures |Batches(uris)| == (|uris| + 99) / 100
    ensures forall j :: 0 <= j < |Batches(uris)| ==> 0 < |Batches(uris)[j]| <= 100
    ensures forall j :: 0 <= j < |Batches(uris)| - 1 ==> |Batches(uris)[j]| == 100
    decreases |uris|
  {
    if uris != [] {
      var k := Min(|uris|, AddTracksLimit);
      BatchesSpec(uris[k..]);
      assert uris[..k] + uris[k..] == uris;
      var bs := Batches(uris);
      assert bs == [uris[..k]] + Batches(uris[k..]);
      assert forall j :: 1 <= j < |bs| ==> bs[j] == Batches(uris[k..])[j - 1];
    }
  }

  /** The batch that starts at position `i`, as the loop of `add_tracks` slices it. */
  lemma BatchesFrom(uris: seq<string>, i: nat)
    requires i < |uris|
    ensures Batches(uris[i..]) == [uris[i..Min(i + 100, |uris|)]] + Batches(uris[Min(i + 100, |uris|)..])
  {
    var k := Min(|uris| - i, AddTracksLimit);
    assert uris[i..][..k] == uris[i..i + k];
    assert uris[i..][k..] == uris[i + k..];
  }

  // ---------------------------------------------------------------------------
  // The client
  // ---------------------------------------------------------------------------

  /** A request the client sends to the Web API. */
  datatype Request =
    | Search(query: string, limit: nat)
    | NewPlaylist(name: string, description: string, public: bool)
    | AddItems(playlistId: string, uris: seq<string>)

  function AddRequests(playlistId: string, batches: seq<seq<string>>): seq<Request> {
    Map(batches, (b: seq<string>) => AddItems(playlistId, b))
  }

  lemma AddRequestsSnoc(playlistId: string, batches: seq<seq<string>>, batch: seq<string>)
    ensures AddRequests(playlistId, batches + [batch]) == AddRequests(playlistId, batches) + [AddItems(playlistId, batch)]
  {
    MapSnoc(batches, batch, (b: seq<string>) => AddItems(playlistId, b));
  }

  /** The URIs the add requests of a log carry, in the order they were sent. */
  function AddedUris(rs: seq<Request>): seq<string> {
    if rs == [] then [] else (if rs[0].AddItems? then rs[0].uris else []) + AddedUris(rs[1..])
  }

  /** The add requests of a batching carry exactly the batched URIs, in order, every one to the same playlist. */
  lemma {:induction false} AddRequestsCarryUris(playlistId: string, batches: seq<seq<string>>)
    ensures AddedUris(AddRequests(playlistId, batches)) == Flatten(batches)
    ensures forall k :: 0 <= k < |AddRequests(playlistId, batches)| ==>
      AddRequests(playlistId, batches)[k].AddItems? && AddRequests(playlistId, batches)[k].playlistId == playlistId
  {
    if batches != [] {
      AddRequestsCarryUris(playlistId, batches[1..]);
      assert AddRequests(playlistId, batches)[1..] == AddRequests(playlistId, batches[1..]);
    }
  }

  /** `get_playlist_url`. */
  function PlaylistUrl(playlistId: string): string {
    PlaylistUrlPrefix + playlistId
  }

  /** The id can be read back from the URL: it is whatever follows the fixed prefix. */
  lemma PlaylistUrlReadsBack(playlistId: string)
    ensures |PlaylistUrl(playlistId)| == |PlaylistUrlPrefix| + |playlistId|
    ensures PlaylistUrl(playlistId)[..|PlaylistUrlPrefix|] == "https://open.spotify.com/playlist/"
    ensures PlaylistUrl(playlistId)[|PlaylistUrlPrefix|..] == playlistId
  {
  }

  /**
   * `SpotifyClient`: the authenticated connection is made on first use (`connected`); `sent` is
   * the log of requests issued so far.
   */
  class SpotifyClient {
    const env: map<string, string>
    var connected: bool
    var sent: seq<Request>

    constructor(env: map<string, string>)
      ensures this.env == env && !connected && sent == []
    {
      this.env := env;
      connected := false;
      sent := [];
    }

    /** `_get_client`: fails without credentials, connects once otherwise. */
    method GetClient() returns (r: Result<(), ClientError>)
      modifies this`connected
      ensures !IsConfigured(env) ==> r == Err(NotConfigured(MissingVars(env))) && connected == old(connected)
      ensures IsConfigured(env) ==> r.Ok? && connected
    {
      if !IsConfigured(env) {
        return Err(NotConfigured(MissingVars(env)));
      }
      if !connected {
        connected := true;
      }
      r := Ok(());
    }

    /** The request half of `search_track`: connect, then issue one search with limit 1. */
    method SendSearch(title: string, artist: string, album: Option<string>) returns (r: Result<(), ClientError>)
      modifies this
      ensures !IsConfigured(env) ==>
        r == Err(NotConfigured(MissingVars(env))) && sent == old(sent) && connected == old(connected)
      ensures IsConfigured(env) ==>
        connected && r.Ok? && sent == old(sent) + [Search(BuildQuery(title, artist, album), 1)]
    {
      r := GetClient();
      if r.Err? {
        return;
      }
      var query := BuildQuery(title, artist, album);
      sent := sent + [Search(query, 1)];
    }

    /** `search_track`: one search with limit 1; `response` is what the Web API answers to it. */
    method SearchTrack(title: string, artist: string, album: Option<string>, response: SearchResponse)
      returns (r: Result<Option<Track>, ClientError>)
      modifies this
      ensures !IsConfigured(env) ==>
        r == Err(NotConfigured(MissingVars(env))) && sent == old(sent) && connected == old(connected)
      ensures IsConfigured(env) ==>
        connected && r == FirstTrack(response) && sent == old(sent) + [Search(BuildQuery(title, artist, album), 1)]
    {
      var c := SendSearch(title, artist, album);
      if c.Err? {
        return Err(c.error);
      }
      r := FirstTrack(response);
    }

    /** `search_track_loose`: the same search without an album. */
    method SearchTrackLoose(title: string, artist: string, response: SearchResponse)
      returns (r: Result<Option<Track>, ClientError>)
      modifies this
      ensures !IsConfigured(env) ==>
        r == Err(NotConfigured(MissingVars(env))) && sent == old(sent) && connected == old(connected)
      ensures IsConfigured(env) ==>
        connected && r == FirstTrack(response)
        && sent == old(sent) + [Search("track:\"" + title + "\" artist:\"" + artist + "\"", 1)]
    {
      r := SearchTrack(title, artist, None, response);
    }

    /**
     * `create_playlist`: one request creating the playlist under the signed-in user;
     * `playlistId` is the id the Web API answers with.
     */
    method CreatePlaylist(name: string, description: string, public: bool, playlistId: string)
      returns (r: Result<string, ClientError>)
      modifies this
      ensures !IsConfigured(env) ==>
        r == Err(NotConfigured(MissingVars(env))) && sent == old(sent) && connected == old(connected)
      ensures IsConfigured(env) ==>
        connected && r == Ok(playlistId) && sent == old(sent) + [NewPlaylist(name, description, public)]
    {
      var c := GetClient();
      if c.Err? {
        return Err(c.error);
      }
      sent := sent + [NewPlaylist(name, description, public)];
      r := Ok(playlistId);
    }

    /**
     * `add_tracks`: nothing is sent for an empty list (even without credentials); otherwise one
     * add request per batch, in order, and the count of URIs sent.
     */
    method AddTracks(playlistId: string, uris: seq<string>) returns (r: Result<nat, ClientError>)
      modifies this
      ensures uris == [] ==> r == Ok(0) && sent == old(sent) && connected == old(connected)
      ensures uris != [] && !IsConfigured(env) ==>
        r == Err(NotConfigured(MissingVars(env))) && sent == old(sent) && connected == old(connected)
      ensures uris != [] && IsConfigured(env) ==>
        connected && r == Ok(|uris|) && sent == old(sent) + AddRequests(playlistId, Batches(uris))
    {
      if uris == [] {
        return Ok(0);
      }
      var c := GetClient();
      if c.Err? {
        return Err(c.error);
      }
      var totalAdded := 0;
      var i := 0;
      ghost var done: seq<seq<string>> := [];
      while i < |uris|
        invariant 0 <= i <= |uris|
        invariant totalAdded == i
        invariant Batches(uris) == done + Batches(uris[i..])
        invariant sent == old(sent) + AddRequests(playlistId, done)
        invariant connected
        decreases |uris| - i
      {
        var j := Min(i + AddTracksLimit, |uris|);
        var batch := uris[i..j];
        BatchesFrom(uris, i);
        assert done + Batches(uris[i..]) == (done + [batch]) + Batches(uris[j..]);
        AddRequestsSnoc(playlistId, done, batch);
        sent := sent + [AddItems(playlistId, batch)];
        totalAdded := totalAdded + |batch|;
        done := done + [batch];
        i := j;
      }
      assert uris[|uris|..] == [];
      r := Ok(totalAdded);
    }
  }
}
