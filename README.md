# kutx2spotify, modelled in Dafny

kutx2spotify reads the songs the radio station KUTX played on a given day and finds each one in
the Spotify catalog. It lists the matches and flags the doubtful ones. Then it either shows a
preview or creates a Spotify playlist from the tracks it found.

This project models the core of that program and proves properties about the model:

- Data model: songs, catalog tracks, matches and the run's `MatchResult` (`models.dfy`).
- The resolution store of user-confirmed overrides, and the dictionary form songs are cached in
  (`cache.dfy`).
- The matching engine (`matcher.dfy`). It tries a stored resolution first, then an
  album-verified search, then a broad search. The broad search splits its candidates by a
  ten-second duration tolerance and ranks them by popularity.
- The station feed: reading songs from the day's playlist, and the inclusive time window
  (`kutx.dfy`).
- The catalog client (`spotify.dfy`): the credential check, the search query, reading a track from
  a response, and adding URIs to a playlist in batches of 100.
- The console report as the lines each `print_*` function prints (`output.dfy`).
- The command (`cli.dfy`): `--resolve` parsing, fetching through the day cache, the resolution
  notes, publishing, and `main` as one method, `Cli.Run`.

`text.dfy` and `seqs.dfy` hold what the Python code gets from its built-ins:
- `str.lower` (ASCII letters only) and `str(int)`;
- `int(str)`, `str.split` and `str.join`;
- `str.strip` and the `:2d` / `:02d` number formats;
- list comprehensions as `Filter` and `Map`.

Objects that the program changes in place are classes: `MatchResult`, `ResolutionCache`,
`SpotifyClient`, and the day cache `DayCache`. Their methods carry `modifies` clauses and state
their whole new state. Loops in the source are loops here:
- `match_songs`;
- `fetch_day`;
- the window filter;
- `add_tracks`;
- the `--resolve` loop;
- `_apply_cli_resolutions`.

Each loop's method is proved equal to a specification function. The properties are proved about
those functions.

Everything outside the program is an input. This covers:
- The feed's decoded answer for the day.
- The start-time parser.
- The catalog's two searches. `Matcher.Catalog` holds them as functions of the query fields, with
  the client's configured flag.
- The Web API's answer to a search.
- A new playlist's id.
- `quote_plus`, which appears as the parameter `encode`.

The client does not call the Web API. It appends every request it would send to its `sent` log,
so the contracts can say what was sent and in which order. `main` gives the matcher the same
client it publishes with. Each album-constrained search of `match_songs` goes through
`search_track`, so it lands in the log ahead of the publication requests.

Where the code leaves a question open, or says more than it does, the model follows what the
code does:

- **Popularity ties.** The matcher's docstring (src/kutx2spotify/matcher.py:19) says only that
  the most popular of several candidates is picked. The `max` at src/kutx2spotify/matcher.py:115
  and 120 decides ties: it keeps the first of several equal maxima.
  `Matcher.MostPopularIndex` and `Matcher.FallbackPick` state exactly that.
- **The `popularity` field.** `SpotifyTrack` in src/kutx2spotify/models.py:39-48 declares no such
  field. Yet src/kutx2spotify/matcher.py:115, 120 and 150 read and set it, and
  `_parse_track` (src/kutx2spotify/spotify.py:86-93) never fills it in. The model gives `Track` a
  `popularity` that defaults to 0, which is what the matcher evidently expects. Tracks read from a
  search response therefore have popularity 0, and tracks built from a resolution have 100.
- **The broad search.** The matcher calls `search_tracks` (src/kutx2spotify/matcher.py:97), but
  src/kutx2spotify/spotify.py defines no such method. The model takes the broad search as an input
  function, `Catalog.searchTracks`. It sends nothing through the client, so it adds nothing to the
  `sent` log.
- **The cached-data filter.** The loop in src/kutx2spotify/cli.py:302-311 is the same filter as
  `fetch_range` (src/kutx2spotify/kutx.py:109-124). Both are modelled by `Kutx.FilterByTime`.
- **What the day cache stores on a miss.** Here the model departs from the code on purpose; see
  "Findings" below and the `Cli.Run` line under "Left out". `Cli.Run` uses the corrected
  `Cli.FetchSongs`. The behaviour as written is kept as `Cli.FetchSongsAsWritten`.

## Model

| member | source | states |
|---|---|---|
| Models.FoundPlusNotFound | src/kutx2spotify/models.py:79-87 | found plus not_found equals the number of matches |
| Models.ExactAtMostTotal | src/kutx2spotify/models.py:89-92 | exact_matches never exceeds total |
| Models.IssuesExactly | src/kutx2spotify/models.py:94-97 | issues is the order-preserving sublist of the matches with `has_issue`, holds every one of them, and is empty iff no match has an issue |
| Models.HasIssue | src/kutx2spotify/models.py:59-65 | a match has an issue iff its status is DURATION_MISMATCH or NOT_FOUND; `Models.IssuesExactly`, `Models.MatchResult.Issues` and `Output.MatchLineShape` state what the issue list and the '*' marker make of it |
| Models.CountsAfterAppend | src/kutx2spotify/models.py:74-101 | appending one match changes found, not_found, exact_matches and issues by exactly that match's contribution |
| Models.MatchResult.constructor | src/kutx2spotify/models.py:68-72 | a new result has no matches, every count 0 and no issues |
| Models.MatchResult.Found | src/kutx2spotify/models.py:79-87 | found and not_found add up to total |
| Models.MatchResult.ExactMatches | src/kutx2spotify/models.py:89-92 | exact_matches is at most total |
| Models.MatchResult.Total | src/kutx2spotify/models.py:74-77 | the number of matches; `Models.MatchResult.Found` and `Models.MatchResult.NotFound` state that found and not_found add up to it |
| Models.MatchResult.NotFound | src/kutx2spotify/models.py:84-87 | not_found is total minus found: the matches without a track |
| Models.MatchResult.Issues | src/kutx2spotify/models.py:94-97 | issues keeps the matches in the order they were added, and a match is in it iff it is one of the matches and has an issue |
| Models.MatchResult.Add | src/kutx2spotify/models.py:99-101 | add appends at the end and leaves earlier matches alone; total grows by one, found by one iff the match has a track, and issues gains the match iff it has an issue |
| Models.DisplayReadsBack | src/kutx2spotify/models.py:27-36 | `duration_display` of a non-negative duration reads back as `duration_seconds`: whole minutes, a colon, then seconds as two digits below 60 |
| Models.MinutesSecondsRoundTrip | src/kutx2spotify/models.py:32-36 | the minutes:two-digit-seconds text of a non-negative millisecond count reads back as its whole seconds |
| Models.Song.DurationSeconds | src/kutx2spotify/models.py:27-30 | `duration_ms // 1000`: the largest whole number of seconds not above the duration, also for a negative one |
| Models.Song.DurationDisplay | src/kutx2spotify/models.py:32-36 | minutes, a colon and two-digit seconds; `Models.DisplayReadsBack` states that it reads back as `duration_seconds`, and `Output.FormatAgreesWithDisplay` that it equals `format_duration` |
| Cache.SongToDict | src/kutx2spotify/cache.py:23-31 | a song dictionary has exactly the five keys title, artist, album, duration_ms and played_at |
| Cache.SongDictRoundTrip | src/kutx2spotify/cache.py:23-42 | turning a song into a dictionary and back gives the same song |
| Cache.DictToSong | src/kutx2spotify/cache.py:34-42 | the song a dictionary describes, or the missing key; `Cache.SongDictRoundTrip` and `Cache.DictMissingKeyRejected` state both paths |
| Cache.DictMissingKeyRejected | src/kutx2spotify/cache.py:34-42 | a dictionary without one of the five keys is rejected, and the error names a key it lacks |
| Cache.ResolutionKey | src/kutx2spotify/cache.py:154-159 | `title\|artist\|album` lowercased as a whole; `Cache.ResolutionKeyShape` states its shape |
| Cache.ResolutionKeyShape | src/kutx2spotify/cache.py:154-159 | the key is lowercased title, '\|', lowercased artist, '\|', lowercased album |
| Cache.KeyIgnoresCase | src/kutx2spotify/cache.py:154-159 | songs that differ only in letter case share one key |
| Cache.KeyCanCollide | src/kutx2spotify/cache.py:159 | two different songs (a '\|' moved from title to artist) get the same key |
| Cache.EntryResolution | src/kutx2spotify/cache.py:234-239 | `get` copies URI and album from the entry, and a missing note reads as "" |
| Cache.StoredEntry | src/kutx2spotify/cache.py:250-254 | what `set` writes reads back through `get` as the same resolution |
| Cache.Lookup | src/kutx2spotify/cache.py:219-239 | a lookup hits iff the song's key is stored, and then returns that entry's resolution |
| Cache.SetThenGet | src/kutx2spotify/cache.py:241-255 | after storing a resolution for a song, looking up the song or any case variant of it returns that resolution |
| Cache.SetKeepsOthers | src/kutx2spotify/cache.py:241-255 | storing under one key leaves the lookup of every other key unchanged |
| Cache.SetCount | src/kutx2spotify/cache.py:241-255 | set is an upsert: the count grows by one exactly when the key was new |
| Cache.RemoveCount | src/kutx2spotify/cache.py:257-274 | removing a present key lowers the count by one and keeps every other entry |
| Cache.LoadFile | src/kutx2spotify/cache.py:181-196 | a missing or undecodable file loads as the empty map; otherwise it loads as the decoded map |
| Cache.ResolutionCache.constructor | src/kutx2spotify/cache.py:169-179 | a new store has read nothing yet and holds what its file holds |
| Cache.ResolutionCache.Load | src/kutx2spotify/cache.py:181-196 | `_load` fills the in-memory map on first use and never changes what the store holds |
| Cache.ResolutionCache.Save | src/kutx2spotify/cache.py:198-205 | `_save` rewrites the whole file with the loaded map, and does nothing if nothing was loaded |
| Cache.ResolutionCache.Has | src/kutx2spotify/cache.py:207-217 | true iff the song's key is stored; contents and file are unchanged |
| Cache.ResolutionCache.Get | src/kutx2spotify/cache.py:219-239 | returns the lookup of the song in the store's contents; contents and file are unchanged |
| Cache.ResolutionCache.Set | src/kutx2spotify/cache.py:241-255 | the contents become the old contents with the song's key mapped to the written entry, and the file holds exactly the new contents |
| Cache.ResolutionCache.Remove | src/kutx2spotify/cache.py:257-274 | true iff the key was present; the key is gone afterwards; the file is rewritten only when something was removed |
| Cache.ResolutionCache.Clear | src/kutx2spotify/cache.py:276-286 | returns the old number of entries; the contents and the file become empty |
| Cache.ResolutionCache.Count | src/kutx2spotify/cache.py:288-294 | returns the number of stored entries, changing nothing |
| Cache.ReopenAfterSave | src/kutx2spotify/cache.py:190-205 | a store opened on the file another store has saved holds what that store held |
| Text.LowerConcat | src/kutx2spotify/cache.py:159 | lowercasing a concatenation lowercases each part |
| Text.ParseIntOfString | src/kutx2spotify/cli.py:82 | `int(str(n)) == n` for every integer |
| Text.LastPartShape | src/kutx2spotify/matcher.py:144 | `s.split(sep)[-1]` holds no separator, ends `s`, follows a separator when shorter than `s`, and is all of `s` when `s` has none |
| Matcher.AlbumsMatchProperties | src/kutx2spotify/matcher.py:36-46 | album comparison is reflexive and symmetric, ignores letter case, and matches two empty albums |
| Matcher.ToleranceWindow | src/kutx2spotify/matcher.py:48-59 | a track is within tolerance iff its duration is within 10000 ms of the song's, both bounds inclusive |
| Matcher.AlbumsMatch | src/kutx2spotify/matcher.py:36-46 | albums equal after lowercasing; `Matcher.AlbumsMatchProperties` states its properties |
| Matcher.WithinTolerance | src/kutx2spotify/matcher.py:48-59 | the absolute duration difference is at most `DURATION_TOLERANCE_MS`; `Matcher.ToleranceWindow` states the inclusive window |
| Matcher.ResolutionFor | src/kutx2spotify/matcher.py:134-139 | nothing without a store, else the store's lookup of the song; `Cache.Lookup` states the lookup and `Matcher.ResolutionHit` what a hit yields |
| Matcher.FindExactMatch | src/kutx2spotify/matcher.py:61-83 | the search hit is kept iff there is one and its album matches the song's, and it is then returned unchanged |
| Matcher.FindBestFallback | src/kutx2spotify/matcher.py:85-123 | the broad-search pick: no pick for no candidates; the most popular candidate within the tolerance if any, else the most popular of all, with a flag saying which; its properties are those of `Matcher.FallbackPick` |
| Matcher.CheckResolution | src/kutx2spotify/matcher.py:125-159 | the match built from a stored resolution, or none without one; its fields are those of `Matcher.ResolutionHit` |
| Matcher.MatchSong | src/kutx2spotify/matcher.py:161-218 | the three steps in order, with the searches issued; `Matcher.MatchSongClassified`, `Matcher.SearchesIssued` and `Matcher.ResolutionHit` state what it returns |
| Matcher.BatchMatch | src/kutx2spotify/matcher.py:234-243 | NOT_FOUND without a track when the client is not configured, else the match of the song against the store; `Matcher.MatchAllOrdered` states its properties |
| Matcher.MostPopularIndex | src/kutx2spotify/matcher.py:115 | `max` by popularity picks a candidate no other outdoes, and every earlier candidate is strictly less popular |
| Matcher.MostPopularSnoc | src/kutx2spotify/matcher.py:115 | a candidate appended at the end becomes the pick exactly when it is strictly more popular than the current pick |
| Matcher.MostPopularOfSnoc | src/kutx2spotify/matcher.py:106-121 | one more candidate leaves the pick of a partition unchanged when it is outside the partition, is the pick when the partition was empty, and otherwise replaces the pick exactly when strictly more popular |
| Matcher.MostPopularOfFilter | src/kutx2spotify/matcher.py:106-121 | the most popular of a partition is, in the full list, the first candidate of that partition that no member of the partition outdoes |
| Matcher.FallbackPick | src/kutx2spotify/matcher.py:85-123 | no pick iff the broad search found nothing; within is true iff some candidate is within tolerance; the pick comes from that side of the split, has the highest popularity there whatever the other side holds, and wins ties by coming first |
| Matcher.ResolutionHit | src/kutx2spotify/matcher.py:125-159 | a stored resolution wins without any search or catalog dependence; the track carries the stored URI, the id after its last ':', the song's title, artist and duration, the resolved album and popularity 100; the status is EXACT iff the albums match, else ALBUM_FALLBACK |
| Matcher.SearchesIssued | src/kutx2spotify/matcher.py:176-195 | without a resolution the album search always runs; the broad search runs exactly when the hit is missing or has another album; a verified hit is EXACT or DURATION_MISMATCH by duration |
| Matcher.MatchSongClassified | src/kutx2spotify/matcher.py:161-218 | every match keeps its song and is NOT_FOUND iff it has no track; a found track is EXACT iff its album matches and it is within tolerance, ALBUM_FALLBACK iff only its album is wrong, DURATION_MISMATCH iff it is outside the tolerance |
| Matcher.ExactPathNeverAlbumFallback | src/kutx2spotify/matcher.py:182-190 | an album-verified hit never yields ALBUM_FALLBACK |
| Matcher.EmptyCatalogNotFound | src/kutx2spotify/matcher.py:192-195 | with no hit from either search the song is NOT_FOUND without a track |
| Matcher.MatchAll | src/kutx2spotify/matcher.py:220-245 | one match per song, match i being the match of song i |
| Matcher.MatchAllOrdered | src/kutx2spotify/matcher.py:232-245 | every match of a batch is about its own song and is well formed; an unconfigured client gives NOT_FOUND without a track for every song |
| Matcher.MatchAllSnoc | src/kutx2spotify/matcher.py:241-243 | matching one more song appends exactly its match |
| Matcher.ExactSearch | src/kutx2spotify/matcher.py:70-74 | the request `search_track` sends for a song's album-constrained search: its built query with the album, limit 1 |
| Matcher.QueryRequests | src/kutx2spotify/matcher.py:61-100 | one search request per album-constrained search of a trace, none for a broad search |
| Matcher.SongRequests | src/kutx2spotify/matcher.py:161-218 | the album-constrained search of a song that reaches the catalog, nothing otherwise; `Matcher.SongRequestsFollowTrace` ties it to the searches `match_song` issues |
| Matcher.BatchRequests | src/kutx2spotify/matcher.py:220-245 | the requests of the songs one after another; `Matcher.BatchRequestsSpec` states them |
| Matcher.SongRequestsFollowTrace | src/kutx2spotify/matcher.py:161-218 | an unconfigured catalog sends nothing for a song; otherwise a song sends exactly one request per album-constrained search in its `match_song` trace and nothing for the broad search |
| Matcher.BatchRequestsSpec | src/kutx2spotify/matcher.py:220-245 | a batch sends, in song order, exactly one album-constrained search for each song that reaches the catalog (configured, no stored resolution), as many as there are such songs, and nothing when unconfigured |
| Matcher.BatchRequestsSnoc | src/kutx2spotify/matcher.py:241-243 | matching one more song appends exactly its requests |
| Matcher.MatchStep | src/kutx2spotify/matcher.py:161-218 | one song on a configured catalog: the match is its batch match; the store is unchanged; the client's log gains exactly the song's requests, and the client is connected iff it was or something was sent |
| Matcher.MatchEach | src/kutx2spotify/matcher.py:241-245 | the configured loop appends the batch matches in song order and sends the batch's requests, connecting iff it was connected or something was sent; the store is unchanged |
| Matcher.MatchSongs | src/kutx2spotify/matcher.py:220-245 | a fresh result whose matches are the batch matches of the songs in order; the resolution store's contents and file are unchanged; the shared client's log gains exactly the batch's requests, and the client ends connected iff it was or some search was sent |
| Kutx.ParseSongOutcome | src/kutx2spotify/kutx.py:26-60 | a record gives a song iff title, artist and start time are non-empty and the start time parses; the song copies them, takes the album or "" and the duration or 0 |
| Kutx.ParseSong | src/kutx2spotify/kutx.py:26-60 | a record becomes a song, or none; `Kutx.ParseSongOutcome` states when and with which fields |
| Kutx.DaySongs | src/kutx2spotify/kutx.py:81-89 | the songs of the records that parse, in record order; `Kutx.DaySongsAreParsedRecords` relates it to filtering and mapping the records |
| Kutx.FetchDay | src/kutx2spotify/kutx.py:81-89 | the loop collects the songs of the records that parse, in order; a response without a playlist gives no songs |
| Kutx.DaySongsAreParsedRecords | src/kutx2spotify/kutx.py:81-89 | the day's songs are exactly the readings of the records that parse, in record order, one per such record |
| Kutx.FilterByTime | src/kutx2spotify/kutx.py:107-124 | the loop returns the window filter of the songs, and all songs when neither bound is given |
| Kutx.TimeFilter | src/kutx2spotify/kutx.py:107-124 | the songs inside the inclusive window, in order; `Kutx.TimeFilterSpec` states its properties |
| Kutx.TimeOrder | src/kutx2spotify/kutx.py:116-119 | the order on times of day is strict and total |
| Kutx.TimeFilterSpec | src/kutx2spotify/kutx.py:91-124 | the window filter keeps the input order, keeps a song iff it lies in the window, changes nothing without bounds, and keeps songs exactly at either bound |
| Spotify.MissingVarsSpec | src/kutx2spotify/spotify.py:22-52 | configured iff no variable is missing; the missing list names exactly the unset or empty variables, in declared order |
| Spotify.IsConfigured | src/kutx2spotify/spotify.py:45-52 | every one of the three variables is set and not empty; `Spotify.MissingVarsSpec` ties it to the missing list |
| Spotify.MissingVars | src/kutx2spotify/spotify.py:25-31 | the unset or empty variables in declared order, as the error lists them; `Spotify.MissingVarsSpec` states this |
| Spotify.NotConfiguredMessage | src/kutx2spotify/spotify.py:22-32 | the error's text: a fixed opening followed by the missing variables joined by ", "; `Spotify.NotConfiguredMessageNamesMissing` and `Spotify.NotConfiguredMessageAllMissing` state what it lists |
| Spotify.NotConfiguredMessageNamesMissing | src/kutx2spotify/spotify.py:25-32 | the message contains the name of every unset or empty variable, and lists nothing after its opening iff all three are set |
| Spotify.NotConfiguredMessageAllMissing | src/kutx2spotify/spotify.py:12-32 | with no variable set, all three are missing and the message lists them in declared order, separated by ", " |
| Spotify.QueryShape | src/kutx2spotify/spotify.py:118-122 | the query is `track:"T" artist:"A"`, and the album term is appended only for a non-empty album |
| Spotify.BuildQuery | src/kutx2spotify/spotify.py:118-122 | the field-filter query text; `Spotify.QueryShape` states its shape |
| Spotify.ParseTrackSpec | src/kutx2spotify/spotify.py:74-93 | a record reads as a track iff it has id, uri and name and its first artist, if any, has a name; the fields are copied, with "" and 0 for a missing artist list, album or duration, and popularity 0 |
| Spotify.ParseTrack | src/kutx2spotify/spotify.py:74-93 | a response item read as a track, or the key error; `Spotify.ParseTrackSpec` states when and with which fields |
| Spotify.RecordOf | src/kutx2spotify/spotify.py:74-93 | the response item the Web API gives for a track, with every key `_parse_track` reads |
| Spotify.ParseTrackRoundTrip | src/kutx2spotify/spotify.py:74-93 | reading back the response item of a track gives that track with popularity 0 |
| Spotify.FirstTrackSpec | src/kutx2spotify/spotify.py:124-130 | a response without items gives no track; otherwise only the first item is read |
| Spotify.FirstTrack | src/kutx2spotify/spotify.py:124-130 | nothing without items, else the first item read as a track; `Spotify.FirstTrackSpec` states this |
| Spotify.BatchesSpec | src/kutx2spotify/spotify.py:206-210 | the batches concatenate to the URIs; there are ceil(n/100) of them, each non-empty and at most 100 long, all but the last exactly 100 |
| Spotify.Batches | src/kutx2spotify/spotify.py:206-210 | the consecutive slices of at most 100 URIs; `Spotify.BatchesSpec` and `Spotify.BatchesFrom` state their properties |
| Spotify.BatchesFrom | src/kutx2spotify/spotify.py:207-208 | the batch starting at i is `uris[i:i+100]`, followed by the batches from i+100 |
| Spotify.AddRequestsSnoc | src/kutx2spotify/spotify.py:209 | one more batch sent is one more add request at the end of the log |
| Spotify.AddRequests | src/kutx2spotify/spotify.py:206-209 | one add request per batch, to the one playlist, in batch order; `Spotify.AddRequestsSnoc` and `Spotify.AddRequestsCarryUris` state this |
| Spotify.AddRequestsCarryUris | src/kutx2spotify/spotify.py:206-210 | the add requests of a batching carry exactly the batched URIs, in order, and every one goes to the same playlist |
| Spotify.PlaylistUrlReadsBack | src/kutx2spotify/spotify.py:214-223 | the URL is the fixed prefix followed by the id, from which the id can be read back |
| Spotify.PlaylistUrl | src/kutx2spotify/spotify.py:214-223 | the fixed URL prefix and the id; `Spotify.PlaylistUrlReadsBack` states it |
| Spotify.SpotifyClient.constructor | src/kutx2spotify/spotify.py:38-43 | a new client is not connected and has sent nothing |
| Spotify.SpotifyClient.GetClient | src/kutx2spotify/spotify.py:54-72 | fails with the missing variables when unconfigured; otherwise connects once and succeeds |
| Spotify.SpotifyClient.SendSearch | src/kutx2spotify/spotify.py:116-124 | unconfigured: fails with the missing variables, sends nothing and leaves the connection as it was; configured: connects and sends one search with limit 1 for the built query |
| Spotify.SpotifyClient.SearchTrack | src/kutx2spotify/spotify.py:95-130 | unconfigured: fails with the missing variables, sends nothing and leaves the connection as it was; configured: connects, sends one search with limit 1 for the built query and returns the first track of the response |
| Spotify.SpotifyClient.SearchTrackLoose | src/kutx2spotify/spotify.py:132-151 | the same search without any album term: unconfigured, it fails and changes neither the log nor the connection; configured, it connects and sends `track:"T" artist:"A"` with limit 1 |
| Spotify.SpotifyClient.CreatePlaylist | src/kutx2spotify/spotify.py:153-183 | unconfigured: fails and changes neither the log nor the connection; configured: connects, sends one request creating the playlist with the given name, description and visibility, and returns the id the Web API answers with |
| Spotify.SpotifyClient.AddTracks | src/kutx2spotify/spotify.py:185-212 | an empty list returns 0 and changes nothing, even without credentials; otherwise, unconfigured, it fails and changes neither the log nor the connection; configured, it connects, sends one add request per batch of at most 100, in order, and returns the number of URIs |
| Output.FormatAgreesWithDisplay | src/kutx2spotify/output.py:22-25 | `format_duration` prints the same text as `Song.duration_display` |
| Output.FormatDuration | src/kutx2spotify/output.py:13-25 | minutes and two-digit seconds of a millisecond count; read back by `Output.FormatDurationReadsBack` |
| Output.FormatDurationReadsBack | src/kutx2spotify/output.py:22-25 | a non-negative duration's text reads back as its whole seconds |
| Output.FormatDurationZero | src/kutx2spotify/output.py:22-25 | 0 ms prints as "0:00" |
| Output.FormatDurationExamples | src/kutx2spotify/output.py:22-25 | 63000 ms prints as "1:03" and 252000 ms as "4:12" |
| Output.FormatDurationTenMinutes | src/kutx2spotify/output.py:22-25 | 600000 ms prints as "10:00" |
| Output.DurationDiffSign | src/kutx2spotify/output.py:37-39 | the text starts with '+' iff the difference is not negative and with '-' iff it is; seconds are rounded down; it ends with 's' |
| Output.FormatDurationDiff | src/kutx2spotify/output.py:28-39 | the signed whole seconds of a difference; `Output.DurationDiffSign` states its shape |
| Output.DurationDiffExamples | src/kutx2spotify/output.py:37-39 | 0 gives "+0s", -5000 gives "-5s", 15000 gives "+15s" and -1 already gives "-1s" |
| Output.HeaderCases | src/kutx2spotify/output.py:69-81 | the header's tail says which bounds are given (both, start to end of day, start of day to end, or neither); it always starts "KUTX Playlist: " and the date; the '=' underline is exactly as long as the header |
| Output.Header | src/kutx2spotify/output.py:69-79 | the header text for the four cases of given bounds, as `Output.HeaderCases` states |
| Output.HeaderLines | src/kutx2spotify/output.py:57-81 | a blank line, the header, its underline and a blank line, as `Output.HeaderCases` states |
| Output.MatchListLines | src/kutx2spotify/output.py:84-91 | one line per match, line i about match i under number i + 1 |
| Output.MatchLineShape | src/kutx2spotify/output.py:94-122 | a line starts with '*' iff its match has an issue (a space otherwise), shows the number right-aligned in two columns, title and artist, the album in parentheses only when there is one, and the bracketed duration |
| Output.MatchLine | src/kutx2spotify/output.py:94-122 | one line of the match list; `Output.MatchLineShape` states its layout |
| Output.LineHeadShape | src/kutx2spotify/output.py:101-115 | the marker is '*' iff the match has an issue, followed by the number, title and artist |
| Output.LineTailShape | src/kutx2spotify/output.py:117-120 | the album part appears only for a non-empty album, followed by the bracketed duration |
| Output.IndexColumn | src/kutx2spotify/output.py:110-112 | a number below 100 fills exactly two columns, its last digit in the second |
| Output.Enumerate | src/kutx2spotify/output.py:141 | `enumerate(ms, 1)` pairs match i with number i + 1 |
| Output.IssueEntriesAreIssues | src/kutx2spotify/output.py:131-144 | the matches detailed by `print_issues`, in order, are `MatchResult.issues` |
| Output.IssuesSelection | src/kutx2spotify/output.py:125-144 | an entry is detailed iff it is an issue under its original 1-based number; entries keep their order; `print_issues` prints nothing iff no match has an issue |
| Output.IssueDetailCases | src/kutx2spotify/output.py:147-170 | every detail starts with its number, title and artist; NOT_FOUND has three lines ending with the search link; DURATION_MISMATCH with a track has four ending with `--resolve N=1` for its number; anything else prints only the first line |
| Cli.ResolveHintReadsBack | src/kutx2spotify/output.py:170 | the `--resolve` hint printed under a duration mismatch is an argument `parse_resolve` accepts: the text after "--resolve " reads back as the match's number and choice 1 |
| Output.IssueDetail | src/kutx2spotify/output.py:147-170 | the detail lines of one issue; `Output.IssueDetailCases` states them per status |
| Output.IssuesLines | src/kutx2spotify/output.py:125-144 | the issue report; `Output.IssuesSelection` states which matches it details and when it is empty |
| Output.SearchUrl | src/kutx2spotify/output.py:42-54 | the search URL prefix followed by the encoded "title artist"; `Output.IssueDetailCases` and `Output.ManualLinksSpec` state where it appears |
| Output.ManualLinksSpec | src/kutx2spotify/output.py:173-187 | every match, issue or not, gets its numbered line followed by its search link, in result order, after three title lines |
| Output.ManualLinksLines | src/kutx2spotify/output.py:173-187 | the manual-links report; `Output.ManualLinksSpec` states every line |
| Output.ManualLinksBody | src/kutx2spotify/output.py:179-187 | after the three title lines come exactly the link lines |
| Output.LinkLinesAt | src/kutx2spotify/output.py:183-187 | lines 2i and 2i + 1 of the links are match i's numbered line and its link |
| Output.SummarySpec | src/kutx2spotify/output.py:190-213 | preview mode adds only the two-line notice; the last line reads "Issues: 0" iff no match has an issue; matched plus not found is the total |
| Output.SummaryLines | src/kutx2spotify/output.py:190-213 | the summary report; `Output.SummarySpec` states its preview notice and counts |
| Cli.ParseResolveSpec | src/kutx2spotify/cli.py:66-86 | accepted iff the text splits on '=' into exactly two parts that both read as integers, giving those integers; otherwise the bad-parameter message names the text |
| Cli.ParseResolve | src/kutx2spotify/cli.py:66-86 | the pair of integers of `INDEX=CHOICE`, or the bad-parameter message; `Cli.ParseResolveSpec` and `Cli.ParseResolveRoundTrip` state its meaning |
| Cli.ParseResolveRoundTrip | src/kutx2spotify/cli.py:78-82 | every pair of integers written as `I=C` reads back as that pair |
| Cli.ParseResolveRejectsDash | src/kutx2spotify/cli.py:79-81 | "3-1" is rejected: no separator |
| Cli.ParseResolveRejectsWords | src/kutx2spotify/cli.py:82-86 | "a=b" is rejected: the parts are not integers |
| Cli.ParseResolveRejectsTwoSigns | src/kutx2spotify/cli.py:79-81 | "1=2=3" is rejected: three parts |
| Cli.ParseResolutions | src/kutx2spotify/cli.py:199-201 | the loop over the `--resolve` arguments gives the parse of all of them, or the first error |
| Cli.FirstErrorStays | src/kutx2spotify/cli.py:199-201 | once one argument fails, parsing the whole list fails with that argument's error |
| Cli.ParseEachSpec | src/kutx2spotify/cli.py:199-201 | all arguments are accepted iff each one is, and then the pairs come in argument order |
| Cli.ParseEach | src/kutx2spotify/cli.py:199-201 | each argument parsed in turn, or the first error; `Cli.ParseEachSpec` and `Cli.FirstErrorStays` state its meaning |
| Cli.ParseAll | src/kutx2spotify/cli.py:199-201 | every `--resolve` argument parsed as `INDEX=CHOICE`, or the first error; `Cli.ParseResolutions` is proved equal to it |
| Cli.ApplyCliResolutions | src/kutx2spotify/cli.py:316-340 | one note per resolution in order; the result is returned unchanged |
| Cli.NoteSpec | src/kutx2spotify/cli.py:332-338 | an index is reported invalid iff it is below 1 or beyond the number of matches; otherwise the choice is noted |
| Cli.NoteFor | src/kutx2spotify/cli.py:332-338 | the note for one resolution; `Cli.NoteSpec` states when the index is invalid |
| Cli.DayCache.constructor | src/kutx2spotify/cache.py:52-67 | a day cache holds the given entries |
| Cli.DayCache.Get | src/kutx2spotify/cache.py:81-103 | returns the stored songs of the date, or none |
| Cli.DayCache.Set | src/kutx2spotify/cache.py:105-115 | stores the songs under the date and changes nothing else |
| Cli.FetchSongsAsWritten | src/kutx2spotify/cli.py:263-313 | the fetch as written: a hit is filtered again; a miss fetches the window and stores that filtered list under the date, so the cache afterwards is the old one with the date mapped to the windowed list; other dates are untouched |
| Cli.FetchSongs | src/kutx2spotify/cli.py:263-313 | the corrected fetch: a hit filters the cached day and changes nothing; a miss stores the whole day when caching and returns its window; other dates are untouched |
| Cli.FetchAsWritten | src/kutx2spotify/cli.py:284-299 | the songs and the date's cache entry after a fetch as written; `Cli.StaleWindowCounterexample` exhibits the stale entry |
| Cli.FetchDaySongs | src/kutx2spotify/cli.py:284-311 | the songs and the date's cache entry after the corrected fetch; `Cli.CachedRunsAgree` proves cached runs agree with uncached ones |
| Cli.CachedRunsAgree | src/kutx2spotify/cli.py:284-311 | with the whole day stored, every cached run returns what an uncached run returns for its own window, whatever earlier runs asked for |
| Cli.StaleWindowCounterexample | src/kutx2spotify/cli.py:293-299 | as written, a cached run from 14:00 stores only the late song, and a later cached run without a window returns only that song |
| Cli.TrackUrisSpec | src/kutx2spotify/cli.py:365 | one URI per match with a track, as many as the found count, none iff no match has a track, and every found track's URI among them |
| Cli.TrackUris | src/kutx2spotify/cli.py:365 | the URIs of the matches with a track; `Cli.TrackUrisSpec` and `Cli.TrackUrisSnoc` state them |
| Cli.TrackUrisSnoc | src/kutx2spotify/cli.py:365 | one more match adds its URI at the end exactly when it has a track |
| Cli.PlaylistNameSpec | src/kutx2spotify/cli.py:372 | a non-empty name is kept; a missing or empty one becomes "KUTX " and the date; the name is never empty |
| Cli.PlaylistName | src/kutx2spotify/cli.py:371-372 | the given name or "KUTX " and the date; `Cli.PlaylistNameSpec` states it |
| Cli.PlaylistPlanSpec | src/kutx2spotify/cli.py:357-380 | credentials are checked first; no tracks stops the run; a created playlist holds as many tracks as there are matches with a track |
| Cli.PlaylistPlan | src/kutx2spotify/cli.py:357-383 | the playlist a publication creates, or why it stops; `Cli.PlaylistPlanSpec` states the order of the checks and the count |
| Cli.PublishRequestsSpec | src/kutx2spotify/cli.py:374-378 | a publication first creates the public playlist with its name and the description "KUTX playlist from " and the date, and then adds every track URI of the matches, in match order, to that playlist |
| Cli.PublishRequests | src/kutx2spotify/cli.py:374-378 | the creation request, then the add requests of the batched track URIs; `Cli.PublishRequestsSpec` states what they carry |
| Cli.PlaylistDescription | src/kutx2spotify/cli.py:376-377 | "KUTX playlist from " and the date, the description `Cli.PublishRequestsSpec` states the creation request carries |
| Cli.CreatePlaylist | src/kutx2spotify/cli.py:343-383 | the outcome is the playlist plan; on failure nothing is sent and the connection is as it was; on success the client is connected and the log gains exactly the publication requests: the playlist is created under its name and description, then its URIs go out in batches of 100, in match order |
| Cli.MatchAndPublish | src/kutx2spotify/cli.py:225-260 | matches the songs through the resolution store, leaving its contents and file as they were; `--manual` and `--preview` stop with the matches and notes; otherwise the playlist plan decides; the log gains the matcher's searches, then the publication requests when published and nothing more otherwise; the client ends connected iff it was, some search was sent, or the playlist was published |
| Cli.Run | src/kutx2spotify/cli.py:180-260 | a bad `--resolve` stops first, before any fetch, changing no cache, sending nothing and leaving the connection as it was; no songs in the window stops the run; otherwise the outcome is that of matching and publishing the fetched songs; the day cache gains the whole day only on a cached miss; the resolution store is unchanged; the log gains the matcher's searches for the fetched songs (none when there are none), then the publication requests when published; the client ends connected iff it was, some search was sent, or the playlist was published |

## Findings

| source | as written | input that shows it | evidently intended | confidence | as-written member | corrected member |
|---|---|---|---|---|---|---|
| src/kutx2spotify/cli.py:293-299 | on a cache miss, the list `fetch_range` already narrowed to the requested window is stored under the date, as if it were the whole day | a day with songs at 09:00 and 15:00: a `--cached --start 14:00` run stores only the 15:00 song, so a later `--cached` run without a window finds only that song | the day cache holds the whole day, and each run filters it by its own window | not executed | Cli.FetchSongsAsWritten | Cli.FetchSongs |

`Cli.StaleWindowCounterexample` exhibits the input above against `Cli.FetchAsWritten`.
`Cli.CachedRunsAgree` proves the intended property about the corrected `Cli.FetchDaySongs`.
`Cli.Run` uses the corrected fetch.

## Left out

- src/kutx2spotify/browser.py: the browser-driven search is not part of this model.
- HTTP: the feed request and the Web API calls are not made. The feed's answer, the search
  responses, the broad search and the new playlist's id are inputs. OAuth and the lazy spotipy
  client are reduced to the `connected` flag.
- Matcher.MatchSongs: the log says which searches the matcher sent, but the answers still come
  from `Catalog.searchTrack` and `Catalog.searchTracks`. Nothing ties an answer to its logged
  request. A `KeyError` raised while reading a search answer inside the matcher is not modelled.
- Spotify.SpotifyClient.CreatePlaylist: the `current_user` lookup of
  src/kutx2spotify/spotify.py:173 is not recorded, and the creation request carries no user id.
  The new playlist's id is an input.
- Cli.Run: uses the corrected `Cli.FetchSongs`. On a cached miss it stores the whole day under
  the date, where `main` as written (src/kutx2spotify/cli.py:295-299) stores the list already
  narrowed to the window. The behaviour as written is `Cli.FetchSongsAsWritten`, whose contract
  states that stored list.
- `KUTXCache` (src/kutx2spotify/cache.py:45-142): the file per date, the 24-hour TTL, the clock,
  JSON decode errors, `clear` and `clear_all` are not modelled. `Cli.DayCache` is its map from
  date to songs. An expired or unreadable file is simply a date without an entry.
- Date and time parsing and printing: `parse_date`, `parse_time`, `DateType`, `TimeType`,
  `strptime`, `strftime`, `isoformat` and `fromisoformat` are not modelled. The start-time parser
  is a parameter of `Kutx.ParseSong`. Dates appear as their `YYYY-MM-DD` text. `Cache.Field.Iso`
  stands for an ISO timestamp that reads back unchanged.
- `quote_plus` is the parameter `encode` of `Output.SearchUrl`.
- Rich styles, `console.print`, and the option wiring by the command-line library are not modelled.
- `print_playlist_created`, `print_error`, `print_warning` and `print_info` are not modelled: they
  print one fixed text around their argument and compute nothing. `Cli.Run` returns an outcome
  (`Cli.RunOutcome`): the notes, the matches, and the created playlist or the reason for stopping.
  It does not assemble the printed lines, which the `Output` functions give one report at a time.
- Exit codes: `SystemExit(1)` and the usage error of a bad `--resolve` are the `Cli.RunError`
  cases, without their status numbers.
- JSON values of the wrong kind are not modelled: a key present with `null`, a non-list
  `playlist`, or an artist entry that is not a dictionary. A missing key is `None` in the model's
  records. `Cache.Entry` always has a URI and an album, so a stored entry without them, which
  raises `KeyError` in `get`, is not modelled.
- `SpotifyClient.env` is fixed when the client is made. The source reads the environment on every
  call, so a change to the environment during a run is not modelled.
- Text.Lower: lowercases ASCII letters only, where Python's `str.lower` covers all of Unicode.
- Text.ParseInt: accepts ASCII digits only, where Python's `int` also accepts other Unicode digits.
  The ASCII whitespace set of `Text.IsSpace` is also narrower than Python's.
- The tests that exercise functions absent from the repository's sources (browser helpers,
  `print_browser_*`) are not modelled.
