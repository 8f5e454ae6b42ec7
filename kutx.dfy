/**
 * The station feed (src/kutx2spotify/kutx.py): reading songs out of the day's playlist records,
 * and the inclusive time-of-day window. The HTTP request itself is not modelled: the decoded
 * `playlist` value is an input, and so is the parser of the "MM-DD-YYYY HH:MM:SS" start time.
 */
module Kutx {
  import opened Wrappers
  import opened Seqs
  import opened Models

  /** One record of the feed's playlist; `None` is a key the record does not have. */
  datatype FeedRecord = FeedRecord(
    trackName: Option<string>,
    artistName: Option<string>,
    collectionName: Option<string>,
    duration: Option<int>,
    startTime: Option<string>)

  /** Python truthiness of an optional string: present and non-empty. */
  predicate Truthy(f: Option<string>) {
    f.Some? && f.value != []
  }

  // ---------------------------------------------------------------------------
  // _parse_song
  // ---------------------------------------------------------------------------

  /** `_parse_song`: `parseStart` stands for `strptime` with the feed's format, `None` for its `ValueError`. */
  function ParseSong(rec: FeedRecord, parseStart: string -> Option<DateTime>): Option<Song> {
    if !Truthy(rec.trackName) || !Truthy(rec.artistName) then None
    else
      var album := rec.collectionName.GetOr("");
      var durationMs := rec.duration.GetOr(0);
      if !Truthy(rec.startTime) then None
      else
        var playedAt := parseStart(rec.startTime.value);
        if playedAt.None? then None
        else Some(Song(rec.trackName.value, rec.artistName.value, album, durationMs, playedAt.value))
  }

  /**
   * A record yields a song iff its title, artist and start time are present and non-empty and
   * the start time parses; the song then copies title and artist, takes the album or "", the
   * duration or 0, and the parsed start time.
   */
  lemma ParseSongOutcome(rec: FeedRecord, parseStart: string -> Option<DateTime>)
    ensures ParseSong(rec, parseStart).Some? <==>
      Truthy(rec.trackName) && Truthy(rec.artistName) && Truthy(rec.startTime)
      && parseStart(rec.startTime.value).Some?
    ensures ParseSong(rec, parseStart).Some? ==>
      var s := ParseSong(rec, parseStart).value;
      && s.title == rec.trackName.value
      && s.artist == rec.artistName.value
      && (rec.collectionName.None? ==> s.album == "")
      && (rec.collectionName.Some? ==> s.album == rec.collectionName.value)
      && (rec.duration.None? ==> s.durationMs == 0)
      && (rec.duration.Some? ==> s.durationMs == rec.duration.value)
      && s.playedAt == parseStart(rec.startTime.value).value
  {
  }

  // ---------------------------------------------------------------------------
  // fetch_day: keep the records that parse
  // ---------------------------------------------------------------------------

  function Reading(parseStart: string -> Option<DateTime>): FeedRecord -> Option<Song> {
    r => ParseSong(r, parseStart)
  }

  function Parses(parseStart: string -> Option<DateTime>): FeedRecord -> bool {
    r => ParseSong(r, parseStart).Some?
  }

  /** The songs of a playlist, as the collecting loop of `fetch_day` appends them. */
  function DaySongs(records: seq<FeedRecord>, parseStart: string -> Option<DateTime>): seq<Song> {
    if records == [] then []
    else
      var song := ParseSong(records[|records| - 1], parseStart);
      DaySongs(records[..|records| - 1], parseStart) + (if song.Some? then [song.value] else [])
  }

  /** The collecting loop of `fetch_day`; a response without `playlist` counts as an empty one. */
  method FetchDay(playlist: Option<seq<FeedRecord>>, parseStart: string -> Option<DateTime>) returns (songs: seq<Song>)
    ensures songs == DaySongs(playlist.GetOr([]), parseStart)
    ensures playlist.None? ==> songs == []
  {
    var records := playlist.GetOr([]);
    songs := [];
    for i := 0 to |records|
      invariant songs == DaySongs(records[..i], parseStart)
    {
      assert records[..i + 1][..i] == records[..i];
      var song := ParseSong(records[i], parseStart);
      if song.Some? {
        songs := songs + [song.value];
      }
    }
    assert records[..|records|] == records;
  }

  /**
   * The day's songs are exactly the readings of the records that parse, in the records' order:
   * nothing is invented, dropped or reordered.
   */
  lemma {:induction false} DaySongsAreParsedRecords(records: seq<FeedRecord>, parseStart: string -> Option<DateTime>)
    ensures Map(DaySongs(records, parseStart), (s: Song) => Some(s)) == Map(Filter(records, Parses(parseStart)), Reading(parseStart))
    ensures |DaySongs(records, parseStart)| == CountWhere(records, Parses(parseStart))
  {
    var p := Parses(parseStart);
    if records == [] {
    } else {
      var front := records[..|records| - 1];
      var r := records[|records| - 1];
      assert records == front + [r];
      DaySongsAreParsedRecords(front, parseStart);
      FilterConcat(front, [r], p);
      CountConcat(front, [r], p);
      var a := DaySongs(front, parseStart);
      var b := Filter(front, p);
      if ParseSong(r, parseStart).Some? {
        assert Filter([r], p) == [r];
        MapSnoc(a, ParseSong(r, parseStart).value, (s: Song) => Some(s));
        MapSnoc(b, r, Reading(parseStart));
      } else {
        assert Filter([r], p) == [];
        assert Filter(records, p) == b;
      }
      CountIsFilterLength(records, p);
      CountIsFilterLength(front, p);
    }
  }

  // ---------------------------------------------------------------------------
  // fetch_range: the inclusive time-of-day window
  // ---------------------------------------------------------------------------

  /** Kept iff not before the start (when there is one) and not after the end (when there is one). */
  predicate InWindow(t: TimeOfDay, start: Option<TimeOfDay>, end: Option<TimeOfDay>) {
    (start.None? || !TimeBefore(t, start.value)) && (end.None? || !TimeBefore(end.value, t))
  }

  function InRange(start: Option<TimeOfDay>, end: Option<TimeOfDay>): Song -> bool {
    (s: Song) => InWindow(s.playedAt.time, start, end)
  }

  /** The songs played within the window, in their original order. */
  function TimeFilter(songs: seq<Song>, start: Option<TimeOfDay>, end: Option<TimeOfDay>): seq<Song> {
    Filter(songs, InRange(start, end))
  }

  /** The filter of `fetch_range` over the day's songs: unchanged when neither bound is given. */
  method FilterByTime(songs: seq<Song>, start: Option<TimeOfDay>, end: Option<TimeOfDay>) returns (filtered: seq<Song>)
    ensures filtered == TimeFilter(songs, start, end)
  {
    if start.None? && end.None? {
      FilterKeepsAll(songs, InRange(start, end));
      return songs;
    }
    filtered := [];
    for i := 0 to |songs|
      invariant filtered == TimeFilter(songs[..i], start, end)
    {
      assert songs[..i + 1] == songs[..i] + [songs[i]];
      FilterConcat(songs[..i], [songs[i]], InRange(start, end));
      var songTime := songs[i].playedAt.time;
      if start.Some? && TimeBefore(songTime, start.value) {
        continue;
      }
      if end.Some? && TimeBefore(end.value, songTime) {
        continue;
      }
      filtered := filtered + [songs[i]];
    }
    assert songs[..|songs|] == songs;
  }

  /** Times of day form a strict total order, so "not before" is "at or after". */
  lemma TimeOrder(a: TimeOfDay, b: TimeOfDay, c: TimeOfDay)
    ensures !TimeBefore(a, a)
    ensures TimeBefore(a, b) ==> !TimeBefore(b, a)
    ensures TimeBefore(a, b) && TimeBefore(b, c) ==> TimeBefore(a, c)
    ensures a == b || TimeBefore(a, b) || TimeBefore(b, a)
  {
  }

  /**
   * The window filter keeps the order of the input, keeps a song iff it lies in the window,
   * changes nothing without bounds, and its bounds are inclusive.
   */
  lemma TimeFilterSpec(songs: seq<Song>, start: Option<TimeOfDay>, end: Option<TimeOfDay>)
    ensures IsSubsequence(TimeFilter(songs, start, end), songs)
    ensures forall s :: s in TimeFilter(songs, start, end) <==> s in songs && InWindow(s.playedAt.time, start, end)
    ensures start.None? && end.None? ==> TimeFilter(songs, start, end) == songs
    ensures forall s :: s in songs && start.Some? && s.playedAt.time == start.value && InWindow(start.value, None, end)
                 ==> s in TimeFilter(songs, start, end)
    ensures forall s :: s in songs && end.Some? && s.playedAt.time == end.value && InWindow(end.value, start, None)
                 ==> s in TimeFilter(songs, start, end)
  {
    FilterIsSubsequence(songs, InRange(start, end));
    forall s ensures s in TimeFilter(songs, start, end) <==> s in songs && InWindow(s.playedAt.time, start, end) {
      FilterMembers(songs, InRange(start, end), s);
    }
    if start.None? && end.None? {
      FilterKeepsAll(songs, InRange(start, end));
    }
  }
}
