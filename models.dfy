/**
 * Data model: played songs, catalog tracks, match outcomes and the aggregate of a run
 * (src/kutx2spotify/models.py).
 */
module Models {
  import opened Wrappers
  import opened Text
  import opened Seqs

  /** How confidently a catalog track stands for a played song. */
  datatype MatchStatus = Exact | AlbumFallback | DurationMismatch | NotFound

  /** A time of day as Python's `datetime.time` holds it; ordered field by field. */
  datatype TimeOfDay = TimeOfDay(hour: int, minute: int, second: int)

  /** `a < b` for times of day: the lexicographic order on (hour, minute, second). */
  predicate TimeBefore(a: TimeOfDay, b: TimeOfDay) {
    a.hour < b.hour
    || (a.hour == b.hour && a.minute < b.minute)
    || (a.hour == b.hour && a.minute == b.minute && a.second < b.second)
  }

  /** The moment a song aired. Apart from its time of day the model never looks inside it. */
  datatype DateTime = DateTime(year: int, month: int, day: int, time: TimeOfDay)

  /** A play event from the station's feed. */
  datatype Song = Song(title: string, artist: string, album: string, durationMs: int, playedAt: DateTime) {

    /** `duration_ms // 1000`: the whole seconds, rounded down also for a negative duration. */
    function DurationSeconds(): (secs: int)
      ensures secs * 1000 <= durationMs < secs * 1000 + 1000
    {
      durationMs / 1000
    }

    /** Minutes, a colon, and the seconds within the minute as two digits. */
    function DurationDisplay(): string {
      IntToString(DurationSeconds() / 60) + ":" + TwoDigits(DurationSeconds() % 60)
    }
  }

  /**
   * A catalog track. The popularity field is absent from the dataclass as the repository shows it,
   * but the matcher reads it and the tests construct tracks with and without it; 0 when not given.
   */
  datatype Track = Track(id: string, uri: string, title: string, artist: string, album: string,
                         durationMs: int, popularity: int := 0)

  /** A song together with the track chosen for it, if any, and the status of that choice. */
  datatype Match = Match(song: Song, track: Option<Track>, status: MatchStatus)

  /** `Match.has_issue`: the match needs a human's attention. */
  predicate HasIssue(m: Match) {
    m.status == DurationMismatch || m.status == NotFound
  }

  predicate HasTrack(m: Match) { m.track.Some? }

  predicate HasNoTrack(m: Match) { m.track.None? }

  predicate IsExact(m: Match) { m.status == Exact }

  /** The invariant of every match the engine produces: NOT_FOUND exactly when there is no track. */
  predicate WellFormed(m: Match) {
    m.status == NotFound <==> m.track.None?
  }

  // ---------------------------------------------------------------------------
  // The derived counts of MatchResult, over its list of matches
  // ---------------------------------------------------------------------------

  function FoundCount(ms: seq<Match>): nat { CountWhere(ms, HasTrack) }

  function NotFoundCount(ms: seq<Match>): nat { CountWhere(ms, HasNoTrack) }

  function ExactCount(ms: seq<Match>): nat { CountWhere(ms, IsExact) }

  function IssuesOf(ms: seq<Match>): seq<Match> { Filter(ms, HasIssue) }

  /** Every match either has a track or does not: found + not_found == total. */
  lemma FoundPlusNotFound(ms: seq<Match>)
    ensures FoundCount(ms) + NotFoundCount(ms) == |ms|
  {
    CountComplement(ms, HasTrack, HasNoTrack);
  }

  /** exact_matches <= total. */
  lemma ExactAtMostTotal(ms: seq<Match>)
    ensures ExactCount(ms) <= |ms|
  {
    CountIsFilterLength(ms, IsExact);
  }

  /** `issues` is the order-preserving sublist of matches that have an issue, and holds all of them. */
  lemma IssuesExactly(ms: seq<Match>)
    ensures IsSubsequence(IssuesOf(ms), ms)
    ensures forall m :: m in IssuesOf(ms) <==> m in ms && HasIssue(m)
    ensures IssuesOf(ms) == [] <==> forall i :: 0 <= i < |ms| ==> !HasIssue(ms[i])
  {
    FilterIsSubsequence(ms, HasIssue);
    forall m ensures m in IssuesOf(ms) <==> m in ms && HasIssue(m) {
      FilterMembers(ms, HasIssue, m);
    }
    FilterEmpty(ms, HasIssue);
  }

  /** Appending one match moves every count by exactly that match's contribution. */
  lemma CountsAfterAppend(ms: seq<Match>, m: Match)
    ensures FoundCount(ms + [m]) == FoundCount(ms) + (if HasTrack(m) then 1 else 0)
    ensures NotFoundCount(ms + [m]) == NotFoundCount(ms) + (if HasTrack(m) then 0 else 1)
    ensures ExactCount(ms + [m]) == ExactCount(ms) + (if IsExact(m) then 1 else 0)
    ensures IssuesOf(ms + [m]) == IssuesOf(ms) + (if HasIssue(m) then [m] else [])
  {
    CountConcat(ms, [m], HasTrack);
    CountConcat(ms, [m], HasNoTrack);
    CountConcat(ms, [m], IsExact);
    FilterConcat(ms, [m], HasIssue);
  }

  /** `MatchResult`: the append-only list of matches of one run, in the order the songs were submitted. */
  class MatchResult {
    var matches: seq<Match>

    /** A fresh result: no matches, every count 0 and no issues. */
    constructor()
      ensures matches == []
      ensures Total() == 0 && Found() == 0 && NotFound() == 0 && ExactMatches() == 0 && Issues() == []
    {
      matches := [];
    }

    function Total(): nat
      reads this
    {
      |matches|
    }

    /** Songs with a track; together with `NotFound()` they make up all matches. */
    function Found(): (n: nat)
      reads this
      ensures n + NotFoundCount(matches) == Total()
    {
      FoundPlusNotFound(matches);
      FoundCount(matches)
    }

    /** Songs without a track: the matches `Found()` does not count. */
    function NotFound(): (n: nat)
      reads this
      ensures Found() + n == Total()
    {
      NotFoundCount(matches)
    }

    function ExactMatches(): (n: nat)
      reads this
      ensures n <= Total()
    {
      ExactAtMostTotal(matches);
      ExactCount(matches)
    }

    /** The matches with an issue, in the order they were added, and every one of them. */
    function Issues(): (r: seq<Match>)
      reads this
      ensures IsSubsequence(r, matches)
      ensures forall m :: m in r <==> m in matches && HasIssue(m)
    {
      IssuesExactly(matches);
      IssuesOf(matches)
    }

    /** Appends at the end; the earlier matches stay as they were. */
    method Add(m: Match)
      modifies this
      ensures matches == old(matches) + [m]
      ensures Total() == old(Total()) + 1
      ensures Found() == old(Found()) + (if HasTrack(m) then 1 else 0)
      ensures Issues() == old(Issues()) + (if HasIssue(m) then [m] else [])
    {
      CountsAfterAppend(matches, m);
      matches := matches + [m];
    }
  }

  /** Reads back a "M:SS" display as a number of seconds. */
  function ReadMinutesSeconds(s: string): Option<int> {
    var parts := Split(s, ':');
    if |parts| != 2 then None
    else
      var m := parts[0];
      var ss := parts[1];
      if m == [] || !(forall i :: 0 <= i < |m| ==> IsDigit(m[i])) then None
      else if |ss| != 2 || !IsDigit(ss[0]) || !IsDigit(ss[1]) then None
      else
        var sec := DigitValue(ss[0]) * 10 + DigitValue(ss[1]);
        if sec >= 60 then None else Some(DigitsValue(m) * 60 + sec)
  }

  /** The display of a non-negative duration reads back as its whole seconds: nothing is lost but the milliseconds. */
  lemma DisplayReadsBack(song: Song)
    requires song.durationMs >= 0
    ensures ReadMinutesSeconds(song.DurationDisplay()) == Some(song.DurationSeconds())
  {
    MinutesSecondsRoundTrip(song.durationMs);
  }

  /** The shared shape of `duration_display` and `format_duration`, read back. */
  lemma MinutesSecondsRoundTrip(ms: int)
    requires ms >= 0
    ensures ReadMinutesSeconds(IntToString(ms / 1000 / 60) + ":" + TwoDigits(ms / 1000 % 60)) == Some(ms / 1000)
  {
    var total := ms / 1000;
    var q := total / 60;
    var r := total % 60;
    assert IntToString(q) == NatToString(q);
    ReadMinutesSecondsOf(q, r);
    assert q * 60 + r == total;
  }

  lemma ReadMinutesSecondsOf(q: nat, r: nat)
    requires r < 60
    ensures ReadMinutesSeconds(NatToString(q) + ":" + TwoDigits(r)) == Some(q * 60 + r)
  {
    var m := NatToString(q);
    var ss := TwoDigits(r);
    assert ':' !in m;
    assert ':' !in ss;
    SplitPair(m, ':', ss);
    assert Split(m + ":" + ss, ':') == [m, ss];
    DigitsOfNat(q);
  }
}
