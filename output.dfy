/**
 * The console report (src/kutx2spotify/output.py) as the text it prints: durations, the header,
 * one line per match and the issue details. Styles are dropped; each `print_*` function becomes
 * a function returning its lines in order.
 */
module Output {
  import opened Wrappers
  import opened Text
  import opened Seqs
  import opened Models

  /** Width of the rule lines `"-" * 41`. */
  const RuleWidth := 41

  /** The rule line `"-" * 41`. */
  const Rule: string := Repeat('-', RuleWidth)

  const SearchUrlPrefix := "https://open.spotify.com/search/"

  // ---------------------------------------------------------------------------
  // Durations
  // ---------------------------------------------------------------------------

  /** `format_duration`: `//` and `%` by positive divisors are floor division, as Dafny's are. */
  function FormatDuration(durationMs: int): string {
    var totalSeconds := durationMs / 1000;
    IntToString(totalSeconds / 60) + ":" + TwoDigits(totalSeconds % 60)
  }

  /** `format_duration` and `Song.duration_display` print the same text for every song. */
  lemma FormatAgreesWithDisplay(song: Song)
    ensures FormatDuration(song.durationMs) == song.DurationDisplay()
  {
  }

  /** A non-negative duration reads back as its whole seconds; the seconds part is two digits below 60. */
  lemma FormatDurationReadsBack(durationMs: int)
    requires durationMs >= 0
    ensures ReadMinutesSeconds(FormatDuration(durationMs)) == Some(durationMs / 1000)
  {
    MinutesSecondsRoundTrip(durationMs);
  }

  lemma FormatDurationZero()
    ensures FormatDuration(0) == "0:00"
  {
    assert FormatDuration(0) == IntToString(0) + ":" + TwoDigits(0);
  }

  lemma FormatDurationExamples()
    ensures FormatDuration(63000) == "1:03"
    ensures FormatDuration(252000) == "4:12"
  {
    assert IntToString(1) == "1" && TwoDigits(3) == "03";
    assert FormatDuration(63000) == IntToString(1) + ":" + TwoDigits(3);
    assert IntToString(4) == "4" && TwoDigits(12) == "12";
    assert FormatDuration(252000) == IntToString(4) + ":" + TwoDigits(12);
  }

  lemma FormatDurationTenMinutes()
    ensures FormatDuration(600000) == "10:00"
  {
    assert NatToString(10) == "10" by { assert NatToString(1) == "1"; }
    assert FormatDuration(600000) == IntToString(10) + ":" + TwoDigits(0);
  }

  /** `format_duration_diff`: whole seconds rounded down, '+' in front of a non-negative count. */
  function FormatDurationDiff(diffMs: int): string {
    var diffSeconds := diffMs / 1000;
    var sign := if diffSeconds >= 0 then "+" else "";
    sign + IntToString(diffSeconds) + "s"
  }

  /**
   * The text starts with '+' iff the difference is not negative and with '-' iff it is; the
   * seconds are rounded down, so a difference of -1 ms already shows as "-1s".
   */
  lemma DurationDiffSign(diffMs: int)
    ensures var r := FormatDurationDiff(diffMs);
      && |r| >= 3 && r[|r| - 1] == 's'
      && (r[0] == '+' <==> diffMs >= 0)
      && (r[0] == '-' <==> diffMs < 0)
      && (diffMs >= 0 ==> r == "+" + NatToString(diffMs / 1000) + "s")
      && (diffMs < 0 ==> r == "-" + NatToString(-(diffMs / 1000)) + "s")
  {
  }

  lemma DurationDiffExamples()
    ensures FormatDurationDiff(0) == "+0s"
    ensures FormatDurationDiff(-5000) == "-5s"
    ensures FormatDurationDiff(15000) == "+15s"
    ensures FormatDurationDiff(-1) == "-1s"
  {
    assert NatToString(15) == "15" by { assert NatToString(1) == "1"; }
  }

  // ---------------------------------------------------------------------------
  // Header
  // ---------------------------------------------------------------------------

  /** Python truthiness of an optional string. */
  predicate Given(s: Option<string>) {
    s.Some? && s.value != ""
  }

  /** The header text of `print_playlist_header`. */
  function Header(date: string, start: Option<string>, end: Option<string>): string {
    if Given(start) && Given(end) then "KUTX Playlist: " + date + " " + start.value + " - " + end.value
    else if Given(start) then "KUTX Playlist: " + date + " " + start.value + " - end of day"
    else if Given(end) then "KUTX Playlist: " + date + " start of day - " + end.value
    else "KUTX Playlist: " + date
  }

  /** `print_playlist_header`: a blank line, the header, its underline of '=' and a blank line. */
  function HeaderLines(date: string, start: Option<string>, end: Option<string>): seq<string> {
    var header := Header(date, start, end);
    ["", header, Repeat('=', |header|), ""]
  }

  /**
   * The header's tail says which bounds are present: both, the start up to the end of day, the
   * start of day up to the end, or just the date; the underline is as long as the header.
   */
  lemma HeaderCases(date: string, start: Option<string>, end: Option<string>)
    ensures var p := "KUTX Playlist: " + date;
      && (Given(start) && Given(end) ==> Header(date, start, end) == p + " " + start.value + " - " + end.value)
      && (Given(start) && !Given(end) ==> Header(date, start, end) == p + " " + start.value + " - end of day")
      && (!Given(start) && Given(end) ==> Header(date, start, end) == p + " start of day - " + end.value)
      && (!Given(start) && !Given(end) ==> Header(date, start, end) == p)
      && Header(date, start, end)[..|p|] == p
    ensures var lines := HeaderLines(date, start, end);
      |lines| == 4 && |lines[2]| == |lines[1]| && (forall i :: 0 <= i < |lines[2]| ==> lines[2][i] == '=')
  {
  }

  // ---------------------------------------------------------------------------
  // The match list
  // ---------------------------------------------------------------------------

  /** `_print_match_line`: `* ` or two spaces, the index right-aligned in two columns, then the song. */
  function MatchLine(idx: int, m: Match): string {
    LineHead(idx, m) + LineTail(m.song)
  }

  /** The marker, the index column, title and artist. */
  function LineHead(idx: int, m: Match): string {
    (if HasIssue(m) then "*" else " ") + " " + PadLeft(IntToString(idx), 2, ' ') + ". " + m.song.title + " - " + m.song.artist
  }

  /** The album in parentheses when there is one, then the bracketed duration. */
  function LineTail(song: Song): string {
    (if song.album != "" then " (" + song.album + ")" else "") + " [" + FormatDuration(song.durationMs) + "]"
  }

  /** `print_match_list`: one line per match, numbered from 1 in result order. */
  function MatchListLines(ms: seq<Match>): (lines: seq<string>)
    ensures |lines| == |ms|
    ensures forall i :: 0 <= i < |ms| ==> lines[i] == MatchLine(i + 1, ms[i])
  {
    seq(|ms|, i requires 0 <= i < |ms| => MatchLine(i + 1, ms[i]))
  }

  /**
   * Line i is about match i under index i + 1: it starts with '*' iff that match has an issue
   * (a space otherwise), names title and artist, shows the album only when there is one, and
   * ends with the bracketed duration.
   */
  lemma MatchLineShape(idx: nat, m: Match)
    requires 1 <= idx < 100
    ensures var line := MatchLine(idx, m);
      var num := PadLeft(IntToString(idx), 2, ' ');
      var head := [line[0]] + " " + num + ". " + m.song.title + " - " + m.song.artist;
      && (line[0] == '*' <==> HasIssue(m))
      && (line[0] == ' ' <==> !HasIssue(m))
      && |num| == 2 && num[1] == DigitChar(idx % 10)
      && line[..|head|] == head
      && (m.song.album == "" ==> line[|head|..] == " [" + FormatDuration(m.song.durationMs) + "]")
      && (m.song.album != "" ==> line[|head|..] == " (" + m.song.album + ")" + " [" + FormatDuration(m.song.durationMs) + "]")
  {
    IndexColumn(idx);
    LineHeadShape(idx, m);
    LineTailShape(m.song);
    var line := MatchLine(idx, m);
    var head := LineHead(idx, m);
    assert line[0] == head[0];
    assert line[..|head|] == head && line[|head|..] == LineTail(m.song);
  }

  lemma LineHeadShape(idx: int, m: Match)
    ensures var head := LineHead(idx, m);
      && |head| > 0
      && (head[0] == '*' <==> HasIssue(m))
      && (head[0] == ' ' <==> !HasIssue(m))
      && head == [head[0]] + " " + PadLeft(IntToString(idx), 2, ' ') + ". " + m.song.title + " - " + m.song.artist
  {
    var prefix := if HasIssue(m) then "*" else " ";
    assert LineHead(idx, m)[0] == prefix[0] && [prefix[0]] == prefix;
  }

  lemma LineTailShape(song: Song)
    ensures song.album == "" ==> LineTail(song) == " [" + FormatDuration(song.durationMs) + "]"
    ensures song.album != "" ==> LineTail(song) == " (" + song.album + ")" + " [" + FormatDuration(song.durationMs) + "]"
  {
    assert "" + " [" == " [";
  }

  /** An index below 100 fills exactly the two columns, its last digit in the second. */
  lemma IndexColumn(idx: nat)
    requires 1 <= idx < 100
    ensures var num := PadLeft(IntToString(idx), 2, ' ');
      |num| == 2 && num[1] == DigitChar(idx % 10)
  {
    if idx >= 10 {
      assert NatToString(idx) == NatToString(idx / 10) + [DigitChar(idx % 10)];
    }
  }

  // ---------------------------------------------------------------------------
  // Issues
  // ---------------------------------------------------------------------------

  /** `enumerate(ms, 1)`. */
  function Enumerate(ms: seq<Match>): (es: seq<(int, Match)>)
    ensures |es| == |ms|
    ensures forall i :: 0 <= i < |ms| ==> es[i] == (i + 1, ms[i])
  {
    seq(|ms|, i requires 0 <= i < |ms| => (i + 1, ms[i]))
  }

  function EntryHasIssue(e: (int, Match)): bool { HasIssue(e.1) }

  function Second(e: (int, Match)): Match { e.1 }

  /** The numbered matches `print_issues` details. */
  function IssueEntries(ms: seq<Match>): seq<(int, Match)> {
    Filter(Enumerate(ms), EntryHasIssue)
  }

  /** `generate_spotify_search_url`; `encode` stands for `quote_plus`. */
  function SearchUrl(title: string, artist: string, encode: string -> string): string {
    SearchUrlPrefix + encode(title + " " + artist)
  }

  /** `_print_issue_detail`. */
  function IssueDetail(idx: int, m: Match, encode: string -> string): seq<string> {
    var song := m.song;
    var first := "* #" + IntToString(idx) + ": " + song.title + " - " + song.artist;
    if m.status == NotFound then
      [first, "  Not found on Spotify", "  Search: " + SearchUrl(song.title, song.artist, encode)]
    else if m.status == DurationMismatch && m.track.Some? then
      var track := m.track.value;
      var diff := FormatDurationDiff(track.durationMs - song.durationMs);
      [first, "  KUTX album: " + song.album,
       "  Recommended: " + track.album + " (" + FormatDuration(track.durationMs) + ", " + diff + ")",
       "  Resolve: --resolve " + IntToString(idx) + "=1"]
    else [first]
  }

  function DetailsOf(es: seq<(int, Match)>, encode: string -> string): seq<string> {
    if es == [] then [] else IssueDetail(es[0].0, es[0].1, encode) + DetailsOf(es[1..], encode)
  }

  /** `print_issues`: nothing without issues; else the exact-match tally and the details of the issues only. */
  function IssuesLines(ms: seq<Match>, encode: string -> string): seq<string> {
    if IssuesOf(ms) == [] then []
    else
      ["", Rule, "Exact matches: " + IntToString(ExactCount(ms)) + "/" + IntToString(|ms|), "", "ISSUES:"]
        + DetailsOf(IssueEntries(ms), encode)
  }

  lemma {:induction false} EnumerateSnoc(ms: seq<Match>, m: Match)
    ensures Enumerate(ms + [m]) == Enumerate(ms) + [(|ms| + 1, m)]
  {
  }

  /** The matches of the detailed entries, in order, are `MatchResult.issues`. */
  lemma {:induction false} IssueEntriesAreIssues(ms: seq<Match>)
    ensures Map(IssueEntries(ms), Second) == IssuesOf(ms)
  {
    if ms != [] {
      var front := ms[..|ms| - 1];
      var m := ms[|ms| - 1];
      assert ms == front + [m];
      IssueEntriesAreIssues(front);
      EnumerateSnoc(front, m);
      FilterConcat(Enumerate(front), [(|front| + 1, m)], EntryHasIssue);
      FilterConcat(front, [m], HasIssue);
      var a := IssueEntries(front);
      if HasIssue(m) {
        assert IssueEntries(ms) == a + [(|front| + 1, m)];
        assert Map(a + [(|front| + 1, m)], Second) == Map(a, Second) + [m];
      } else {
        assert IssueEntries(ms) == a;
      }
    }
  }

  /**
   * Every detailed entry is an issue under its original 1-based index, and every issue is
   * detailed; without issues `print_issues` prints nothing at all.
   */
  lemma IssuesSelection(ms: seq<Match>, encode: string -> string)
    ensures forall e :: e in IssueEntries(ms) <==> exists i :: 0 <= i < |ms| && e == (i + 1, ms[i]) && HasIssue(ms[i])
    ensures IsSubsequence(IssueEntries(ms), Enumerate(ms))
    ensures |IssueEntries(ms)| == |IssuesOf(ms)|
    ensures IssuesLines(ms, encode) == [] <==> forall i :: 0 <= i < |ms| ==> !HasIssue(ms[i])
  {
    var es := Enumerate(ms);
    forall e ensures e in IssueEntries(ms) <==> exists i :: 0 <= i < |ms| && e == (i + 1, ms[i]) && HasIssue(ms[i]) {
      FilterMembers(es, EntryHasIssue, e);
      if e in es {
        var i :| 0 <= i < |es| && es[i] == e;
        assert e == (i + 1, ms[i]);
      }
    }
    FilterIsSubsequence(es, EntryHasIssue);
    IssueEntriesAreIssues(ms);
    FilterEmpty(ms, HasIssue);
  }

  /** A NOT_FOUND match offers a search link; a mismatch with a track shows its album, duration and resolve hint. */
  lemma IssueDetailCases(idx: int, m: Match, encode: string -> string)
    ensures IssueDetail(idx, m, encode)[0] == "* #" + IntToString(idx) + ": " + m.song.title + " - " + m.song.artist
    ensures m.status == NotFound ==>
      |IssueDetail(idx, m, encode)| == 3
      && IssueDetail(idx, m, encode)[2] == "  Search: " + SearchUrlPrefix + encode(m.song.title + " " + m.song.artist)
    ensures m.status == DurationMismatch && m.track.Some? ==>
      |IssueDetail(idx, m, encode)| == 4
      && IssueDetail(idx, m, encode)[3] == "  Resolve: --resolve " + IntToString(idx) + "=1"
    ensures m.status != NotFound && !(m.status == DurationMismatch && m.track.Some?) ==> |IssueDetail(idx, m, encode)| == 1
  {
  }

  // ---------------------------------------------------------------------------
  // Manual links and the summary
  // ---------------------------------------------------------------------------

  /** `print_manual_links`: a title block, then for every match its numbered line and its search link. */
  function ManualLinksLines(ms: seq<Match>, encode: string -> string): seq<string> {
    ["", "Manual Search Links:", Rule] + LinkLines(ms, encode)
  }

  /** The two lines of every match, in result order, each under its 1-based number. */
  function LinkLines(ms: seq<Match>, encode: string -> string): (lines: seq<string>)
    ensures |lines| == 2 * |ms|
  {
    if ms == [] then []
    else
      LinkLines(ms[..|ms| - 1], encode) + LinkPair(|ms|, ms[|ms| - 1], encode)
  }

  /** The numbered line of one match, then its search link. */
  function LinkPair(idx: int, m: Match, encode: string -> string): (pair: seq<string>)
    ensures |pair| == 2
  {
    [LinkLine(idx, m, false, encode), LinkLine(idx, m, true, encode)]
  }

  function LinkLine(idx: int, m: Match, link: bool, encode: string -> string): string {
    if link then "    " + SearchUrl(m.song.title, m.song.artist, encode)
    else PadLeft(IntToString(idx), 2, ' ') + ". " + m.song.title + " - " + m.song.artist
  }

  /**
   * Every match, issue or not, gets two lines in result order: its 1-based number with title and
   * artist, then its search link.
   */
  lemma ManualLinksSpec(ms: seq<Match>, encode: string -> string, i: nat)
    requires i < |ms|
    ensures |ManualLinksLines(ms, encode)| == 3 + 2 * |ms|
    ensures ManualLinksLines(ms, encode)[3 + 2 * i]
      == PadLeft(IntToString(i + 1), 2, ' ') + ". " + ms[i].song.title + " - " + ms[i].song.artist
    ensures ManualLinksLines(ms, encode)[4 + 2 * i]
      == "    " + SearchUrl(ms[i].song.title, ms[i].song.artist, encode)
  {
    LinkLinesAt(ms, encode, i);
    ManualLinksBody(ms, encode);
    var lines := ManualLinksLines(ms, encode);
    assert lines[3 + 2 * i] == lines[3..][2 * i];
    assert lines[4 + 2 * i] == lines[3..][2 * i + 1];
  }

  lemma ManualLinksBody(ms: seq<Match>, encode: string -> string)
    ensures |ManualLinksLines(ms, encode)| == 3 + |LinkLines(ms, encode)|
    ensures ManualLinksLines(ms, encode)[3..] == LinkLines(ms, encode)
  {
  }

  lemma {:induction false} LinkLinesAt(ms: seq<Match>, encode: string -> string, i: nat)
    requires i < |ms|
    ensures LinkLines(ms, encode)[2 * i] == LinkLine(i + 1, ms[i], false, encode)
    ensures LinkLines(ms, encode)[2 * i + 1] == LinkLine(i + 1, ms[i], true, encode)
  {
    var front := ms[..|ms| - 1];
    var body := LinkLines(front, encode);
    var pair := LinkPair(|ms|, ms[|ms| - 1], encode);
    assert LinkLines(ms, encode) == body + pair;
    if i < |front| {
      LinkLinesAt(front, encode, i);
      assert ms[i] == front[i];
      assert (body + pair)[2 * i] == body[2 * i] && (body + pair)[2 * i + 1] == body[2 * i + 1];
    } else {
      assert (body + pair)[2 * i] == pair[0] && (body + pair)[2 * i + 1] == pair[1];
    }
  }

  /** `print_summary`: the tallies of the result, after a notice in preview mode. */
  function SummaryLines(ms: seq<Match>, preview: bool): seq<string> {
    ["", Rule]
      + (if preview then ["[Preview mode - no changes made]", ""] else [])
      + ["Total tracks: " + IntToString(|ms|),
         "Matched: " + IntToString(FoundCount(ms)),
         "Not found: " + IntToString(NotFoundCount(ms)),
         "Exact matches: " + IntToString(ExactCount(ms)),
         "Issues: " + IntToString(|IssuesOf(ms)|)]
  }

  /**
   * Preview mode only adds the two-line notice; the last line reads "Issues: 0" exactly when no
   * match has an issue, and the matched and not-found counts add up to the total.
   */
  lemma SummarySpec(ms: seq<Match>)
    ensures |SummaryLines(ms, true)| == |SummaryLines(ms, false)| + 2
    ensures SummaryLines(ms, true)[4..] == SummaryLines(ms, false)[2..]
    ensures SummaryLines(ms, false)[6] == "Issues: 0" <==> forall i :: 0 <= i < |ms| ==> !HasIssue(ms[i])
    ensures FoundCount(ms) + NotFoundCount(ms) == |ms|
  {
    FoundPlusNotFound(ms);
    IssuesExactly(ms);
    var n := |IssuesOf(ms)|;
    if n > 0 {
      assert IntToString(n)[0] != '0';
      assert SummaryLines(ms, false)[6] == "Issues: " + IntToString(n);
      assert ("Issues: " + IntToString(n))[8..] == IntToString(n);
    }
  }
}
