/**
 * The deterministic half of the timeline builder: reading a year out of a
 * date string, chronological sorting, period classification, date
 * confidence, the `DATE | EVENT | CONFIDENCE` reply format of the model,
 * grouping by period and the covered date range. Confidence values are
 * kept in tenths (9 stands for 0.9).
 */
module Timeline {
  import opened Wrappers
  import opened Text
  import StableSort
  import Grouping

  datatype TimelineEvent = TimelineEvent(
    date: string,
    event: string,
    sourceDocument: string,
    pageNumber: Option<int>,
    confidence: nat,
    dateType: string)

  // ----- the year inside a date string -----

  /** End of the run of word characters that starts at `i`. */
  function WordEnd(s: string, i: nat): (e: nat)
    requires i <= |s|
    ensures i <= e <= |s|
    ensures forall j :: i <= j < e ==> IsWordChar(s[j])
    ensures e < |s| ==> !IsWordChar(s[e])
    decreases |s| - i
  {
    if i == |s| || !IsWordChar(s[i]) then i else WordEnd(s, i + 1)
  }

  /** `\b(\d{1,4})\b` matches at `i`: a whole word made of one to four digits starts there. */
  predicate YearWordAt(s: string, i: nat) {
    i < |s| && (i == 0 || !IsWordChar(s[i - 1])) && IsWordChar(s[i])
    && WordEnd(s, i) - i <= 4
    && forall j :: i <= j < WordEnd(s, i) ==> IsDigit(s[j])
  }

  /** Position `i` is not strictly inside a run of word characters. */
  predicate NotInsideWord(s: string, i: nat) {
    i <= |s| && (i == 0 || i == |s| || !IsWordChar(s[i - 1]) || !IsWordChar(s[i]))
  }

  /** `re.search(r'\b(\d{1,4})\b', s)` from position `i`: where the match starts. */
  function FindYear(s: string, i: nat): (r: Option<nat>)
    requires NotInsideWord(s, i)
    ensures r.Some? ==> i <= r.value < |s| && YearWordAt(s, r.value)
    ensures r.Some? ==> forall j :: i <= j < r.value ==> !YearWordAt(s, j)
    ensures r.None? ==> forall j :: i <= j < |s| ==> !YearWordAt(s, j)
    decreases |s| - i
  {
    if i == |s| then None
    else if !IsWordChar(s[i]) then FindYear(s, i + 1)
    else if YearWordAt(s, i) then Some(i)
    else
      var e := WordEnd(s, i);
      assert forall j :: i < j < e ==> !YearWordAt(s, j);
      FindYear(s, e)
  }

  /** `int(match.group(1))` for the first year-like word of `s`, if any. */
  function YearOf(s: string): (r: Option<nat>)
    ensures r.Some? <==> exists j :: 0 <= j < |s| && YearWordAt(s, j)
  {
    match FindYear(s, 0)
    case None => None
    case Some(i) => Some(DigitsValue(s[i..WordEnd(s, i)]))
  }

  /** The sort key of `_sort_events_chronologically`: BC years count negative, undated is 0. */
  function YearKey(date: string): (k: int)
    ensures YearOf(Lower(date)).None? ==> k == 0
    ensures YearOf(Lower(date)).Some? && Contains(Lower(date), "bc") ==> k == -(YearOf(Lower(date)).value as int)
    ensures YearOf(Lower(date)).Some? && !Contains(Lower(date), "bc") ==> k == YearOf(Lower(date)).value
  {
    var lower := Lower(date);
    match YearOf(lower)
    case None => 0
    case Some(y) => var v: int := y; if Contains(lower, "bc") then -v else v
  }

  function EventKey(e: TimelineEvent): StableSort.Key {
    (YearKey(e.date), 0)
  }

  /** `sorted(events, key=extract_year)`. */
  function SortChronologically(events: seq<TimelineEvent>): seq<TimelineEvent> {
    StableSort.Sort(EventKey, false, events)
  }

  /** The sorted events are a permutation of the input, in non-decreasing year order. */
  lemma SortChronologicallyCorrect(events: seq<TimelineEvent>)
    ensures multiset(SortChronologically(events)) == multiset(events)
    ensures forall i, j :: 0 <= i < j < |events| ==>
      YearKey(SortChronologically(events)[i].date) <= YearKey(SortChronologically(events)[j].date)
  {
    StableSort.SortOrdered(EventKey, false, events);
  }

  /** Events of the same year keep their order of extraction. */
  lemma SortChronologicallyStable(events: seq<TimelineEvent>, year: int)
    ensures StableSort.WithKey(EventKey, (year, 0), SortChronologically(events))
         == StableSort.WithKey(EventKey, (year, 0), events)
  {
    StableSort.SortStable(EventKey, false, (year, 0), events);
  }

  // ----- historical periods -----

  const PeriodNames: seq<string> := [
    "Archaic Period (800+ BC)", "Classical Period (480-323 BC)", "Early Classical (480-323 BC)",
    "Hellenistic Period (323-146 BC)", "Roman Republic (146-27 BC)", "Early Roman Empire",
    "Roman Empire (27 BC - 476 AD)", "Early Medieval (476-1000 AD)", "Medieval Period (1000+ AD)"]

  /** Which entry of `PeriodNames` a year falls in: the thresholds of `_determine_historical_period`, checked in order. */
  function PeriodIndex(bc: bool, year: nat): (k: nat)
    ensures k < |PeriodNames|
  {
    if bc then
      if year > 800 then 0 else if year > 480 then 1 else if year > 323 then 2
      else if year > 146 then 3 else if year > 27 then 4 else 5
    else if year <= 476 then 6 else if year <= 1000 then 7 else 8
  }

  /** `_determine_historical_period`. */
  function Period(date: string): (p: string)
    ensures YearOf(Lower(date)).None? <==> p == "Unknown Period"
    ensures p != "Unknown Period" ==> p in PeriodNames
  {
    var lower := Lower(date);
    match YearOf(lower)
    case None => "Unknown Period"
    case Some(year) => PeriodNames[PeriodIndex(Contains(lower, "bc"), year)]
  }

  /** The period index of a dated string. */
  function DatePeriodIndex(date: string): nat
    requires YearOf(Lower(date)).Some?
  {
    PeriodIndex(Contains(Lower(date), "bc"), YearOf(Lower(date)).value)
  }

  /**
   * Period classification agrees with the chronological sort key: of two
   * dated strings, the strictly earlier one never falls in a later period.
   */
  lemma PeriodFollowsChronology(a: string, b: string)
    requires YearOf(Lower(a)).Some? && YearOf(Lower(b)).Some?
    requires YearKey(a) < YearKey(b)
    ensures DatePeriodIndex(a) <= DatePeriodIndex(b)
  {
    var la, lb := Lower(a), Lower(b);
    PeriodIndexMonotone(Contains(la, "bc"), YearOf(la).value, Contains(lb, "bc"), YearOf(lb).value);
  }

  /** The period index never decreases along the signed year (BC negative). */
  lemma PeriodIndexMonotone(bc1: bool, y1: nat, bc2: bool, y2: nat)
    requires (if bc1 then -(y1 as int) else y1 as int) < (if bc2 then -(y2 as int) else y2 as int)
    ensures PeriodIndex(bc1, y1) <= PeriodIndex(bc2, y2)
  {
  }

  // ----- date confidence -----

  /** End of the run of ASCII digits that starts at `i`. */
  function DigitEnd(s: string, i: nat): (e: nat)
    requires i <= |s|
    ensures i <= e <= |s|
    ensures forall j :: i <= j < e ==> IsDigit(s[j])
    ensures e < |s| ==> !IsDigit(s[e])
    decreases |s| - i
  {
    if i == |s| || !IsDigit(s[i]) then i else DigitEnd(s, i + 1)
  }

  /** `\b` just after a word character at `q - 1`. */
  predicate WordBoundary(s: string, q: nat) {
    q == |s| || (q < |s| && !IsWordChar(s[q]))
  }

  /** `(BC|AD|BCE|CE)\b` at `p`, case-sensitively. */
  predicate EraAt(s: string, p: nat) {
    (MatchesAt(s, p, "BC") && WordBoundary(s, p + 2))
    || (MatchesAt(s, p, "AD") && WordBoundary(s, p + 2))
    || (MatchesAt(s, p, "BCE") && WordBoundary(s, p + 3))
    || (MatchesAt(s, p, "CE") && WordBoundary(s, p + 2))
  }

  /** `\b\d{1,4}\s*(BC|AD|BCE|CE)\b` matches at `i`. */
  predicate EraDateAt(s: string, i: nat) {
    i < |s| && (i == 0 || !IsWordChar(s[i - 1])) && IsDigit(s[i])
    && DigitEnd(s, i) - i <= 4
    && EraAt(s, SkipSpace(s, DigitEnd(s, i)))
  }

  /** `re.search(...)` for that pattern, from position `i`. */
  predicate HasEraDate(s: string, i: nat)
    requires i <= |s|
    decreases |s| - i
  {
    i < |s| && (EraDateAt(s, i) || HasEraDate(s, i + 1))
  }

  lemma {:induction false} HasEraDateMeans(s: string, i: nat)
    requires i <= |s|
    ensures HasEraDate(s, i) <==> exists j :: i <= j < |s| && EraDateAt(s, j)
    decreases |s| - i
  {
    if i < |s| {
      HasEraDateMeans(s, i + 1);
    }
  }

  function BaseConfidence(dateType: string): (c: nat)
    ensures 5 <= c <= 9
  {
    if dateType == "exact" then 9
    else if dateType == "century" then 7
    else if dateType == "approximate" then 6
    else if dateType == "range" then 8
    else if dateType == "reign" then 8
    else 5
  }

  /** `_calculate_date_confidence`, in tenths. */
  function DateConfidence(date: string, dateType: string): (c: nat)
    ensures c == BaseConfidence(dateType) + (if HasEraDate(date, 0) then 1 else 0)
    ensures 5 <= c <= 10
  {
    var base := BaseConfidence(dateType) + (if HasEraDate(date, 0) then 1 else 0);
    if base < 10 then base else 10
  }

  /** "146 BC" carries an era marker, so an exact date of that form is fully trusted. */
  lemma EraDateExample()
    ensures DateConfidence("146 BC", "exact") == 10
  {
    var s := "146 BC";
    assert DigitEnd(s, 3) == 3;
    assert DigitEnd(s, 0) == 3;
    assert SkipSpace(s, 4) == 4;
    assert SkipSpace(s, 3) == 4;
    assert s[4..6] == "BC";
    assert EraDateAt(s, 0);
  }

  /** "2nd century BC" has no number directly followed by an era, so it keeps the century confidence. */
  lemma CenturyDateExample()
    ensures DateConfidence("2nd century BC", "century") == 7
  {
    var t := "2nd century BC";
    forall j | 0 <= j < |t| ensures !EraDateAt(t, j) {
      if j == 0 {
        assert DigitEnd(t, 1) == 1;
        assert SkipSpace(t, 1) == 1;
        assert t[1..3] != "BC" && t[1..3] != "AD" && t[1..3] != "CE";
      }
    }
    HasEraDateMeans(t, 0);
  }

  // ----- the model's DATE | EVENT | CONFIDENCE reply -----

  /** The confidence words of the reply, in tenths. */
  function AiConfidence(word: string): (c: nat)
    ensures c in {5, 7, 9}
  {
    var w := Lower(word);
    if w == "high" then 9 else if w == "medium" then 7 else 5
  }

  /** One reply line: kept when it has at least three `|`-separated fields. */
  function AiLineEvent(line: string, source: string, page: Option<int>): (r: Option<TimelineEvent>)
    ensures r.Some? <==> '|' in line && |Split(line, '|')| >= 3
  {
    if '|' in line then
      var parts := Split(line, '|');
      if |parts| >= 3 then
        Some(TimelineEvent(Strip(parts[0]), Strip(parts[1]), source, page,
                           AiConfidence(Strip(parts[2])), "ai_extracted"))
      else None
    else None
  }

  function AiLinesEvents(lines: seq<string>, source: string, page: Option<int>): (r: seq<TimelineEvent>)
    ensures |r| <= |lines|
    ensures forall e :: e in r ==> e.dateType == "ai_extracted" && e.confidence in {5, 7, 9}
    ensures forall e :: e in r ==> e.sourceDocument == source && e.pageNumber == page
  {
    if lines == [] then []
    else
      (match AiLineEvent(lines[0], source, page) case Some(e) => [e] case None => [])
      + AiLinesEvents(lines[1..], source, page)
  }

  /** Every event read comes from one of the lines. */
  lemma {:induction false} AiLinesSound(lines: seq<string>, source: string, page: Option<int>, e: TimelineEvent)
    requires e in AiLinesEvents(lines, source, page)
    ensures exists k :: 0 <= k < |lines| && AiLineEvent(lines[k], source, page) == Some(e)
    decreases |lines|
  {
    var rest := AiLinesEvents(lines[1..], source, page);
    if e in rest {
      AiLinesSound(lines[1..], source, page, e);
      var k :| 0 <= k < |lines[1..]| && AiLineEvent(lines[1..][k], source, page) == Some(e);
      assert lines[1..][k] == lines[k + 1];
    } else {
      assert AiLineEvent(lines[0], source, page) == Some(e);
    }
  }

  /** Every line with a `|` and at least three fields gives its event. */
  lemma {:induction false} AiLinesComplete(lines: seq<string>, source: string, page: Option<int>, k: nat)
    requires k < |lines| && AiLineEvent(lines[k], source, page).Some?
    ensures AiLineEvent(lines[k], source, page).value in AiLinesEvents(lines, source, page)
    decreases |lines|
  {
    if k > 0 {
      assert lines[1..][k - 1] == lines[k];
      AiLinesComplete(lines[1..], source, page, k - 1);
    }
  }

  /** The parsing half of `_extract_ai_temporal_events`, given the model's reply text; an empty reply gives no events. */
  function ParseAiTimeline(reply: string, source: string, page: Option<int>): (r: seq<TimelineEvent>)
    ensures reply == "" ==> r == []
  {
    if reply == "" then [] else AiLinesEvents(Split(Strip(reply), '\n'), source, page)
  }

  /** Every event of a reply comes from a reply line with a `|` and at least three fields. */
  lemma ParseAiTimelineSound(reply: string, source: string, page: Option<int>, e: TimelineEvent)
    requires e in ParseAiTimeline(reply, source, page)
    ensures exists line :: line in Split(Strip(reply), '\n') && '|' in line && |Split(line, '|')| >= 3
                           && AiLineEvent(line, source, page) == Some(e)
  {
    var lines := Split(Strip(reply), '\n');
    AiLinesSound(lines, source, page, e);
    var k :| 0 <= k < |lines| && AiLineEvent(lines[k], source, page) == Some(e);
    assert lines[k] in lines;
  }

  /** Every line of a non-empty reply with a `|` and at least three fields gives its event. */
  lemma ParseAiTimelineComplete(reply: string, source: string, page: Option<int>, line: string)
    requires reply != "" && line in Split(Strip(reply), '\n') && '|' in line && |Split(line, '|')| >= 3
    ensures AiLineEvent(line, source, page).Some? && AiLineEvent(line, source, page).value in ParseAiTimeline(reply, source, page)
  {
    var lines := Split(Strip(reply), '\n');
    var k :| 0 <= k < |lines| && lines[k] == line;
    AiLinesComplete(lines, source, page, k);
  }

  /** A line written in the requested format is read back field for field. */
  lemma AiLineRoundTrip(date: string, event: string, confidence: string, source: string, page: Option<int>)
    requires CleanField(date) && CleanField(event) && CleanField(confidence)
    ensures AiLineEvent(PipeRow(date, event, confidence), source, page)
         == Some(TimelineEvent(date, event, source, page, AiConfidence(confidence), "ai_extracted"))
  {
    var line := PipeRow(date, event, confidence);
    SplitPipeRow(date, event, confidence);
    assert line[|date| + 1] == '|';
    StripPadded(date);
    StripPadded(event);
    StripPadded(confidence);
  }

  /** A well-formed row for each event: its date, its description and its confidence word. */
  predicate CleanRow(row: (string, string, string)) {
    CleanField(row.0) && CleanField(row.1) && CleanField(row.2)
    && '\n' !in row.0 && '\n' !in row.1 && '\n' !in row.2
  }

  function Rows(rows: seq<(string, string, string)>): (r: seq<string>)
    ensures |r| == |rows| && forall k :: 0 <= k < |rows| ==> r[k] == PipeRow(rows[k].0, rows[k].1, rows[k].2)
  {
    seq(|rows|, k requires 0 <= k < |rows| => PipeRow(rows[k].0, rows[k].1, rows[k].2))
  }

  function RowEvents(rows: seq<(string, string, string)>, source: string, page: Option<int>): (r: seq<TimelineEvent>)
    ensures |r| == |rows|
    ensures forall k :: 0 <= k < |rows| ==>
              r[k] == TimelineEvent(rows[k].0, rows[k].1, source, page, AiConfidence(rows[k].2), "ai_extracted")
  {
    seq(|rows|, k requires 0 <= k < |rows| =>
          TimelineEvent(rows[k].0, rows[k].1, source, page, AiConfidence(rows[k].2), "ai_extracted"))
  }

  lemma AiLinesCons(lines: seq<string>, source: string, page: Option<int>, e: TimelineEvent)
    requires lines != [] && AiLineEvent(lines[0], source, page) == Some(e)
    ensures AiLinesEvents(lines, source, page) == [e] + AiLinesEvents(lines[1..], source, page)
  {
  }

  lemma RowsTail(rows: seq<(string, string, string)>, source: string, page: Option<int>)
    requires rows != []
    ensures Rows(rows)[1..] == Rows(rows[1..])
    ensures RowEvents(rows, source, page) == [RowEvents(rows, source, page)[0]] + RowEvents(rows[1..], source, page)
  {
    assert RowEvents(rows, source, page)[1..] == RowEvents(rows[1..], source, page);
  }

  /** Lines written in the requested format are read back event for event, in order. */
  lemma {:induction false} AiLinesRoundTrip(rows: seq<(string, string, string)>, source: string, page: Option<int>)
    requires forall k :: 0 <= k < |rows| ==> CleanRow(rows[k])
    ensures AiLinesEvents(Rows(rows), source, page) == RowEvents(rows, source, page)
    decreases |rows|
  {
    if rows != [] {
      var lines := Rows(rows);
      var events := RowEvents(rows, source, page);
      AiLineRoundTrip(rows[0].0, rows[0].1, rows[0].2, source, page);
      AiLinesCons(lines, source, page, events[0]);
      AiLinesRoundTrip(rows[1..], source, page);
      RowsTail(rows, source, page);
    }
  }

  /**
   * A whole reply in the requested format, one `DATE | EVENT | CONFIDENCE`
   * row per line, is read back as exactly its events in row order.
   */
  lemma AiReplyRoundTrip(rows: seq<(string, string, string)>, source: string, page: Option<int>)
    requires rows != [] && forall k :: 0 <= k < |rows| ==> CleanRow(rows[k])
    requires rows[0].0 != [] && rows[|rows| - 1].2 != []
    ensures ParseAiTimeline(Join("\n", Rows(rows)), source, page) == RowEvents(rows, source, page)
  {
    var lines := Rows(rows);
    var reply := Join("\n", lines);
    var first := lines[0];
    var last := lines[|lines| - 1];
    assert first[0] == rows[0].0[0];
    assert last[|last| - 1] == rows[|rows| - 1].2[|rows[|rows| - 1].2| - 1];
    JoinFirst("\n", lines);
    JoinLast("\n", lines);
    StripOfStripped(reply);
    forall k | 0 <= k < |lines| ensures '\n' !in lines[k] {
      assert lines[k] == rows[k].0 + " | " + rows[k].1 + " | " + rows[k].2;
    }
    SplitJoin(lines, '\n');
    AiLinesRoundTrip(rows, source, page);
  }

  // ----- grouping and range -----

  function EventPeriod(e: TimelineEvent): string {
    Period(e.date)
  }

  /**
   * `_group_events_by_period`: one group per period met, in order of first
   * appearance, holding that period's events in timeline order.
   */
  method GroupEventsByPeriod(events: seq<TimelineEvent>) returns (groups: seq<Grouping.Group<string, TimelineEvent>>)
    ensures Grouping.GroupsOf(EventPeriod, events, groups)
  {
    groups := Grouping.GroupBy(EventPeriod, events);
  }

  /** `_get_date_range`: the dates of the first and last event. */
  function DateRange(events: seq<TimelineEvent>): (r: (string, string))
    ensures events == [] ==> r == ("Unknown", "Unknown")
    ensures events != [] ==> r.0 == events[0].date && r.1 == events[|events| - 1].date
  {
    if events == [] then ("Unknown", "Unknown") else (events[0].date, events[|events| - 1].date)
  }

  /** On a sorted timeline the range spans the earliest and the latest year key. */
  lemma DateRangeSpansTimeline(events: seq<TimelineEvent>, e: TimelineEvent)
    requires e in SortChronologically(events)
    ensures YearKey(DateRange(SortChronologically(events)).0) <= YearKey(e.date)
    ensures YearKey(e.date) <= YearKey(DateRange(SortChronologically(events)).1)
  {
    var s := SortChronologically(events);
    SortChronologicallyCorrect(events);
    var i :| 0 <= i < |s| && s[i] == e;
    assert |s| == |events|;
    if i > 0 {
      assert YearKey(s[0].date) <= YearKey(s[i].date);
    }
    if i < |s| - 1 {
      assert YearKey(s[i].date) <= YearKey(s[|s| - 1].date);
    }
  }
}
