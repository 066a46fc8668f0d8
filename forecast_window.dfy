/** `determineForecastConfig`: from the `date-time` and `date-period`
    parameters and the raw query text, the number of days to forecast, the
    label that names the period, and either one specific day or a date range.
    Dates are day numbers (days since an epoch, at local midnight). */
module ForecastWindow {
  import opened Wrappers
  import opened Text

  /** The `date-period` parameter: a phrase such as "this week" or "3 days",
      or an object whose `startDate` and `endDate` may each be missing. */
  datatype DatePeriod =
    | Phrase(text: string)
    | Range(startDate: Option<int>, endDate: Option<int>)

  /** The `periodText` of the configuration. */
  datatype PeriodLabel =
    | Days(n: int)          // `${days}-day`
    | FiveDayWeekly         // '5-day weekly'
    | Weekly                // 'weekly'
    | Daily                 // 'daily'
    | Today                 // 'today'
    | Tomorrow              // 'tomorrow'
    | DayAfterTomorrow      // 'day after tomorrow'
    | LongDate(day: int)    // toLocaleDateString of the day

  /** The object `determineForecastConfig` returns (its `specificInfo` is
      always null and is left out). */
  datatype WindowConfig = WindowConfig(
    days: int,
    period: PeriodLabel,
    specificDate: Option<int>,
    wantsSpecificDay: bool,
    singleDayOnly: bool,
    startDate: Option<int>,
    endDate: Option<int>)

  /** The provider's forecast horizon, the bound of `Math.min(..., 5)`. */
  const MaxForecastDays := 5

  function Min(a: int, b: int): int {
    if a <= b then a else b
  }

  /** The text of a label; `longDate` is the locale's long date format. */
  function LabelText(period: PeriodLabel, longDate: int -> string): string {
    match period
    case Days(n) => IntToString(n) + "-day"
    case FiveDayWeekly => "5-day weekly"
    case Weekly => "weekly"
    case Daily => "daily"
    case Today => "today"
    case Tomorrow => "tomorrow"
    case DayAfterTomorrow => "day after tomorrow"
    case LongDate(day) => longDate(day)
  }

  /** `hasPeriod`: a non-empty phrase, or an object with at least one bound. */
  predicate HasPeriod(datePeriod: Option<DatePeriod>) {
    match datePeriod
    case None => false
    case Some(Phrase(text)) => text != []
    case Some(Range(startDate, endDate)) => startDate.Some? || endDate.Some?
  }

  // The regular expression /(\d+)\s*day/ and its leftmost match.

  /** The end of the run of digits `\d+` starting at `i`. */
  function DigitRunEnd(s: string, i: nat): (k: nat)
    requires i <= |s|
    ensures i <= k <= |s|
    decreases |s| - i
  {
    if i < |s| && IsDigit(s[i]) then DigitRunEnd(s, i + 1) else i
  }

  /** The end of the run of white space `\s*` starting at `i`. */
  function SpaceRunEnd(s: string, i: nat): (k: nat)
    requires i <= |s|
    ensures i <= k <= |s|
    decreases |s| - i
  {
    if i < |s| && IsSpace(s[i]) then SpaceRunEnd(s, i + 1) else i
  }

  /** The digit run is the longest run of digits at `i`. */
  lemma {:induction false} DigitRun(s: string, i: nat)
    requires i <= |s|
    ensures forall j | i <= j < DigitRunEnd(s, i) :: IsDigit(s[j])
    ensures DigitRunEnd(s, i) < |s| ==> !IsDigit(s[DigitRunEnd(s, i)])
    decreases |s| - i
  {
    if i < |s| && IsDigit(s[i]) {
      DigitRun(s, i + 1);
    }
  }

  /** The white-space run is the longest run of white space at `i`. */
  lemma {:induction false} SpaceRun(s: string, i: nat)
    requires i <= |s|
    ensures forall j | i <= j < SpaceRunEnd(s, i) :: IsSpace(s[j])
    ensures SpaceRunEnd(s, i) < |s| ==> !IsSpace(s[SpaceRunEnd(s, i)])
    decreases |s| - i
  {
    if i < |s| && IsSpace(s[i]) {
      SpaceRun(s, i + 1);
    }
  }

  /** The expression matches starting at `i`: digits, optional white space,
      then "day". */
  predicate DayCountAt(s: string, i: nat)
    requires i <= |s|
  {
    i < |s| && IsDigit(s[i]) && StartsWith(s[SpaceRunEnd(s, DigitRunEnd(s, i))..], "day")
  }

  /** The captured digits of a match at `i`, read by `parseInt`. */
  function DayCountValue(s: string, i: nat): nat
    requires i <= |s|
  {
    var digits := s[i..DigitRunEnd(s, i)];
    assert forall k | 0 <= k < |digits| :: IsDigit(digits[k]) by {
      DigitRun(s, i);
      forall k | 0 <= k < |digits| ensures IsDigit(digits[k]) {
        assert digits[k] == s[i + k];
      }
    }
    DecimalValue(digits)
  }

  /** The leftmost match at or after `i` starts at `j`. */
  predicate LeftmostAt(s: string, i: nat, j: nat)
    requires i <= |s|
  {
    i <= j < |s| && DayCountAt(s, j) && forall k | i <= k < j :: !DayCountAt(s, k)
  }

  /** `parseInt(match[1])` for the leftmost match at or after `i`, if any. */
  function DayCountFrom(s: string, i: nat): (r: Option<nat>)
    requires i <= |s|
    ensures r.None? <==> forall j | i <= j <= |s| :: !DayCountAt(s, j)
    ensures r.Some? ==> exists j :: LeftmostAt(s, i, j) && r.value == DayCountValue(s, j)
    decreases |s| - i
  {
    if i == |s| then None
    else if DayCountAt(s, i) then
      assert LeftmostAt(s, i, i);
      Some(DayCountValue(s, i))
    else
      var r := DayCountFrom(s, i + 1);
      assert r.Some? ==> exists j :: LeftmostAt(s, i, j) && r.value == DayCountValue(s, j) by {
        if r.Some? {
          var j :| LeftmostAt(s, i + 1, j) && r.value == DayCountValue(s, j);
          assert LeftmostAt(s, i, j);
        }
      }
      r
  }

  function DayCount(s: string): Option<nat> {
    DayCountFrom(s, 0)
  }

  /** A match of /(\d+)\s*day/ contains "day", so `includes('day')` holds. */
  lemma {:induction false} DayCountContainsDay(s: string, i: nat)
    requires i <= |s| && DayCountFrom(s, i).Some?
    ensures Contains(s, "day")
    decreases |s| - i
  {
    if DayCountAt(s, i) {
      var j := SpaceRunEnd(s, DigitRunEnd(s, i));
      assert s[j..][..3] == s[j..j + 3];
      assert OccursAt(s, "day", j);
      ContainsOccurs(s, "day");
    } else {
      DayCountContainsDay(s, i + 1);
    }
  }

  /** Days and label of a phrase period: "week" is tested before "day", a
      count `N day` gives `min(N, 5)` days, anything else keeps 5 and "5-day". */
  function PhraseWindow(text: string): (int, PeriodLabel) {
    if Contains(text, "week") then (5, FiveDayWeekly)
    else if Contains(text, "day") then
      match DayCount(text)
      case Some(n) => (Min(n, MaxForecastDays), Days(Min(n, MaxForecastDays)))
      case None => (5, Days(5))
    else (5, Days(5))
  }

  /** `Math.ceil((end - start) / 86400000) + 1`, with both bounds taken as
      whole calendar days. */
  function SpanDays(startDate: int, endDate: int): int {
    endDate - startDate + 1
  }

  const RangeWords: seq<string> := ["from", "starting", "beginning", "since"]

  /** `/forecast.*from/`: "forecast", later "from", and no line break between. */
  predicate ForecastThenFrom(query: string) {
    exists i, j | 0 <= i && i + 8 <= j && j + 4 <= |query| ::
      OccursAt(query, "forecast", i) && OccursAt(query, "from", j)
      && forall k | i + 8 <= k < j :: !IsLineTerminator(query[k])
  }

  /** `isRangeFromDate` on the lower-cased query. */
  predicate IsRangeFromDate(query: string) {
    HasAnyWord(query, RangeWords) || ForecastThenFrom(query)
  }

  /** The label of a single day `offset` days after today. */
  function OffsetLabel(target: int, today: int): PeriodLabel {
    var offset := target - today;
    if offset == 0 then Today
    else if offset == 1 then Tomorrow
    else if offset == 2 then DayAfterTomorrow
    else LongDate(target)
  }

  function DefaultWindow(): WindowConfig {
    WindowConfig(5, Days(5), None, false, false, None, None)
  }

  /** `determineForecastConfig(dateTime, datePeriod, queryText)` with the
      clock's current day `today`; an absent query text is the empty string. */
  function ResolveWindow(dateTime: Option<int>, datePeriod: Option<DatePeriod>,
                         queryText: string, today: int): (r: WindowConfig)
    ensures r.days <= MaxForecastDays
    ensures r.period != Weekly
    ensures r.singleDayOnly <==>
              dateTime.Some? && !HasPeriod(datePeriod) && !IsRangeFromDate(ToLower(queryText))
    ensures r.singleDayOnly ==>
              r.days == 1 && r.specificDate == dateTime &&
              r.startDate.None? && r.endDate.None?
    ensures r.wantsSpecificDay == r.singleDayOnly == r.specificDate.Some?
    ensures r.period == Daily <==>
              dateTime.None? && exists d :: datePeriod == Some(Range(Some(d), Some(d)))
    ensures r.endDate.Some? ==> datePeriod == Some(Range(r.startDate, r.endDate))
    ensures r.startDate.Some? && r.endDate.None? ==>
              r.startDate == dateTime && !HasPeriod(datePeriod)
  {
    var hasPeriod := HasPeriod(datePeriod);
    if dateTime.Some? && hasPeriod then
      match datePeriod.value
      case Range(Some(startDate), Some(endDate)) =>
        var days := Min(SpanDays(startDate, endDate), MaxForecastDays);
        var period := if days >= 7 then Weekly else Days(days);
        WindowConfig(days, period, None, false, false, Some(startDate), Some(endDate))
      case Phrase(text) =>
        var (days, period) := PhraseWindow(text);
        WindowConfig(days, period, None, false, false, None, None)
      case Range(_, _) =>
        if queryText != [] && Contains(ToLower(queryText), "week") then
          WindowConfig(5, FiveDayWeekly, None, false, false, None, None)
        else DefaultWindow()
    else if dateTime.Some? then
      if IsRangeFromDate(ToLower(queryText)) then
        WindowConfig(5, Days(5), None, false, false, dateTime, None)
      else
        var target := dateTime.value;
        WindowConfig(1, OffsetLabel(target, today), Some(target), true, true, None, None)
    else if hasPeriod then
      match datePeriod.value
      case Phrase(text) =>
        var (days, period) := PhraseWindow(text);
        WindowConfig(days, period, None, false, false, None, None)
      case Range(Some(startDate), Some(endDate)) =>
        var days := Min(SpanDays(startDate, endDate), MaxForecastDays);
        var period := if days >= 7 then Weekly else if days == 1 then Daily else Days(days);
        WindowConfig(days, period, None, false, false, Some(startDate), Some(endDate))
      case Range(_, _) => DefaultWindow()
    else
      DefaultWindow()
  }

  /** The phrase rules: "week" wins over "day"; the first `N day` gives
      `min(N, 5)` days with no lower bound; otherwise 5 and "5-day". */
  lemma PhraseWindowRules(text: string)
    ensures Contains(text, "week") ==> PhraseWindow(text) == (5, FiveDayWeekly)
    ensures !Contains(text, "week") && DayCount(text).Some? ==>
              var n := Min(DayCount(text).value, MaxForecastDays);
              PhraseWindow(text) == (n, Days(n))
    ensures !Contains(text, "week") && DayCount(text).None? ==> PhraseWindow(text) == (5, Days(5))
  {
    if DayCount(text).Some? {
      DayCountContainsDay(text, 0);
    }
  }

  /** With no usable period and no date-time, the five-day default. */
  lemma ResolveDefault(datePeriod: Option<DatePeriod>, queryText: string, today: int)
    requires !HasPeriod(datePeriod)
    ensures ResolveWindow(None, datePeriod, queryText, today) == DefaultWindow()
  {
  }

  /** A date-time alone names one day, labelled by its distance from today. */
  lemma ResolveSingleDay(target: int, datePeriod: Option<DatePeriod>, queryText: string, today: int)
    requires !HasPeriod(datePeriod) && !IsRangeFromDate(ToLower(queryText))
    ensures var r := ResolveWindow(Some(target), datePeriod, queryText, today);
            && r.days == 1 && r.singleDayOnly && r.wantsSpecificDay
            && r.specificDate == Some(target) && r.startDate.None? && r.endDate.None?
            && (r.period == Today <==> target == today)
            && (r.period == Tomorrow <==> target == today + 1)
            && (r.period == DayAfterTomorrow <==> target == today + 2)
            && (r.period == LongDate(target) <==> !(today <= target <= today + 2))
  {
  }

  /** A date-time with a range word opens a five-day range at that date, with
      no end. */
  lemma ResolveOpenRange(startDate: int, datePeriod: Option<DatePeriod>, queryText: string, today: int)
    requires !HasPeriod(datePeriod) && IsRangeFromDate(ToLower(queryText))
    ensures ResolveWindow(Some(startDate), datePeriod, queryText, today) ==
            WindowConfig(5, Days(5), None, false, false, Some(startDate), None)
  {
  }

  /** A period with both bounds: the inclusive span clamped above at 5 and
      never below, labelled "daily" only without a date-time, and never
      "weekly" since the clamp comes first. */
  lemma ResolveBoundedRange(dateTime: Option<int>, startDate: int, endDate: int,
                            queryText: string, today: int)
    ensures var r := ResolveWindow(dateTime, Some(Range(Some(startDate), Some(endDate))), queryText, today);
            && r.days == Min(endDate - startDate + 1, MaxForecastDays)
            && (endDate - startDate + 1 >= MaxForecastDays ==> r.days == 5 && r.period == Days(5))
            && r.period == (if dateTime.None? && startDate == endDate then Daily else Days(r.days))
            && r.startDate == Some(startDate) && r.endDate == Some(endDate)
            && !r.singleDayOnly
  {
  }

  /** A phrase period gives the same window with or without a date-time, and
      no bounds. */
  lemma ResolvePhrase(dateTime: Option<int>, text: string, queryText: string, today: int)
    requires text != []
    ensures var r := ResolveWindow(dateTime, Some(Phrase(text)), queryText, today);
            && (r.days, r.period) == PhraseWindow(text)
            && r.startDate.None? && r.endDate.None? && !r.singleDayOnly
  {
  }

  /** A period with a single bound: with a date-time the query text decides
      between "5-day weekly" and the default; without one, the default. */
  lemma ResolveOneBound(dateTime: Option<int>, bound: int, startFirst: bool,
                        queryText: string, today: int)
    ensures var p := if startFirst then Range(Some(bound), None) else Range(None, Some(bound));
            var r := ResolveWindow(dateTime, Some(p), queryText, today);
            r == if dateTime.Some? && Contains(ToLower(queryText), "week")
                 then WindowConfig(5, FiveDayWeekly, None, false, false, None, None)
                 else DefaultWindow()
  {
  }

  /** 2024-01-01 to 2024-01-03 is a three-day window; to 2024-01-10 it is
      clamped to five days and labelled "5-day", not "weekly". */
  lemma ResolveRangeExamples(today: int)
    ensures var r := ResolveWindow(None, Some(Range(Some(19723), Some(19725))), "", today);
            r.days == 3 && r.period == Days(3)
    ensures var r := ResolveWindow(None, Some(Range(Some(19723), Some(19732))), "", today);
            r.days == 5 && r.period == Days(5)
    ensures ResolveWindow(None, Some(Range(Some(19723), Some(19723))), "", today).period == Daily
    ensures ResolveWindow(Some(19723), Some(Range(Some(19723), Some(19723))), "", today).period == Days(1)
  {
  }

  /** Nothing clamps from below: an end before the start, or "0 day", asks for
      no days at all. */
  lemma ResolveNonPositiveDays(today: int)
    ensures ResolveWindow(None, Some(Range(Some(19732), Some(19723))), "", today).days == -8
    ensures ResolveWindow(None, Some(Phrase("0 day")), "", today).days == 0
  {
    ZeroDayPhrase();
  }

  lemma ZeroDayPhrase()
    ensures PhraseWindow("0 day") == (0, Days(0))
  {
    var text := "0 day";
    assert !Contains(text, "week") by {
      assert !StartsWith(text, "week") && text[1..] == " day";
      assert !StartsWith(" day", "week") && " day"[1..] == "day";
      assert !StartsWith("day", "week") && "day"[1..] == "ay";
    }
    assert DayCount(text) == Some(0) by {
      assert DayCountAt(text, 0) by {
        assert DigitRunEnd(text, 0) == 1;
        assert SpaceRunEnd(text, 1) == 2;
        assert text[2..] == "day";
      }
      assert DayCountValue(text, 0) == 0 by {
        assert text[0..1] == "0";
      }
    }
    PhraseWindowRules(text);
  }

  /** The text of a label a bounded or phrase period produces is never
      "weekly". */
  lemma PeriodTextNeverWeekly(dateTime: Option<int>, period: DatePeriod, queryText: string,
                              today: int, longDate: int -> string)
    requires HasPeriod(Some(period))
    ensures LabelText(ResolveWindow(dateTime, Some(period), queryText, today).period, longDate) != "weekly"
  {
    var r := ResolveWindow(dateTime, Some(period), queryText, today);
    if r.period.Days? {
      var t := LabelText(r.period, longDate);
      assert t[|t| - 4] == '-';
    }
  }
}
