/** `formatForecastResponse` and `getDayName`: the reply for a forecast
    request, either about one specific day (the sample that best represents
    it) or one line per day of the grouped forecast. Numbers are kept as the
    values the reply shows, not as rendered text. */
module ForecastFormat {
  import opened Wrappers
  import opened Text
  import opened Samples
  import opened DailyAggregator
  import ForecastWindow

  /** What `getDayName` returns for a day. */
  datatype DayName =
    | Today              // 'Today'
    | Tomorrow           // 'Tomorrow'
    | OnDate(day: int)   // toLocaleDateString of the day

  /** `getDayName(index, date)` for a record of day `day`, with the clock's
      current day `today`; the index is not used. */
  function GetDayName(day: int, today: int): (n: DayName)
    ensures n == Today <==> day == today
    ensures n == Tomorrow <==> day == today + 1
    ensures n.OnDate? ==> n.day == day
  {
    if day == today then Today
    else if day == today + 1 then Tomorrow
    else OnDate(day)
  }

  /** The sample the single-day reply describes: the first midday sample of
      the day, else the day's first sample, else none. */
  function PickTarget(list: seq<Sample>, target: int): Option<Sample> {
    var m := FirstWanted(list, target, true);
    var f := FirstWanted(list, target, false);
    if m < |list| then Some(list[m])
    else if f < |list| then Some(list[f])
    else None
  }

  /** The search loop of the single-day branch: a midday sample of the day
      ends the search; otherwise the day's first sample is kept. */
  method FindTargetSample(list: seq<Sample>, target: int) returns (t: Option<Sample>)
    ensures t == PickTarget(list, target)
  {
    t := None;
    var i := 0;
    while i < |list|
      invariant 0 <= i <= |list|
      invariant forall j | 0 <= j < i :: !Wanted(list[j], target, true)
      invariant var f := FirstWanted(list, target, false);
                t == if f < i then Some(list[f]) else None
    {
      var item := list[i];
      if OnDay(item, target) {
        if Midday(item) {
          t := Some(item);
          assert FirstWanted(list, target, true) == i;
          return;
        }
        if t.None? {
          t := Some(item);
        }
      }
      i := i + 1;
    }
  }

  /** One line of the multi-day reply. */
  datatype DayLine = DayLine(name: DayName, day: DailyAggregate)

  /** The reply of `formatForecastResponse`, before numbers are rendered. */
  datatype ForecastReply =
    | NoData(text: string)
    | SingleDay(periodText: string, city: string, country: string, description: string, sample: Sample)
    | MultiDay(heading: string, lines: seq<DayLine>)

  predicate IsSingleDay(cfg: ForecastWindow.WindowConfig) {
    cfg.singleDayOnly && cfg.specificDate.Some?
  }

  function NoDataText(periodText: string, cityName: string): string {
    "Sorry, I don't have weather data for " + periodText + " in " + cityName + "."
  }

  function Heading(periodText: string, cityName: string, country: string): string {
    Capitalize(periodText) + " weather forecast for " + cityName + ", " + country + ": "
  }

  function DayLineFor(day: DailyAggregate, today: int): DayLine {
    DayLine(GetDayName(DayOf(day.dt), today), day)
  }

  /** The lines for the grouped records, one per record, in order. */
  function LinesFor(daily: seq<DailyAggregate>, today: int): seq<DayLine> {
    seq(|daily|, k requires 0 <= k < |daily| => DayLineFor(daily[k], today))
  }

  /** The `forEach` over the grouped records that appends one line each. */
  method AppendDayLines(daily: seq<DailyAggregate>, today: int) returns (lines: seq<DayLine>)
    ensures lines == LinesFor(daily, today)
  {
    lines := [];
    var index := 0;
    while index < |daily|
      invariant 0 <= index <= |daily|
      invariant |lines| == index
      invariant forall k | 0 <= k < index :: lines[k] == DayLineFor(daily[k], today)
    {
      var day := daily[index];
      lines := lines + [DayLine(GetDayName(DayOf(day.dt), today), day)];
      index := index + 1;
    }
  }

  /** The reply for the forecast samples `list` and configuration `cfg`;
      `longDate` is the locale's long date format. */
  function ForecastReplyFor(list: seq<Sample>, cityName: string, country: string,
                            cfg: ForecastWindow.WindowConfig, today: int,
                            longDate: int -> string): ForecastReply
  {
    var periodText := ForecastWindow.LabelText(cfg.period, longDate);
    if IsSingleDay(cfg) then
      match PickTarget(list, cfg.specificDate.value)
      case None => NoData(NoDataText(periodText, cityName))
      case Some(x) => SingleDay(periodText, cityName, country, Capitalize(x.desc), x)
    else
      var daily := GroupByDay(list, cfg.days, cfg.startDate, cfg.endDate);
      MultiDay(Heading(periodText, cityName, country), LinesFor(daily, today))
  }

  /** `formatForecastResponse(forecast, cityName, country, config)`. */
  method FormatForecastResponse(list: seq<Sample>, cityName: string, country: string,
                                cfg: ForecastWindow.WindowConfig, today: int,
                                longDate: int -> string)
    returns (reply: ForecastReply)
    ensures reply == ForecastReplyFor(list, cityName, country, cfg, today, longDate)
  {
    var periodText := ForecastWindow.LabelText(cfg.period, longDate);
    if cfg.singleDayOnly && cfg.specificDate.Some? {
      var t := FindTargetSample(list, cfg.specificDate.value);
      if t.None? {
        return NoData(NoDataText(periodText, cityName));
      }
      var x := t.value;
      return SingleDay(periodText, cityName, country, Capitalize(x.desc), x);
    }
    var heading := Heading(periodText, cityName, country);
    var daily := GroupForecastByDay(list, cfg.days, cfg.startDate, cfg.endDate);
    var lines := AppendDayLines(daily, today);
    reply := MultiDay(heading, lines);
  }

  // Properties of the reply.

  /** The single-day search takes the first midday sample of the day when
      there is one, and otherwise the day's first sample; it finds nothing
      exactly when no sample is on the day. */
  lemma PickTargetChoice(list: seq<Sample>, target: int)
    ensures PickTarget(list, target).None? <==> forall x | x in list :: !OnDay(x, target)
    ensures (exists i | 0 <= i < |list| :: Wanted(list[i], target, true)) ==>
              exists i | 0 <= i < |list| ::
                && PickTarget(list, target) == Some(list[i]) && OnDay(list[i], target) && Midday(list[i])
                && forall j | 0 <= j < i :: !(OnDay(list[j], target) && Midday(list[j]))
    ensures (forall i | 0 <= i < |list| :: !Wanted(list[i], target, true)) ==>
              forall i | 0 <= i < |list| && OnDay(list[i], target) ::
                exists f | 0 <= f <= i ::
                  && PickTarget(list, target) == Some(list[f]) && OnDay(list[f], target)
                  && forall j | 0 <= j < f :: !OnDay(list[j], target)
  {
    var m := FirstWanted(list, target, true);
    var f := FirstWanted(list, target, false);
    if m < |list| {
      assert Wanted(list[m], target, false);
    } else if f == |list| {
      forall x | x in list ensures !OnDay(x, target) {
        var i :| 0 <= i < |list| && list[i] == x;
        assert !Wanted(list[i], target, false);
      }
    }
  }

  /** The "no data" reply comes exactly when one day is asked for and no
      sample is on it, and it names the city. */
  lemma NoDataExactly(list: seq<Sample>, cityName: string, country: string,
                      cfg: ForecastWindow.WindowConfig, today: int, longDate: int -> string)
    ensures var reply := ForecastReplyFor(list, cityName, country, cfg, today, longDate);
            reply.NoData? <==>
              IsSingleDay(cfg) && forall x | x in list :: !OnDay(x, cfg.specificDate.value)
    ensures var reply := ForecastReplyFor(list, cityName, country, cfg, today, longDate);
            reply.NoData? ==> Contains(reply.text, cityName)
  {
    var reply := ForecastReplyFor(list, cityName, country, cfg, today, longDate);
    if IsSingleDay(cfg) {
      PickTargetChoice(list, cfg.specificDate.value);
    }
    if reply.NoData? {
      var periodText := ForecastWindow.LabelText(cfg.period, longDate);
      var before := "Sorry, I don't have weather data for " + periodText + " in ";
      assert reply.text == before + cityName + ".";
      assert OccursAt(reply.text, cityName, |before|);
      ContainsOccurs(reply.text, cityName);
    }
  }

  /** A single-day reply describes a sample of the asked day, with its
      description capitalised. */
  lemma SingleDayDescribesTheDay(list: seq<Sample>, cityName: string, country: string,
                                 cfg: ForecastWindow.WindowConfig, today: int, longDate: int -> string)
    ensures var reply := ForecastReplyFor(list, cityName, country, cfg, today, longDate);
            reply.SingleDay? ==>
              && IsSingleDay(cfg)
              && Some(reply.sample) == PickTarget(list, cfg.specificDate.value)
              && reply.periodText == ForecastWindow.LabelText(cfg.period, longDate)
              && reply.sample in list
              && OnDay(reply.sample, cfg.specificDate.value)
              && reply.description == Capitalize(reply.sample.desc)
              && reply.city == cityName && reply.country == country
  {
  }

  /** The multi-day reply is headed by the capitalised period label, city and
      country, and has one line per grouped day, in order: the line's
      name is "Today" or "Tomorrow" exactly when the record's day is today's
      or the next, and there are never more lines than `days`. */
  lemma MultiDayLines(list: seq<Sample>, cityName: string, country: string,
                      cfg: ForecastWindow.WindowConfig, today: int, longDate: int -> string)
    requires !IsSingleDay(cfg)
    ensures var reply := ForecastReplyFor(list, cityName, country, cfg, today, longDate);
            var daily := GroupByDay(list, cfg.days, cfg.startDate, cfg.endDate);
            && reply.MultiDay?
            && reply.heading == Heading(ForecastWindow.LabelText(cfg.period, longDate), cityName, country)
            && |reply.lines| == |daily|
            && (cfg.days >= 0 ==> |reply.lines| <= cfg.days)
            && (cfg.days <= 0 ==> reply.lines == [])
            && forall k | 0 <= k < |reply.lines| ::
                 && reply.lines[k].day == daily[k]
                 && (reply.lines[k].name == Today <==> DayOf(daily[k].dt) == today)
                 && (reply.lines[k].name == Tomorrow <==> DayOf(daily[k].dt) == today + 1)
  {
    GroupByDayShape(list, cfg.days, cfg.startDate, cfg.endDate);
  }

  /** With no date given, the reply is the five-day forecast of at most five
      lines. */
  lemma DefaultReply(list: seq<Sample>, cityName: string, country: string,
                     queryText: string, today: int, longDate: int -> string)
    ensures var cfg := ForecastWindow.ResolveWindow(None, None, queryText, today);
            var reply := ForecastReplyFor(list, cityName, country, cfg, today, longDate);
            && reply.MultiDay?
            && reply.heading == "5-day" + " weather forecast for " + cityName + ", " + country + ": "
            && |reply.lines| <= 5
  {
    var cfg := ForecastWindow.ResolveWindow(None, None, queryText, today);
    ForecastWindow.ResolveDefault(None, queryText, today);
    FiveDayHeading(cityName, country, longDate);
    MultiDayLines(list, cityName, country, cfg, today, longDate);
  }

  lemma FiveDayHeading(cityName: string, country: string, longDate: int -> string)
    ensures Heading(ForecastWindow.LabelText(ForecastWindow.Days(5), longDate), cityName, country) ==
            "5-day" + " weather forecast for " + cityName + ", " + country + ": "
  {
    FiveDayLabel(longDate);
  }

  lemma FiveDayLabel(longDate: int -> string)
    ensures Capitalize(ForecastWindow.LabelText(ForecastWindow.Days(5), longDate)) == "5-day"
  {
    assert ForecastWindow.LabelText(ForecastWindow.Days(5), longDate) == "5-day" by {
      assert NatToString(5) == "5";
    }
    assert UpperChar('5') == '5';
  }

  /** A date-time alone asks for one day: the reply is about that day only,
      never a multi-day forecast. */
  lemma SingleDayRequest(list: seq<Sample>, cityName: string, country: string,
                         target: int, queryText: string, today: int, longDate: int -> string)
    requires !ForecastWindow.IsRangeFromDate(ToLower(queryText))
    ensures var cfg := ForecastWindow.ResolveWindow(Some(target), None, queryText, today);
            var reply := ForecastReplyFor(list, cityName, country, cfg, today, longDate);
            && IsSingleDay(cfg) && cfg.specificDate == Some(target)
            && (reply.NoData? || reply.SingleDay?)
  {
  }

  /** The day names agree with the labels of a single-day request for today
      and tomorrow. */
  lemma DayNameMatchesOffsetLabel(day: int, today: int)
    ensures GetDayName(day, today) == Today <==> ForecastWindow.OffsetLabel(day, today) == ForecastWindow.Today
    ensures GetDayName(day, today) == Tomorrow <==> ForecastWindow.OffsetLabel(day, today) == ForecastWindow.Tomorrow
  {
  }
}
