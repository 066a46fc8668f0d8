# Weather webhook: request interpretation and forecast assembly

This project models the decision logic of `server.js`, the fulfilment
webhook of a weather chat agent. Each module covers one or more of its
functions:

- `CityValidator` (`city.dfy`) models `validateAndCleanCity`. The city
  parameter is required. It is trimmed, and it may hold only ASCII letters,
  characters in the ranges U+00C0–U+017F, U+4E00–U+9FFF and U+0400–U+04FF,
  white space and `, . - '`.
- `QueryIntent` (`query_intent.dfy`) models `analyzeQuery`, which turns the
  user's words into attribute flags. It also models the branch choice of
  `formatCurrentWeatherResponse`: a one-attribute line or the full summary.
- `ForecastWindow` (`forecast_window.dfy`) models `determineForecastConfig`.
  From the `date-time` and `date-period` parameters and the query text, it
  computes how many days to forecast, the period label, and either one
  specific day or a date range.
- `Samples` and `DailyAggregator` (`samples.dfy`, `daily_aggregator.dfy`)
  model `groupForecastByDay`. It optionally filters the three-hourly forecast
  to a range of days. It then folds the samples into one record per calendar
  day, keeping the running high and low and the sample nearest to noon. At
  most `maxDays` days are kept, in order of first appearance.
  - The method `GroupForecastByDay` keeps the source's loop over a map of
    days.
  - It is proved equal to the fold `GroupByDay`, and the properties are
    proved about that fold.
- `ForecastFormat` (`forecast_format.dfy`) models `formatForecastResponse`
  and `getDayName`.
  - For a single-day request, the reply describes the day's first midday
    sample, else the day's first sample, else says there is no data.
  - Otherwise the reply has one line per grouped day, named "Today",
    "Tomorrow" or a date.
- `Text` (`text.dfy`) holds the string primitives the code relies on:
  - `trim` and the white-space set;
  - `toLowerCase` and `toUpperCase`;
  - `includes`;
  - `\b` word boundaries;
  - integer-to-text conversion.

Some of the model's conventions:

- **Dates.** Dates are day numbers, and timestamps are epoch seconds.
  `DayOf` and `HourOf` stand for the local calendar day and hour.
- **Clock.** The current day is a parameter, `today`.
- **Absent values.** An absent string parameter is `None`, or the empty
  string where the code only tests truthiness.
- **Replies.** The replies are datatypes that carry the values they show.
  Number formatting is not modelled.

Four facts of the code a reader might not expect:

- **No lower bound on the number of days.** A range whose end is before its
  start gives a day count of zero or less, and "0 day" gives zero. In both cases
  the multi-day reply has no lines (`ResolveNonPositiveDays`,
  `MultiDayLines`).
- **"weekly" is unreachable.** The day count is clamped to 5 before it is
  compared with 7 (`PeriodTextNeverWeekly`).
- **"daily" needs no date-time.** The label appears only for a
  one-day range given without a date-time. With a date-time, the same
  range is labelled "1-day".
- **Short answers are never chosen.** `analyzeQuery` always sets `full`, so
  the one-attribute answers of the current-weather reply are unreachable
  (`CurrentWeatherIsAlwaysFull`).

## Model

| member | source | states |
|---|---|---|
| `CityValidator.ValidateAndCleanCity` | server.js:639-651 | "required" exactly when the name is missing or all white space; "invalid format" exactly when the trimmed name has a character outside the class; otherwise the trimmed, non-empty name with no space at either end and only allowed characters |
| `CityValidator.ValidateIdempotent` | server.js:644-650 | an accepted name is accepted again unchanged |
| `CityValidator.ValidateIgnoresPadding` | server.js:640-644 | white space around a name changes neither the verdict nor the cleaned name |
| `CityValidator.ValidateAcceptsAccents` | server.js:646 | "São Paulo" is accepted as is (Latin-1 letters are in the class) |
| `CityValidator.ValidateRefusesDigits` | server.js:646-648 | "InvalidCity123" is refused as an invalid format |
| `CityValidator.AcceptedUnpadded` | server.js:644-650 | a non-empty name with no white space at either end and only characters of the class is returned unchanged |
| `CityValidator.RefusedUnpadded` | server.js:644-648 | a name with no white space at either end and one character outside the class is refused as an invalid format |
| `Text.Trim` | server.js:644 | the result is empty exactly when every character is white space, and otherwise has no white space at either end |
| `Text.TrimPads` | server.js:644 | `trim` only removes white space: the input is the result with white space added at its front and back (with `Trim`'s contract, this fixes the result) |
| `Text.TrimUnpadded` | server.js:644 | a string with no white space at either end is its own trim |
| `Text.TrimIgnoresPadding` | server.js:640-644 | trimming ignores any white space added around the text |
| `QueryIntent.AnalyzeQuery` | server.js:269-281 | `full` is always set; with no query text no attribute is set; otherwise an attribute is set exactly when one of its words and one of "only", "just", "tell me" occur as whole words in the lower-cased text |
| `QueryIntent.FormatCurrentWeather` | server.js:283-302 | the place is "name, country"; each one-attribute line is chosen exactly when `full` is unset and its flag is the first set in the order temperature, humidity, wind, pressure; otherwise the full summary |
| `QueryIntent.CurrentWeatherIsAlwaysFull` | server.js:279-302 | for every query text the current-weather reply is the full summary |
| `ForecastWindow.DigitRun` | server.js:346 | `\d+` takes the longest run of digits |
| `ForecastWindow.SpaceRun` | server.js:346 | `\s*` takes the longest run of white space |
| `ForecastWindow.DayCountFrom` | server.js:346-348 | the count of the leftmost match of `(\d+)\s*day` at or after a position, and no count exactly when there is no match |
| `ForecastWindow.DayCountContainsDay` | server.js:345-347 | a text with a day count contains "day" |
| `ForecastWindow.PhraseWindowRules` | server.js:341-351 | "week" gives five days labelled "5-day weekly" before "day" is looked at; the first count gives min(count, 5) days; otherwise five days and "5-day" |
| `ForecastWindow.ResolveWindow` | server.js:305-487 | never more than 5 days and never "weekly"; a single-day request exactly when a date-time comes without a period and without a range word, with one day and that date; the specific-day flags agree; "daily" exactly for a one-day range without a date-time; an end bound only from the period; an open start only from the date-time |
| `ForecastWindow.ResolveDefault` | server.js:476-486 | without a date-time or period, five days, "5-day", no dates |
| `ForecastWindow.ResolveSingleDay` | server.js:392-424 | a date-time alone: one day, single-day flags, that date, labelled today / tomorrow / day after tomorrow / the date by its distance from today |
| `ForecastWindow.ResolveOpenRange` | server.js:374-391 | a date-time with "from", "starting", "beginning", "since" or "forecast … from": five days from that date, no end |
| `ForecastWindow.ResolveBoundedRange` | server.js:325-461 | a period with both bounds: the inclusive span clamped at 5, with both bounds kept; "daily" only without a date-time, otherwise "N-day" |
| `ForecastWindow.ResolvePhrase` | server.js:341-351 | a phrase period gives the phrase rules' window with or without a date-time, and no bounds |
| `ForecastWindow.ResolveOneBound` | server.js:353-358 | a period with one bound: "5-day weekly" when a date-time is given and the query mentions "week"; otherwise the default |
| `ForecastWindow.ResolveRangeExamples` | server.js:446-461 | 1 to 3 January 2024 gives three days; 1 to 10 January gives five days labelled "5-day"; a single day is "daily" without a date-time and "1-day" with one |
| `ForecastWindow.ResolveNonPositiveDays` | server.js:446-454 | a reversed range gives -8 days and "0 day" gives 0 days: nothing bounds the count from below |
| `ForecastWindow.PeriodTextNeverWeekly` | server.js:455-456 | no period ever produces the label "weekly" |
| `DailyAggregator.Filter` | server.js:496-509 | every kept sample comes from the list and lies in the day range |
| `DailyAggregator.FilterKeepsRange` | server.js:505-508 | a sample of the list is kept exactly when its day lies in the range |
| `DailyAggregator.FilterConcat` | server.js:505-508 | `filter` keeps the input order: filtering two lists one after the other is filtering each of them |
| `DailyAggregator.FilterSamplesOn` | server.js:496-508 | a day inside the range keeps all its samples in input order; a day outside it keeps none |
| `DailyAggregator.FilterDaysInOrder` | server.js:496-533 | the days of the filtered list are the input's days inside the range, in the same order |
| `DailyAggregator.ByFirstAppearanceWithin` | server.js:512-533 | keeping only some of the days keeps them in order of first appearance in the input |
| `DailyAggregator.BoundedGroupByDay` | server.js:489-548 | with both bounds, the k-th record is folded from all the input's samples of the k-th in-range day, the days in order of first appearance in the input, at most `maxDays` of them |
| `DailyAggregator.OpenRangeNotFiltered` | server.js:496 | a range without an end filters nothing |
| `DailyAggregator.DaysInOrder` | server.js:512-543 | the distinct days of the list, covering every sample's day |
| `DailyAggregator.DaysHaveSamples` | server.js:533-543 | every listed day has at least one sample |
| `DailyAggregator.DaysInOrderByFirstAppearance` | server.js:533-547 | the days come in the order in which each first appears in the list |
| `DailyAggregator.AddToDay` | server.js:512-544 | one step of the loop keeps the map in step with the samples seen: keys in order of first appearance, at most `maxDays` of them, each record the fold of its day's samples |
| `DailyAggregator.GroupForecastByDay` | server.js:489-548 | the map-and-loop implementation returns the fold `GroupByDay` |
| `DailyAggregator.GroupByDayShape` | server.js:533-547 | at most `maxDays` records (none when `maxDays` <= 0), the k-th for the k-th day to appear, carrying that day's timestamp and folded from all of that day's samples |
| `DailyAggregator.AggregateExtremes` | server.js:519-540 | the record's high and low bound every sample's `temp_max` and `temp_min` (each falling back to `temp` when missing or zero), and each is reached by some sample |
| `DailyAggregator.AggregateRepresentative` | server.js:522-532 | time, humidity, wind and description come from the first of the samples nearest to noon |
| `DailyAggregator.AggregateKeepsFirstTemp` | server.js:535-542 | `temp` and `feels_like` stay those of the day's first sample |
| `DailyAggregator.AggregateDay` | server.js:526-530 | the record's timestamp is on its own day |
| `DailyAggregator.NoonSampleRepresentsDay` | server.js:512-543 | samples at 00:00, 12:00 and 18:00 give one record with the noon sample's details and extremes over all three, a zero `temp_min` falling back to `temp` |
| `ForecastFormat.GetDayName` | server.js:611-637 | "Today" exactly for today's day, "Tomorrow" exactly for the next, otherwise the date of that day |
| `ForecastFormat.DayNameMatchesOffsetLabel` | server.js:404-407 | the day names agree with the single-day labels on today and tomorrow |
| `Samples.FirstWanted` | server.js:562-573 | the first index of a sample on the day (at midday when asked), or the length when there is none |
| `ForecastFormat.FindTargetSample` | server.js:562-573 | the search loop with its early exit returns `PickTarget` |
| `ForecastFormat.PickTargetChoice` | server.js:562-577 | nothing is found exactly when no sample is on the day; when a midday sample of the day exists the first one is taken; otherwise the day's first sample is taken |
| `ForecastFormat.AppendDayLines` | server.js:600-605 | one line per record, in order, named by `getDayName` |
| `ForecastFormat.FormatForecastResponse` | server.js:550-609 | the method returns `ForecastReplyFor` |
| `ForecastFormat.NoDataExactly` | server.js:553-577 | the "no data" reply comes exactly for a single-day request with no sample on that day, and it names the city |
| `ForecastFormat.SingleDayDescribesTheDay` | server.js:579-585 | a single-day reply describes the sample `PickTarget` chooses (a sample of the list on the asked day), labelled with the period's text, with its description capitalised, for the given city and country |
| `ForecastFormat.MultiDayLines` | server.js:588-605 | otherwise the heading is the capitalised period label followed by " weather forecast for city, country: ", and there is one line per grouped day, in order, never more than `days` and none when `days` <= 0, named "Today" or "Tomorrow" exactly for those days |
| `ForecastFormat.DefaultReply` | server.js:588-590 | without dates the reply is headed "5-day weather forecast for city, country: " and has at most five lines |
| `ForecastFormat.SingleDayRequest` | server.js:553 | a date-time alone always gives a reply about that single day |

## Left out

- HTTP plumbing is not modelled: the Express routes, the webhook's intent dispatch, session follow-up contexts and the random goodbye replies are outside this model.
- Weather provider calls are not modelled. The axios requests and the API key are I/O, and forecast samples are taken as a parameter.
- The clock, the time zone and `Date` parsing are not modelled. Dates are day numbers and `today` is a parameter. Daylight-saving days, where `Math.ceil` of a difference between two local midnights is not a whole number of days, are not modelled.
- The `toLocaleDateString` label of a single requested day is a parameter (`longDate`), and the date `getDayName` prints is the value `OnDate(day)`. The trailing "Forecast updated: …" and "Last updated: …" clauses and their `toLocaleTimeString` times are left out of the replies.
- Number rendering is not modelled: `Math.round`, `toFixed` and the string form of wind speed. The replies carry the values as numbers.
- Pressure, visibility and `dt_txt` are not modelled. These fields are only copied into text or into the record.
- `specificInfo` is not modelled, because it is always null.
- Logging (`console.log`) is not modelled.
- `Text.ToLower`, `Text.Capitalize`: only ASCII letters change case; JavaScript's full Unicode case mapping is not modelled.
- `ForecastWindow.ResolveWindow`: an absent query text is the empty string. In the date-time-only branch the source would throw on `toLowerCase` of an absent query, and that exception is not modelled.
- `ForecastWindow.ResolveWindow`: a phrase period and the range bounds arrive already parsed; the string form of a date is not modelled.
- `ForecastWindow.ResolveWindow`: range bounds are taken as whole days. The source does not move the bounds of a date period to midnight before `Math.ceil`, so an end bound with a later time of day than the start counts one day more (and a one-day period is then "2-day" rather than "daily"); that ceiling over times of day is not modelled.
- `QueryIntent.FormatCurrentWeather`: only the choice of sentence and the place it names are modelled, not the numbers in it.
