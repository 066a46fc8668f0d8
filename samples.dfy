/** One entry of the provider's three-hourly forecast list, the calendar
    day and hour the webhook reads from its timestamp, and the first sample
    of a day in a list. */
module Samples {
  import opened Wrappers

  const SecondsPerDay := 86400
  const SecondsPerHour := 3600

  /** `dt` is in epoch seconds; `tempMax`/`tempMin` are `main.temp_max` and
      `main.temp_min`, which may be missing; `desc` is `weather[0].description`. */
  datatype Sample = Sample(
    dt: int,
    temp: real,
    feelsLike: real,
    tempMax: Option<real>,
    tempMin: Option<real>,
    humidity: int,
    wind: real,
    desc: string)

  /** The calendar day of a timestamp (`toDateString`), as a day number. */
  function DayOf(dt: int): int {
    dt / SecondsPerDay
  }

  /** `getHours()` of a timestamp. */
  function HourOf(dt: int): (h: int)
    ensures 0 <= h < 24
  {
    (dt % SecondsPerDay) / SecondsPerHour
  }

  /** `x || temp` for a temperature field: a missing field and a field equal
      to 0 both fall back to `temp`. */
  function OrTemp(field: Option<real>, temp: real): real {
    if field.Some? && field.value != 0.0 then field.value else temp
  }

  /** `item.main.temp_max || item.main.temp` */
  function High(x: Sample): real {
    OrTemp(x.tempMax, x.temp)
  }

  /** `item.main.temp_min || item.main.temp` */
  function Low(x: Sample): real {
    OrTemp(x.tempMin, x.temp)
  }

  /** The sample's calendar day is `target`. */
  predicate OnDay(x: Sample, target: int) {
    DayOf(x.dt) == target
  }

  /** The sample's hour lies in the midday window 12..15. */
  predicate Midday(x: Sample) {
    12 <= HourOf(x.dt) <= 15
  }

  /** A sample the single-day search may take: on the day, and at midday
      when `middayOnly`. */
  predicate Wanted(x: Sample, target: int, middayOnly: bool) {
    OnDay(x, target) && (middayOnly ==> Midday(x))
  }

  /** The index of the first wanted sample, or `|list|` if there is none. */
  function FirstWanted(list: seq<Sample>, target: int, middayOnly: bool): (i: nat)
    ensures i <= |list|
    ensures i < |list| ==> Wanted(list[i], target, middayOnly)
    ensures forall j | 0 <= j < i :: !Wanted(list[j], target, middayOnly)
  {
    if list == [] then 0
    else if Wanted(list[0], target, middayOnly) then 0
    else 1 + FirstWanted(list[1..], target, middayOnly)
  }
}
