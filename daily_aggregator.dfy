/** `groupForecastByDay`: optionally keep only the samples of a range of
    days, then fold the samples into one record per calendar day, in order of
    each day's first appearance, starting at most `maxDays` days. */
module DailyAggregator {
  import opened Wrappers
  import opened Samples

  /** The record kept per day: a copy of the day's first sample in which
      `tempMax`/`tempMin` are the running extremes and `dt`, `humidity`,
      `wind` and `desc` come from the sample nearest to noon. `temp` and
      `feelsLike` are never updated after the copy. */
  datatype DailyAggregate = DailyAggregate(
    dt: int,
    temp: real,
    feelsLike: real,
    tempMax: real,
    tempMin: real,
    humidity: int,
    wind: real,
    desc: string)

  /** `Math.abs(hour - 12)` */
  function MiddayDistance(dt: int): nat {
    var h := HourOf(dt);
    if h >= 12 then h - 12 else 12 - h
  }

  function MaxReal(a: real, b: real): real {
    if a >= b then a else b
  }

  function MinReal(a: real, b: real): real {
    if a <= b then a else b
  }

  /** The record created for the first sample of a new day. */
  function Seed(x: Sample): DailyAggregate {
    DailyAggregate(x.dt, x.temp, x.feelsLike, High(x), Low(x), x.humidity, x.wind, x.desc)
  }

  /** The update a later sample of the same day makes to the record. */
  function Absorb(a: DailyAggregate, x: Sample): DailyAggregate {
    var widened := a.(tempMax := MaxReal(a.tempMax, High(x)), tempMin := MinReal(a.tempMin, Low(x)));
    if MiddayDistance(x.dt) < MiddayDistance(a.dt) then
      widened.(dt := x.dt, humidity := x.humidity, wind := x.wind, desc := x.desc)
    else
      widened
  }

  /** The record built from a day's samples, in order. */
  function Aggregate(samples: seq<Sample>): DailyAggregate
    requires samples != []
  {
    if |samples| == 1 then Seed(samples[0])
    else Absorb(Aggregate(samples[..|samples| - 1]), samples[|samples| - 1])
  }

  /** The samples between local midnight of day `lo` and the last millisecond
      of day `hi`. */
  function Filter(list: seq<Sample>, lo: int, hi: int): (r: seq<Sample>)
    ensures forall x | x in r :: x in list && lo <= DayOf(x.dt) <= hi
  {
    if list == [] then []
    else
      var x := list[|list| - 1];
      Filter(list[..|list| - 1], lo, hi) + (if lo <= DayOf(x.dt) <= hi then [x] else [])
  }

  /** The range filter applies only when both bounds are given. */
  function FilterRange(list: seq<Sample>, startDate: Option<int>, endDate: Option<int>): seq<Sample> {
    if startDate.Some? && endDate.Some? then Filter(list, startDate.value, endDate.value) else list
  }

  /** The samples of day `d`, in order. */
  function SamplesOn(list: seq<Sample>, d: int): (r: seq<Sample>)
    ensures forall x | x in r :: DayOf(x.dt) == d
  {
    if list == [] then []
    else
      var x := list[|list| - 1];
      SamplesOn(list[..|list| - 1], d) + (if DayOf(x.dt) == d then [x] else [])
  }

  /** The distinct days of the samples, in order of first appearance. */
  function DaysInOrder(list: seq<Sample>): (r: seq<int>)
    ensures forall i | 0 <= i < |list| :: DayOf(list[i].dt) in r
    ensures forall i, j | 0 <= i < j < |r| :: r[i] != r[j]
  {
    if list == [] then []
    else
      var prefix := list[..|list| - 1];
      var days := DaysInOrder(prefix);
      var d := DayOf(list[|list| - 1].dt);
      assert forall i | 0 <= i < |prefix| :: list[i] == prefix[i];
      if d in days then days else days + [d]
  }

  /** Every listed day has samples. */
  lemma {:induction false} DaysHaveSamples(list: seq<Sample>)
    ensures forall d | d in DaysInOrder(list) :: SamplesOn(list, d) != []
  {
    if list != [] {
      var prefix, last := list[..|list| - 1], list[|list| - 1];
      DaysHaveSamples(prefix);
      forall d | d in DaysInOrder(list) ensures SamplesOn(list, d) != [] {
        if d != DayOf(last.dt) {
          assert d in DaysInOrder(prefix);
        }
      }
    }
  }

  /** How many days are started when at most `maxDays` may be. */
  function KeptCount(days: seq<int>, maxDays: int): nat {
    if maxDays <= 0 then 0 else if |days| <= maxDays then |days| else maxDays
  }

  /** The specification of `groupForecastByDay`: the first `maxDays` distinct
      days of the (filtered) list, each folded from all of its samples. */
  function GroupByDay(list: seq<Sample>, maxDays: int, startDate: Option<int>, endDate: Option<int>)
    : seq<DailyAggregate>
  {
    var filtered := FilterRange(list, startDate, endDate);
    var days := DaysInOrder(filtered);
    DaysHaveSamples(filtered);
    seq(KeptCount(days, maxDays), k requires 0 <= k < KeptCount(days, maxDays) =>
      Aggregate(SamplesOn(filtered, days[k])))
  }

  // The state of the loop of `groupForecastByDay` after the samples `seen`:
  // `data` is the `Map` and `order` its insertion order.

  /** The keys in insertion order are the first days to appear, as many as
      could be started. */
  ghost predicate OrderTracks(order: seq<int>, seen: seq<Sample>, maxDays: int) {
    var days := DaysInOrder(seen);
    order == days[..KeptCount(days, maxDays)]
  }

  /** The map's keys are the days of `order`. */
  ghost predicate KeysMatch(data: map<int, DailyAggregate>, order: seq<int>) {
    && (forall d :: d in data <==> d in order)
    && |data| == |order|
  }

  /** Each record is the fold of its day's samples so far. */
  ghost predicate RecordsTrack(data: map<int, DailyAggregate>, seen: seq<Sample>) {
    forall d | d in data :: SamplesOn(seen, d) != [] && data[d] == Aggregate(SamplesOn(seen, d))
  }

  lemma SamplesOnAppend(seen: seq<Sample>, item: Sample, d: int)
    ensures SamplesOn(seen + [item], d) ==
            SamplesOn(seen, d) + (if DayOf(item.dt) == d then [item] else [])
  {
    assert (seen + [item])[..|seen|] == seen;
  }

  lemma DaysInOrderAppend(seen: seq<Sample>, item: Sample)
    ensures DaysInOrder(seen + [item]) ==
            if DayOf(item.dt) in DaysInOrder(seen) then DaysInOrder(seen)
            else DaysInOrder(seen) + [DayOf(item.dt)]
  {
    assert (seen + [item])[..|seen|] == seen;
  }

  lemma AggregateAppend(samples: seq<Sample>, item: Sample)
    requires samples != []
    ensures Aggregate(samples + [item]) == Absorb(Aggregate(samples), item)
  {
    assert (samples + [item])[..|samples|] == samples;
  }

  lemma {:induction false} NoSamplesOnUnseenDay(seen: seq<Sample>, d: int)
    requires d !in DaysInOrder(seen)
    ensures SamplesOn(seen, d) == []
  {
    if seen != [] {
      var prefix := seen[..|seen| - 1];
      assert d !in DaysInOrder(prefix);
      NoSamplesOnUnseenDay(prefix, d);
    }
  }

  /** A sample of a started day leaves the order unchanged. */
  lemma OrderKnownDay(order: seq<int>, seen: seq<Sample>, item: Sample, maxDays: int)
    requires OrderTracks(order, seen, maxDays) && DayOf(item.dt) in order
    ensures OrderTracks(order, seen + [item], maxDays)
  {
    DaysInOrderAppend(seen, item);
    var days := DaysInOrder(seen);
    assert DayOf(item.dt) in days;
  }

  /** The first sample of a new day, while fewer than `maxDays` days are
      started, appends its day to the order. */
  lemma OrderNewDay(order: seq<int>, seen: seq<Sample>, item: Sample, maxDays: int)
    requires OrderTracks(order, seen, maxDays) && DayOf(item.dt) !in order && |order| < maxDays
    ensures DayOf(item.dt) !in DaysInOrder(seen)
    ensures OrderTracks(order + [DayOf(item.dt)], seen + [item], maxDays)
  {
    var days := DaysInOrder(seen);
    KeptAllWhenShort(order, days, maxDays);
    DaysInOrderAppend(seen, item);
    KeptAllFits(order + [DayOf(item.dt)], maxDays);
  }

  /** Fewer than `maxDays` kept days means every day is kept. */
  lemma KeptAllWhenShort(order: seq<int>, days: seq<int>, maxDays: int)
    requires order == days[..KeptCount(days, maxDays)] && |order| < maxDays
    ensures order == days
  {
  }

  lemma KeptAllFits(days: seq<int>, maxDays: int)
    requires |days| <= maxDays
    ensures days[..KeptCount(days, maxDays)] == days
  {
  }

  /** A new day seen once `maxDays` days are started is dropped. */
  lemma OrderDroppedDay(order: seq<int>, seen: seq<Sample>, item: Sample, maxDays: int)
    requires OrderTracks(order, seen, maxDays) && DayOf(item.dt) !in order && |order| >= maxDays
    ensures OrderTracks(order, seen + [item], maxDays)
  {
    var days := DaysInOrder(seen);
    var days' := DaysInOrder(seen + [item]);
    DaysInOrderAppend(seen, item);
    assert KeptCount(days', maxDays) == KeptCount(days, maxDays);
    assert days'[..KeptCount(days, maxDays)] == days[..KeptCount(days, maxDays)];
  }

  /** Updating a started day's record keeps the keys. */
  lemma KeysKnownDay(data: map<int, DailyAggregate>, order: seq<int>, key: int, v: DailyAggregate)
    requires KeysMatch(data, order) && key in data
    ensures KeysMatch(data[key := v], order)
  {
    assert data[key := v].Keys == data.Keys;
  }

  /** Starting a new day's record appends its key to the order. */
  lemma KeysNewDay(data: map<int, DailyAggregate>, order: seq<int>, key: int, v: DailyAggregate)
    requires KeysMatch(data, order) && key !in data
    ensures KeysMatch(data[key := v], order + [key])
  {
    assert data[key := v].Keys == data.Keys + {key};
  }

  /** A sample of a started day widens that day's record and no other. */
  lemma RecordsKnownDay(data: map<int, DailyAggregate>, seen: seq<Sample>, item: Sample)
    requires RecordsTrack(data, seen) && DayOf(item.dt) in data
    ensures RecordsTrack(data[DayOf(item.dt) := Absorb(data[DayOf(item.dt)], item)], seen + [item])
  {
    var key := DayOf(item.dt);
    var data' := data[key := Absorb(data[key], item)];
    SamplesOnAppend(seen, item, key);
    AggregateAppend(SamplesOn(seen, key), item);
    forall d | d in data' && d != key
      ensures SamplesOn(seen + [item], d) != [] && data'[d] == Aggregate(SamplesOn(seen + [item], d))
    {
      SamplesOnAppend(seen, item, d);
      assert SamplesOn(seen, d) + [] == SamplesOn(seen, d);
    }
  }

  /** The first sample of a new day starts its record. */
  lemma RecordsNewDay(data: map<int, DailyAggregate>, seen: seq<Sample>, item: Sample)
    requires RecordsTrack(data, seen) && DayOf(item.dt) !in DaysInOrder(seen)
    ensures RecordsTrack(data[DayOf(item.dt) := Seed(item)], seen + [item])
  {
    var key := DayOf(item.dt);
    var data' := data[key := Seed(item)];
    NoSamplesOnUnseenDay(seen, key);
    SamplesOnAppend(seen, item, key);
    assert SamplesOn(seen + [item], key) == [item];
    assert Aggregate([item]) == Seed(item);
    forall d | d in data' && d != key
      ensures SamplesOn(seen + [item], d) != [] && data'[d] == Aggregate(SamplesOn(seen + [item], d))
    {
      SamplesOnAppend(seen, item, d);
      assert SamplesOn(seen, d) + [] == SamplesOn(seen, d);
    }
  }

  /** A sample of a day without a record changes no record. */
  lemma RecordsDroppedDay(data: map<int, DailyAggregate>, seen: seq<Sample>, item: Sample)
    requires RecordsTrack(data, seen) && DayOf(item.dt) !in data
    ensures RecordsTrack(data, seen + [item])
  {
    forall d | d in data
      ensures SamplesOn(seen + [item], d) == SamplesOn(seen, d)
    {
      SamplesOnAppend(seen, item, d);
      assert SamplesOn(seen, d) + [] == SamplesOn(seen, d);
    }
  }

  /** The `forEach` callback of `groupForecastByDay`: the sample widens its
      day's record, starts a record for a new day while fewer than `maxDays`
      days are started, or is dropped. */
  method AddToDay(dailyData: map<int, DailyAggregate>, order: seq<int>, ghost seen: seq<Sample>,
                  item: Sample, maxDays: int)
    returns (dailyData': map<int, DailyAggregate>, order': seq<int>)
    requires OrderTracks(order, seen, maxDays) && KeysMatch(dailyData, order)
    requires RecordsTrack(dailyData, seen)
    ensures OrderTracks(order', seen + [item], maxDays) && KeysMatch(dailyData', order')
    ensures RecordsTrack(dailyData', seen + [item])
  {
    var dateKey := DayOf(item.dt);
    if dateKey in dailyData {
      OrderKnownDay(order, seen, item, maxDays);
      RecordsKnownDay(dailyData, seen, item);
      KeysKnownDay(dailyData, order, dateKey, Absorb(dailyData[dateKey], item));
      var existing := dailyData[dateKey];
      ghost var absorbed := Absorb(existing, item);
      existing := existing.(tempMax := MaxReal(existing.tempMax, High(item)),
                            tempMin := MinReal(existing.tempMin, Low(item)));
      if MiddayDistance(item.dt) < MiddayDistance(existing.dt) {
        existing := existing.(dt := item.dt, humidity := item.humidity,
                              wind := item.wind, desc := item.desc);
      }
      assert existing == absorbed;
      dailyData' := dailyData[dateKey := existing];
      order' := order;
    } else if |dailyData| < maxDays {
      OrderNewDay(order, seen, item, maxDays);
      RecordsNewDay(dailyData, seen, item);
      KeysNewDay(dailyData, order, dateKey, Seed(item));
      dailyData' := dailyData[dateKey := Seed(item)];
      order' := order + [dateKey];
    } else {
      OrderDroppedDay(order, seen, item, maxDays);
      RecordsDroppedDay(dailyData, seen, item);
      dailyData', order' := dailyData, order;
    }
  }

  /** `groupForecastByDay(forecastList, maxDays, startDate, endDate)`: a
      `Map` from day to record, updated in place, read back in insertion
      order. */
  method GroupForecastByDay(forecastList: seq<Sample>, maxDays: int,
                            startDate: Option<int>, endDate: Option<int>)
    returns (daily: seq<DailyAggregate>)
    ensures daily == GroupByDay(forecastList, maxDays, startDate, endDate)
  {
    var filtered := FilterRange(forecastList, startDate, endDate);
    var dailyData: map<int, DailyAggregate> := map[];
    var order: seq<int> := [];  // the insertion order of dailyData's keys
    var i := 0;
    ghost var seen: seq<Sample> := [];  // filtered[..i]
    while i < |filtered|
      invariant 0 <= i <= |filtered|
      invariant seen == filtered[..i]
      invariant OrderTracks(order, seen, maxDays) && KeysMatch(dailyData, order)
      invariant RecordsTrack(dailyData, seen)
    {
      var item := filtered[i];
      PrefixStep(filtered, i);
      dailyData, order := AddToDay(dailyData, order, seen, item, maxDays);
      seen := seen + [item];
      i := i + 1;
    }
    assert seen == filtered;
    daily := seq(|order|, k requires 0 <= k < |order| => dailyData[order[k]]);
    TracksGivesGroup(dailyData, order, forecastList, maxDays, startDate, endDate);
  }

  lemma PrefixStep(list: seq<Sample>, i: int)
    requires 0 <= i < |list|
    ensures list[..i + 1] == list[..i] + [list[i]]
  {
  }

  /** Reading the map back in insertion order gives the specified records. */
  lemma TracksGivesGroup(data: map<int, DailyAggregate>, order: seq<int>, list: seq<Sample>,
                         maxDays: int, startDate: Option<int>, endDate: Option<int>)
    requires var filtered := FilterRange(list, startDate, endDate);
             OrderTracks(order, filtered, maxDays) && KeysMatch(data, order) &&
             RecordsTrack(data, filtered)
    ensures forall k | 0 <= k < |order| :: order[k] in data
    ensures seq(|order|, k requires 0 <= k < |order| => data[order[k]]) ==
            GroupByDay(list, maxDays, startDate, endDate)
  {
    var filtered := FilterRange(list, startDate, endDate);
    var days := DaysInOrder(filtered);
    assert |order| == KeptCount(days, maxDays);
    forall k | 0 <= k < |order|
      ensures order[k] in data && data[order[k]] == Aggregate(SamplesOn(filtered, days[k]))
    {
      assert order[k] == days[k];
    }
  }

  /** The day's extremes: `tempMax` is the largest of `temp_max || temp` over
      all the day's samples and `tempMin` the smallest of `temp_min || temp`;
      replacing the representative never touches them. */
  lemma {:induction false} AggregateExtremes(samples: seq<Sample>)
    requires samples != []
    ensures forall x | x in samples :: High(x) <= Aggregate(samples).tempMax
    ensures forall x | x in samples :: Low(x) >= Aggregate(samples).tempMin
    ensures exists x | x in samples :: High(x) == Aggregate(samples).tempMax
    ensures exists x | x in samples :: Low(x) == Aggregate(samples).tempMin
  {
    if |samples| > 1 {
      var prefix, last := samples[..|samples| - 1], samples[|samples| - 1];
      AggregateExtremes(prefix);
      assert samples == prefix + [last];
      var hi :| hi in prefix && High(hi) == Aggregate(prefix).tempMax;
      var lo :| lo in prefix && Low(lo) == Aggregate(prefix).tempMin;
      assert hi in samples && lo in samples;
    } else {
      assert samples[0] in samples;
    }
  }

  /** The fields taken from the representative sample. */
  predicate RepresentedBy(a: DailyAggregate, x: Sample) {
    a.dt == x.dt && a.humidity == x.humidity && a.wind == x.wind && a.desc == x.desc
  }

  /** `samples[j]` is the first of the samples nearest to noon. */
  predicate FirstNearestNoon(samples: seq<Sample>, j: int) {
    && 0 <= j < |samples|
    && (forall k | 0 <= k < |samples| :: MiddayDistance(samples[j].dt) <= MiddayDistance(samples[k].dt))
    && (forall k | 0 <= k < j :: MiddayDistance(samples[j].dt) < MiddayDistance(samples[k].dt))
  }

  /** The representative is the first of the samples nearest to noon: a later
      sample replaces it only when strictly nearer. */
  lemma {:induction false} AggregateRepresentative(samples: seq<Sample>)
    requires samples != []
    ensures exists j :: FirstNearestNoon(samples, j) && RepresentedBy(Aggregate(samples), samples[j])
  {
    if |samples| == 1 {
      assert FirstNearestNoon(samples, 0) && RepresentedBy(Aggregate(samples), samples[0]);
    } else {
      var n := |samples| - 1;
      var prefix, last := samples[..n], samples[n];
      AggregateRepresentative(prefix);
      var j :| FirstNearestNoon(prefix, j) && RepresentedBy(Aggregate(prefix), prefix[j]);
      NearestNoonExtend(samples, j);
      if MiddayDistance(last.dt) < MiddayDistance(prefix[j].dt) {
        assert RepresentedBy(Aggregate(samples), samples[n]);
      } else {
        assert RepresentedBy(Aggregate(samples), samples[j]);
      }
    }
  }

  /** Appending a sample keeps the first nearest-to-noon one unless the new
      sample is strictly nearer. */
  lemma NearestNoonExtend(samples: seq<Sample>, j: int)
    requires |samples| > 1 && FirstNearestNoon(samples[..|samples| - 1], j)
    ensures var n := |samples| - 1;
            if MiddayDistance(samples[n].dt) < MiddayDistance(samples[j].dt)
            then FirstNearestNoon(samples, n) else FirstNearestNoon(samples, j)
  {
    var n := |samples| - 1;
    var prefix := samples[..n];
    assert forall k | 0 <= k < n :: samples[k] == prefix[k];
  }

  /** `temp` and `feelsLike` stay those of the day's first sample. */
  lemma {:induction false} AggregateKeepsFirstTemp(samples: seq<Sample>)
    requires samples != []
    ensures Aggregate(samples).temp == samples[0].temp
    ensures Aggregate(samples).feelsLike == samples[0].feelsLike
  {
    if |samples| > 1 {
      AggregateKeepsFirstTemp(samples[..|samples| - 1]);
    }
  }

  /** Every record carries the timestamp of a sample of its own day. */
  lemma AggregateDay(samples: seq<Sample>, d: int)
    requires samples != [] && forall x | x in samples :: DayOf(x.dt) == d
    ensures DayOf(Aggregate(samples).dt) == d
  {
    AggregateRepresentative(samples);
    var j :| FirstNearestNoon(samples, j) && RepresentedBy(Aggregate(samples), samples[j]);
    assert samples[j] in samples;
  }

  /** The index of the first sample of day `d`, or `|list|` if none. */
  function FirstIndex(list: seq<Sample>, d: int): (i: nat)
    ensures i <= |list|
    ensures i < |list| ==> DayOf(list[i].dt) == d
    ensures forall j | 0 <= j < i :: DayOf(list[j].dt) != d
  {
    FirstWanted(list, d, false)
  }

  lemma FirstIndexAppend(list: seq<Sample>, item: Sample, d: int)
    ensures FirstIndex(list, d) < |list| ==> FirstIndex(list + [item], d) == FirstIndex(list, d)
    ensures FirstIndex(list, d) == |list| && DayOf(item.dt) == d ==>
              FirstIndex(list + [item], d) == |list|
  {
    var i, k := FirstIndex(list + [item], d), FirstIndex(list, d);
    if k < |list| {
      assert (list + [item])[k] == list[k];
    } else if DayOf(item.dt) == d {
      assert (list + [item])[|list|] == item;
    }
  }

  /** Each day of `days` first appears in `list`, and earlier days first
      appear earlier. */
  predicate ByFirstAppearance(list: seq<Sample>, days: seq<int>) {
    && (forall k | 0 <= k < |days| :: FirstIndex(list, days[k]) < |list|)
    && (forall k1, k2 | 0 <= k1 < k2 < |days| :: FirstIndex(list, days[k1]) < FirstIndex(list, days[k2]))
  }

  /** The days come in the order in which each first appears. */
  lemma {:induction false} DaysInOrderByFirstAppearance(list: seq<Sample>)
    ensures ByFirstAppearance(list, DaysInOrder(list))
  {
    if list != [] {
      var n := |list| - 1;
      var prefix, last := list[..n], list[n];
      assert list == prefix + [last];
      DaysInOrderByFirstAppearance(prefix);
      ByFirstAppearanceAppend(prefix, last, DaysInOrder(prefix));
    }
  }

  /** One more sample keeps the known days' first indices, and a new day
      first appears at its end. */
  lemma ByFirstAppearanceAppend(prefix: seq<Sample>, last: Sample, days: seq<int>)
    requires ByFirstAppearance(prefix, days) && days == DaysInOrder(prefix)
    ensures ByFirstAppearance(prefix + [last], DaysInOrder(prefix + [last]))
  {
    var list := prefix + [last];
    var d := DayOf(last.dt);
    DaysInOrderAppend(prefix, last);
    var all := DaysInOrder(list);
    assert all == if d in days then days else days + [d];
    forall k | 0 <= k < |all|
      ensures FirstIndex(list, all[k]) < |list|
      ensures k < |days| ==> FirstIndex(list, all[k]) == FirstIndex(prefix, days[k])
      ensures k == |days| ==> FirstIndex(list, all[k]) == |prefix|
    {
      FirstIndexAppend(prefix, last, all[k]);
    }
    forall k1, k2 | 0 <= k1 < k2 < |all| ensures FirstIndex(list, all[k1]) < FirstIndex(list, all[k2]) {
    }
  }

  /** What `groupForecastByDay` returns: at most `maxDays` records, the k-th
      for the k-th day to appear in the (filtered) list, folded from all that
      day's samples; a day first seen once `maxDays` days are started is
      dropped. */
  lemma GroupByDayShape(list: seq<Sample>, maxDays: int, startDate: Option<int>, endDate: Option<int>)
    ensures var filtered := FilterRange(list, startDate, endDate);
            var days := DaysInOrder(filtered);
            var daily := GroupByDay(list, maxDays, startDate, endDate);
            && |daily| == KeptCount(days, maxDays)
            && |daily| <= |days|
            && (maxDays >= 0 ==> |daily| <= maxDays)
            && (maxDays <= 0 ==> daily == [])
            && forall k | 0 <= k < |daily| ::
                 && DayOf(daily[k].dt) == days[k]
                 && SamplesOn(filtered, days[k]) != []
                 && daily[k] == Aggregate(SamplesOn(filtered, days[k]))
  {
    var filtered := FilterRange(list, startDate, endDate);
    var days := DaysInOrder(filtered);
    var daily := GroupByDay(list, maxDays, startDate, endDate);
    DaysHaveSamples(filtered);
    forall k | 0 <= k < |daily| ensures DayOf(daily[k].dt) == days[k] {
      AggregateDay(SamplesOn(filtered, days[k]), days[k]);
    }
  }

  /** The filter keeps exactly the samples whose day lies in the range. */
  lemma {:induction false} FilterKeepsRange(list: seq<Sample>, lo: int, hi: int, x: Sample)
    requires x in list
    ensures x in Filter(list, lo, hi) <==> lo <= DayOf(x.dt) <= hi
  {
    var n := |list| - 1;
    if x != list[n] {
      assert x in list[..n] by {
        var i :| 0 <= i < |list| && list[i] == x;
        assert i < n && list[..n][i] == x;
      }
      FilterKeepsRange(list[..n], lo, hi, x);
    }
  }

  /** `filter` keeps the input order: filtering two lists one after the
      other is filtering each of them. */
  lemma {:induction false} FilterConcat(a: seq<Sample>, b: seq<Sample>, lo: int, hi: int)
    ensures Filter(a + b, lo, hi) == Filter(a, lo, hi) + Filter(b, lo, hi)
    decreases |b|
  {
    if b == [] {
      assert a + b == a;
    } else {
      var n := |b| - 1;
      assert (a + b)[..|a + b| - 1] == a + b[..n];
      assert (a + b)[|a + b| - 1] == b[n];
      FilterConcat(a, b[..n], lo, hi);
    }
  }

  /** A day inside the range keeps all of its samples, in order; a day
      outside it keeps none. */
  lemma {:induction false} FilterSamplesOn(list: seq<Sample>, lo: int, hi: int, d: int)
    ensures SamplesOn(Filter(list, lo, hi), d) == if lo <= d <= hi then SamplesOn(list, d) else []
  {
    if list != [] {
      var n := |list| - 1;
      var prefix, x := list[..n], list[n];
      FilterSamplesOn(prefix, lo, hi, d);
      if lo <= DayOf(x.dt) <= hi {
        SamplesOnAppend(Filter(prefix, lo, hi), x, d);
      } else {
        assert Filter(list, lo, hi) == Filter(prefix, lo, hi);
      }
    }
  }

  /** The days of `days` that lie in [lo, hi], in order. */
  function DaysWithin(days: seq<int>, lo: int, hi: int): (r: seq<int>)
    ensures forall d :: d in r <==> d in days && lo <= d <= hi
  {
    if days == [] then []
    else
      var last := days[|days| - 1];
      assert days == days[..|days| - 1] + [last];
      DaysWithin(days[..|days| - 1], lo, hi) + (if lo <= last <= hi then [last] else [])
  }

  /** The days of the filtered list are the input's days inside the range,
      in the same order. */
  lemma {:induction false} FilterDaysInOrder(list: seq<Sample>, lo: int, hi: int)
    ensures DaysInOrder(Filter(list, lo, hi)) == DaysWithin(DaysInOrder(list), lo, hi)
  {
    if list != [] {
      var n := |list| - 1;
      var prefix, x := list[..n], list[n];
      assert list == prefix + [x];
      FilterDaysInOrder(prefix, lo, hi);
      if lo <= DayOf(x.dt) <= hi {
        FilterDaysKept(prefix, x, lo, hi);
      } else {
        FilterDaysDropped(prefix, x, lo, hi);
      }
    }
  }

  lemma FilterDaysKept(prefix: seq<Sample>, x: Sample, lo: int, hi: int)
    requires lo <= DayOf(x.dt) <= hi
    requires DaysInOrder(Filter(prefix, lo, hi)) == DaysWithin(DaysInOrder(prefix), lo, hi)
    ensures DaysInOrder(Filter(prefix + [x], lo, hi)) == DaysWithin(DaysInOrder(prefix + [x]), lo, hi)
  {
    FilterAppend(prefix, x, lo, hi);
    DaysInOrderAppend(Filter(prefix, lo, hi), x);
    DaysInOrderAppend(prefix, x);
    DaysWithinAppend(DaysInOrder(prefix), DayOf(x.dt), lo, hi);
  }

  lemma FilterDaysDropped(prefix: seq<Sample>, x: Sample, lo: int, hi: int)
    requires !(lo <= DayOf(x.dt) <= hi)
    requires DaysInOrder(Filter(prefix, lo, hi)) == DaysWithin(DaysInOrder(prefix), lo, hi)
    ensures DaysInOrder(Filter(prefix + [x], lo, hi)) == DaysWithin(DaysInOrder(prefix + [x]), lo, hi)
  {
    var d, before := DayOf(x.dt), DaysInOrder(prefix);
    FilterAppend(prefix, x, lo, hi);
    assert Filter(prefix + [x], lo, hi) == Filter(prefix, lo, hi) + [];
    assert Filter(prefix, lo, hi) + [] == Filter(prefix, lo, hi);
    DaysInOrderAppend(prefix, x);
    if d !in before {
      DaysWithinAppend(before, d, lo, hi);
      assert DaysWithin(before, lo, hi) + [] == DaysWithin(before, lo, hi);
    }
  }

  lemma FilterAppend(prefix: seq<Sample>, x: Sample, lo: int, hi: int)
    ensures Filter(prefix + [x], lo, hi) ==
            Filter(prefix, lo, hi) + (if lo <= DayOf(x.dt) <= hi then [x] else [])
  {
    assert (prefix + [x])[..|prefix|] == prefix;
  }

  lemma DaysWithinAppend(days: seq<int>, e: int, lo: int, hi: int)
    ensures DaysWithin(days + [e], lo, hi) ==
            DaysWithin(days, lo, hi) + (if lo <= e <= hi then [e] else [])
  {
    assert (days + [e])[..|days|] == days;
  }

  /** Keeping only some days keeps them in order of first appearance. */
  lemma {:induction false} ByFirstAppearanceWithin(list: seq<Sample>, days: seq<int>, lo: int, hi: int)
    requires ByFirstAppearance(list, days)
    ensures ByFirstAppearance(list, DaysWithin(days, lo, hi))
  {
    if days != [] {
      var n := |days| - 1;
      var prefix, e := days[..n], days[n];
      ByFirstAppearanceWithin(list, prefix, lo, hi);
      var kept := DaysWithin(prefix, lo, hi);
      if lo <= e <= hi {
        var r := kept + [e];
        forall k | 0 <= k < |kept| ensures FirstIndex(list, kept[k]) < FirstIndex(list, e) {
          assert kept[k] in prefix;
          var i :| 0 <= i < n && prefix[i] == kept[k];
          assert days[i] == kept[k];
        }
        assert forall k | 0 <= k < |kept| :: r[k] == kept[k];
      }
    }
  }

  /** With both bounds, the records are those of the caller's list for its
      days inside the range, in order of first appearance: the k-th record
      is folded from all the input's samples of the k-th such day. */
  lemma BoundedGroupByDay(list: seq<Sample>, maxDays: int, lo: int, hi: int)
    ensures var days := DaysWithin(DaysInOrder(list), lo, hi);
            var daily := GroupByDay(list, maxDays, Some(lo), Some(hi));
            && ByFirstAppearance(list, days)
            && |daily| == KeptCount(days, maxDays)
            && forall k | 0 <= k < |daily| ::
                 SamplesOn(list, days[k]) != [] && daily[k] == Aggregate(SamplesOn(list, days[k]))
  {
    var days := DaysWithin(DaysInOrder(list), lo, hi);
    DaysInOrderByFirstAppearance(list);
    ByFirstAppearanceWithin(list, DaysInOrder(list), lo, hi);
    FilterDaysInOrder(list, lo, hi);
    GroupByDayShape(list, maxDays, Some(lo), Some(hi));
    var daily := GroupByDay(list, maxDays, Some(lo), Some(hi));
    forall k | 0 <= k < |daily|
      ensures SamplesOn(list, days[k]) != [] && daily[k] == Aggregate(SamplesOn(list, days[k]))
    {
      assert days[k] in days;
      FilterSamplesOn(list, lo, hi, days[k]);
    }
  }

  /** A range with only a start, as an open range from a date-time produces,
      filters nothing. */
  lemma OpenRangeNotFiltered(list: seq<Sample>, maxDays: int, startDate: int)
    ensures GroupByDay(list, maxDays, Some(startDate), None) == GroupByDay(list, maxDays, None, None)
  {
  }

  /** Three samples of one day at 00:00, 12:00 and 18:00: the noon sample
      gives the description, humidity and wind; the extremes span all three,
      a zero `temp_min` falling back to `temp`. */
  lemma NoonSampleRepresentsDay()
    ensures
      var day := 19723 * SecondsPerDay;
      var night := Sample(day, 10.0, 9.0, Some(11.0), Some(8.0), 80, 2.0, "clear sky");
      var noon := Sample(day + 12 * SecondsPerHour, 15.0, 14.0, Some(16.0), Some(14.5), 60, 3.0, "few clouds");
      var evening := Sample(day + 18 * SecondsPerHour, 12.0, 11.0, None, Some(0.0), 70, 4.0, "light rain");
      GroupByDay([night, noon, evening], 5, None, None) ==
        [DailyAggregate(day + 12 * SecondsPerHour, 10.0, 9.0, 16.0, 8.0, 60, 3.0, "few clouds")]
  {
    var day := 19723 * SecondsPerDay;
    var night := Sample(day, 10.0, 9.0, Some(11.0), Some(8.0), 80, 2.0, "clear sky");
    var noon := Sample(day + 12 * SecondsPerHour, 15.0, 14.0, Some(16.0), Some(14.5), 60, 3.0, "few clouds");
    var evening := Sample(day + 18 * SecondsPerHour, 12.0, 11.0, None, Some(0.0), 70, 4.0, "light rain");
    var list := [night, noon, evening];
    assert DayOf(night.dt) == 19723 && DayOf(noon.dt) == 19723 && DayOf(evening.dt) == 19723;
    assert HourOf(night.dt) == 0 && HourOf(noon.dt) == 12 && HourOf(evening.dt) == 18;
    assert list[..2] == [night, noon] && [night, noon][..1] == [night] && [night][..0] == [];
    assert DaysInOrder([night]) == [19723];
    assert DaysInOrder([night, noon]) == [19723];
    assert DaysInOrder(list) == [19723];
    assert SamplesOn([night], 19723) == [night];
    assert SamplesOn([night, noon], 19723) == [night, noon];
    assert SamplesOn(list, 19723) == list;
    AggregateAppend([night], noon);
    AggregateAppend([night, noon], evening);
  }
}
