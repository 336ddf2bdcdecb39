/** What the statistics and the recommendation come to, read off the price records alone. */
module PriceMeaning {
  import opened Common
  import opened PriceStatistics
  import opened PriceAdvice

  /** A day and a week, in nanoseconds. */
  lemma WindowLengths()
    ensures WINDOW_24H == 86_400_000_000_000 && WINDOW_7D == 604_800_000_000_000
  {
  }

  // ---------- Which records count ----------

  /** The resources on record are enough for those asked for: each that is asked for must reach
      the whole part of four fifths of the CPUs, of half the GPUs and of half the memory. */
  predicate IsEnough(offered: ResourceSpec, asked: ResourceSpec) {
    && (asked.cpu <= 0.0 || offered.cpu >= (0.8 * asked.cpu).Floor as real)
    && (asked.gpu <= 0 || 2 * (offered.gpu + 1) > asked.gpu)
    && (asked.memory <= 0 || 2 * (offered.memory + 1) > asked.memory)
  }

  predicate Counts(r: PriceRecord, filter: Option<ResourceSpec>) {
    filter.None? || IsEnough(r.spec, filter.value)
  }

  lemma IncludedIff(r: PriceRecord, filter: Option<ResourceSpec>, after: Option<int>)
    ensures Included(r, filter, after) <==> Counts(r, filter) && (after.None? || r.timestamp > after.value)
  {
  }

  predicate IsAfter(r: PriceRecord, after: Option<int>) {
    after.None? || r.timestamp > after.value
  }

  /** One more record adds its price to the windows it is recent enough for, if its resources
      are enough, and to none otherwise. */
  lemma RecordCountsIff(records: seq<PriceRecord>, r: PriceRecord, filter: Option<ResourceSpec>, after: Option<int>)
    ensures Counts(r, filter) && IsAfter(r, after) ==>
              Prices(records + [r], filter, after) == Prices(records, filter, after) + [r.avgPrice]
    ensures !(Counts(r, filter) && IsAfter(r, after)) ==>
              Prices(records + [r], filter, after) == Prices(records, filter, after)
  {
    IncludedIff(r, filter, after);
    assert (records + [r])[..|records|] == records;
    assert Prices(records, filter, after) + [] == Prices(records, filter, after);
  }

  /** A record without the resources asked for changes no statistic, nor does one of more than
      a week ago change those of the day and the week. */
  lemma OtherRecordsChangeNothing(records: seq<PriceRecord>, r: PriceRecord, filter: Option<ResourceSpec>, now: int)
    ensures !Counts(r, filter) ==>
              InfoOf(records + [r], filter, now)
              == InfoOf(records, filter, now).(history := LastN(records + [r], 100))
    ensures now - r.timestamp >= 86_400_000_000_000 ==>
              InfoOf(records + [r], filter, now).last24Hours == InfoOf(records, filter, now).last24Hours
    ensures now - r.timestamp >= 604_800_000_000_000 ==>
              InfoOf(records + [r], filter, now).last7Days == InfoOf(records, filter, now).last7Days
  {
    RecordCountsIff(records, r, filter, None);
    RecordCountsIff(records, r, filter, Some(now - WINDOW_24H));
    RecordCountsIff(records, r, filter, Some(now - WINDOW_7D));
  }

  lemma AverageOfOne(p: real)
    ensures Average([p]) == p
  {
    Appending([], p);
    assert [] + [p] == [p];
  }

  lemma AverageTimes(ps: seq<real>)
    ensures Times(Average(ps), |ps| as real) == Sum(ps)
  {
    if ps != [] { RatioTimes(Sum(ps), |ps| as real); }
  }

  /** One more price moves an average as it should. */
  lemma AverageMoves(ps: seq<real>, p: real, more: seq<real>)
    requires more == ps + [p]
    ensures Times(Average(more), |more| as real) == Times(Average(ps), |ps| as real) + p
  {
    Appending(ps, p);
    AverageTimes(ps);
    AverageTimes(more);
  }

  lemma RatioTimes(a: real, b: real)
    requires b != 0.0
    ensures Ratio(a, b) * b == a
  {
  }

  // ---------- The trend ----------

  function LastDay(records: seq<PriceRecord>, spec: Option<ResourceSpec>, now: int): seq<real> {
    Prices(records, spec, Some(now - 86_400_000_000_000))
  }

  function LastWeek(records: seq<PriceRecord>, spec: Option<ResourceSpec>, now: int): seq<real> {
    Prices(records, spec, Some(now - 604_800_000_000_000))
  }

  lemma ChangeIff(h: real, d: real)
    requires d > 0.0
    ensures Ratio(h - d, d) > 0.1 <==> 10.0 * h > 11.0 * d
    ensures Ratio(h - d, d) < -0.1 <==> 10.0 * h < 9.0 * d
  {
    RatioAbove(h - d, d, 0.1);
    RatioAbove(d - h, d, 0.1);
    RatioOpposite(h - d, d);
  }

  lemma RatioAbove(a: real, d: real, bound: real)
    requires d > 0.0
    ensures Ratio(a, d) > bound <==> a > Times(bound, d)
  {
    var c := Ratio(a, d);
    RatioTimes(a, d);
    assert (c - bound) * d == c * d - bound * d;
    SignIff(c - bound, d);
  }

  lemma RatioOpposite(a: real, d: real)
    requires d > 0.0
    ensures Ratio(-a, d) == -Ratio(a, d)
  {
  }

  lemma SignIff(x: real, d: real)
    requires d > 0.0
    ensures x > 0.0 <==> x * d > 0.0
  {
  }

  lemma RecentAreProper(records: seq<PriceRecord>, spec: Option<ResourceSpec>, now: int)
    requires ProperPrices(records, spec)
    ensures forall p | p in LastDay(records, spec, now) :: 0.0 < p < MAX_FLOAT
    ensures forall p | p in LastWeek(records, spec, now) :: 0.0 < p < MAX_FLOAT
    ensures LastDay(records, spec, now) != [] ==> LastWeek(records, spec, now) != []
  {
    var day, week := Some(now - 86_400_000_000_000), Some(now - 604_800_000_000_000);
    WindowsNest(records, spec, day, None);
    WindowsNest(records, spec, week, None);
    WindowsNest(records, spec, day, week);
  }

  /** Prices rise if the day's average is more than a tenth above the week's, and fall if it is
      more than a tenth below; confidence grows by a thousandth with every price of the week. */
  lemma TrendIff(records: seq<PriceRecord>, spec: Option<ResourceSpec>, now: int)
    requires ProperPrices(records, spec) && LastDay(records, spec, now) != []
    ensures var a := Advise(InfoOf(records, spec, now), spec);
            var day, week := Average(LastDay(records, spec, now)), Average(LastWeek(records, spec, now));
            && (a.trend == Rising <==> 10.0 * day > 11.0 * week)
            && (a.trend == Falling <==> 10.0 * day < 9.0 * week)
    ensures var a, n := Advise(InfoOf(records, spec, now), spec), |LastWeek(records, spec, now)|;
            a.confidence == if n < 400 then 0.5 + n as real / 1000.0 else 0.9
  {
    RecentAreProper(records, spec, now);
    AverageBetween(LastWeek(records, spec, now));
    TrendOfInfo(InfoOf(records, spec, now));
  }

  lemma TrendOfInfo(info: PriceInfo)
    requires info.last24Hours.Some? && info.last7Days.Some? && info.last7Days.value.avgPrice > 0.0
    ensures var day, week := info.last24Hours.value.avgPrice, info.last7Days.value.avgPrice;
            var n := info.last7Days.value.count;
            && (TrendOf(info) == Rising <==> 10.0 * day > 11.0 * week)
            && (TrendOf(info) == Falling <==> 10.0 * day < 9.0 * week)
            && ConfidenceOf(info) == if n < 400 then 0.5 + n as real / 1000.0 else 0.9
  {
    ChangeIff(info.last24Hours.value.avgPrice, info.last7Days.value.avgPrice);
  }

  /** Without a price of the last day the trend is stable, and half certain. */
  lemma NoTrendWithoutDay(records: seq<PriceRecord>, spec: Option<ResourceSpec>, now: int)
    requires LastDay(records, spec, now) == []
    ensures var a := Advise(InfoOf(records, spec, now), spec); a.trend == Stable && a.confidence == 0.5
  {
  }

  /** The prices of records that match and fall in the week but not in its last day. */
  function Older(records: seq<PriceRecord>, spec: Option<ResourceSpec>, now: int): seq<real> {
    if records == [] then []
    else
      var last := |records| - 1;
      var r := records[last];
      Older(records[..last], spec, now)
      + if Counts(r, spec) && 86_400_000_000_000 <= now - r.timestamp < 604_800_000_000_000 then [r.avgPrice] else []
  }

  lemma {:induction false} WeekSplits(records: seq<PriceRecord>, spec: Option<ResourceSpec>, now: int)
    ensures var day, week := LastDay(records, spec, now), LastWeek(records, spec, now);
            var older := Older(records, spec, now);
            |week| == |day| + |older| && Sum(week) == Sum(day) + Sum(older)
  {
    if records != [] {
      var last := |records| - 1;
      var front, r := records[..last], records[last];
      WeekSplits(front, spec, now);
      assert records == front + [r];
      RecordCountsIff(front, r, spec, Some(now - 86_400_000_000_000));
      RecordCountsIff(front, r, spec, Some(now - 604_800_000_000_000));
      assert Older(front, spec, now) + [] == Older(front, spec, now);
      SplitGrows(LastDay(front, spec, now), Older(front, spec, now), LastWeek(front, spec, now), r.avgPrice);
    }
  }

  lemma SplitGrows(day: seq<real>, older: seq<real>, week: seq<real>, p: real)
    requires |week| == |day| + |older| && Sum(week) == Sum(day) + Sum(older)
    ensures Sum(week + [p]) == Sum(day + [p]) + Sum(older) == Sum(day) + Sum(older + [p])
  {
    Appending(day, p);
    Appending(older, p);
    Appending(week, p);
  }

  lemma MeanOfBoth(a: real, x: real, b: real, y: real, bound: real)
    requires x > 0.0 && y >= 0.0 && a >= Times(x, bound) && b <= Times(y, bound)
    ensures Ratio(a + b, x + y) <= Ratio(a, x)
  {
    var q, r := Ratio(a, x), Ratio(a + b, x + y);
    RatioTimes(a, x);
    RatioTimes(a + b, x + y);
    SignOfFactor(bound - q, x);
    assert (bound - q) * x == x * bound - a;
    ProductIsNonNegative(q - bound, y);
    assert (q - bound) * y == q * y - y * bound;
    assert (r - q) * (x + y) == r * (x + y) - q * x - q * y;
    SignOfFactor(r - q, x + y);
  }

  lemma OlderPullDown(day: seq<real>, older: seq<real>, week: seq<real>, low: real)
    requires day != [] && |week| == |day| + |older| && Sum(week) == Sum(day) + Sum(older)
    requires (forall p | p in day :: low <= p) && (forall p | p in older :: p <= low)
    ensures Average(week) <= Average(day)
  {
    SumAtLeast(day, low);
    SumAtMost(older, low);
    MeanOfBoth(Sum(day), |day| as real, Sum(older), |older| as real, low);
    assert |week| as real == |day| as real + |older| as real;
  }

  /** If no price of the last day is below an older one of the week, prices do not fall. */
  lemma NoFallFromBelow(records: seq<PriceRecord>, spec: Option<ResourceSpec>, now: int)
    requires ProperPrices(records, spec)
    requires forall p, q | p in LastDay(records, spec, now) && q in Older(records, spec, now) :: p >= q
    ensures Advise(InfoOf(records, spec, now), spec).trend != Falling
  {
    var day, older, week := LastDay(records, spec, now), Older(records, spec, now), LastWeek(records, spec, now);
    if day != [] {
      TrendIff(records, spec, now);
      WeekSplits(records, spec, now);
      RecentAreProper(records, spec, now);
      AverageBetween(week);
      OlderPullDown(day, older, week, Low(day));
    } else {
      NoTrendWithoutDay(records, spec, now);
    }
  }

  lemma {:induction false} SumAtLeast(ps: seq<real>, low: real)
    requires forall p | p in ps :: low <= p
    ensures Sum(ps) >= Times(|ps| as real, low)
  {
    if ps != [] {
      var front, n := ps[..|ps| - 1], |ps| as real;
      assert ps[|ps| - 1] in ps && forall p | p in front :: p in ps;
      SumAtLeast(front, low);
      assert n * low == (n - 1.0) * low + low;
    }
  }

  lemma {:induction false} SumAtMost(ps: seq<real>, high: real)
    requires forall p | p in ps :: p <= high
    ensures Sum(ps) <= Times(|ps| as real, high)
  {
    if ps != [] {
      var front, n := ps[..|ps| - 1], |ps| as real;
      assert ps[|ps| - 1] in ps && forall p | p in front :: p in ps;
      SumAtMost(front, high);
      assert n * high == (n - 1.0) * high + high;
    }
  }

  // ---------- The price and its reasons ----------

  /** The GPUs asked for. */
  function Gpus(spec: Option<ResourceSpec>): int {
    if spec.Some? && spec.value.gpu > 0 then spec.value.gpu else 0
  }

  predicate IsLong(spec: Option<ResourceSpec>) {
    spec.Some? && spec.value.duration >= 60
  }

  /** The multipliers of a request: half as much again for each GPU, and 15 percent off from a
      duration of 60 on. */
  lemma RequestMultiplies(price: real, spec: Option<ResourceSpec>)
    ensures ForRequest(price, spec)
            == price * (1.0 + Gpus(spec) as real / 2.0) * if IsLong(spec) then 0.85 else 1.0
  {
  }

  /** A tenth off the average if the lowest price is below seven tenths of it, else a tenth on
      if the highest is above thirteen tenths of it. */
  function SupplyPrice(low: real, avg: real, high: real): real {
    if 10.0 * low < 7.0 * avg then 0.9 * avg else if 10.0 * high > 13.0 * avg then 1.1 * avg else avg
  }

  lemma SupplyIff(info: PriceInfo)
    requires info.avgPrice > 0.0
    ensures Times(SupplyFactor(info), info.avgPrice) == SupplyPrice(info.minPrice, info.avgPrice, info.maxPrice)
  {
  }

  lemma PriceOfInfo(info: PriceInfo, spec: Option<ResourceSpec>)
    requires info.avgPrice > 0.0
    ensures Advise(info, spec).price == ForRequest(SupplyPrice(info.minPrice, info.avgPrice, info.maxPrice), spec)
  {
    SupplyIff(info);
  }

  /** The recommended price of matching positive prices: their average, moved by supply, times
      the multipliers of the request. */
  lemma PriceOfRecords(records: seq<PriceRecord>, spec: Option<ResourceSpec>, now: int)
    requires ProperPrices(records, spec) && Prices(records, spec, None) != []
    ensures var ps := Prices(records, spec, None);
            Advise(InfoOf(records, spec, now), spec).price
            == ForRequest(SupplyPrice(Low(ps), Average(ps), High(ps)), spec)
  {
    ScanIsExact(records, spec, now);
    AverageBetween(Prices(records, spec, None));
    PriceOfInfo(InfoOf(records, spec, now), spec);
  }

  /** With nothing to go by the base is 100. */
  lemma PriceOfNothing(records: seq<PriceRecord>, spec: Option<ResourceSpec>, now: int)
    requires Prices(records, spec, None) == []
    ensures Advise(InfoOf(records, spec, now), spec).price == ForRequest(100.0, spec)
  {
  }

  lemma FactorsOfInfo(info: PriceInfo, spec: Option<ResourceSpec>)
    requires info.avgPrice > 0.0
    ensures FactorsOf(info, spec)
            == TrendFactors(info)
               + (if 10.0 * info.minPrice < 7.0 * info.avgPrice then [Factor("supply_level", 0.2, Negative)]
                  else if 10.0 * info.maxPrice > 13.0 * info.avgPrice then [Factor("demand_level", 0.2, Positive)]
                  else [])
               + (if Gpus(spec) > 0 then [Factor("gpu_requirement", 0.2, Positive)] else [])
               + (if IsLong(spec) then [Factor("long_duration", 0.1, Positive)] else [])
  {
  }

  /** The factors of the advice, each in its case. */
  lemma FactorsOfRecords(records: seq<PriceRecord>, spec: Option<ResourceSpec>, now: int)
    requires ProperPrices(records, spec) && LastDay(records, spec, now) != []
    ensures var ps, a := Prices(records, spec, None), Advise(InfoOf(records, spec, now), spec);
            var avg := Average(ps);
            var day, week := Average(LastDay(records, spec, now)), Average(LastWeek(records, spec, now));
            && ps != []
            && a.factors ==
                 (if 10.0 * day > 11.0 * week then [Factor("market_trend", 0.3, Positive)]
                  else if 10.0 * day < 9.0 * week then [Factor("market_trend", 0.3, Negative)] else [])
                 + (if 10.0 * Low(ps) < 7.0 * avg then [Factor("supply_level", 0.2, Negative)]
                    else if 10.0 * High(ps) > 13.0 * avg then [Factor("demand_level", 0.2, Positive)] else [])
                 + (if Gpus(spec) > 0 then [Factor("gpu_requirement", 0.2, Positive)] else [])
                 + (if IsLong(spec) then [Factor("long_duration", 0.1, Positive)] else [])
  {
    var info := InfoOf(records, spec, now);
    WindowsNest(records, spec, Some(now - WINDOW_24H), None);
    TrendIff(records, spec, now);
    ScanIsExact(records, spec, now);
    AverageBetween(Prices(records, spec, None));
    FactorsOfInfo(info, spec);
  }
}
