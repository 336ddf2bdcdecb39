/** What the price statistics mean: filter the records to a window, then aggregate. */
module PriceStatistics {
  import opened Common

  datatype ResourceSpec = ResourceSpec(cpu: real, memory: int, gpu: int, storage: int, duration: int)

  datatype PriceRecord = PriceRecord(
    timestamp: int, spec: ResourceSpec, avgPrice: real, minPrice: real, maxPrice: real, volume: int)

  datatype Snapshot = Snapshot(avgPrice: real, minPrice: real, maxPrice: real, count: nat)

  datatype PriceInfo = PriceInfo(
    avgPrice: real, minPrice: real, maxPrice: real,
    last24Hours: Option<Snapshot>, last7Days: Option<Snapshot>,
    history: seq<PriceRecord>)

  const WINDOW_24H := DAY
  const WINDOW_7D := 7 * DAY

  /** The largest finite 64-bit float, the scan's "no minimum yet". */
  const MAX_FLOAT: real :=
    179769313486231570814527423731704356798070567525844996598917476803157260780028538760589558632766878171540458953514382464234321326889464182768467546703537516986049910576551282076245490090389328944075868508455133942304583236903222948165808559332123348274797826204144723168738177180919299881250404026184124858368.0

  predicate MatchSpec(record: ResourceSpec, filter: ResourceSpec) {
    && !(filter.cpu > 0.0 && record.cpu < (filter.cpu * 0.8).Floor as real)
    && !(filter.gpu > 0 && record.gpu < filter.gpu / 2)
    && !(filter.memory > 0 && record.memory < filter.memory / 2)
  }

  /** The record passes the filter and is later than `after`, where those are given. */
  predicate Included(r: PriceRecord, filter: Option<ResourceSpec>, after: Option<int>) {
    && (filter.Some? ==> MatchSpec(r.spec, filter.value))
    && (after.Some? ==> r.timestamp > after.value)
  }

  /** The prices of the records in a window. */
  function Prices(records: seq<PriceRecord>, filter: Option<ResourceSpec>, after: Option<int>): seq<real> {
    if records == [] then []
    else
      var last := |records| - 1;
      Prices(records[..last], filter, after)
      + if Included(records[last], filter, after) then [records[last].avgPrice] else []
  }

  function Sum(ps: seq<real>): real {
    if ps == [] then 0.0 else Sum(ps[..|ps| - 1]) + ps[|ps| - 1]
  }

  /** The least price. */
  function Low(ps: seq<real>): (m: real)
    requires ps != []
    ensures m in ps && forall p | p in ps :: m <= p
  {
    var last := |ps| - 1;
    if last == 0 then ps[0]
    else
      assert ps == ps[..last] + [ps[last]];
      var m := Low(ps[..last]);
      if ps[last] < m then ps[last] else m
  }

  /** The greatest price. */
  function High(ps: seq<real>): (m: real)
    requires ps != []
    ensures m in ps && forall p | p in ps :: p <= m
  {
    var last := |ps| - 1;
    if last == 0 then ps[0]
    else
      assert ps == ps[..last] + [ps[last]];
      var m := High(ps[..last]);
      if ps[last] > m then ps[last] else m
  }

  /** The snapshot is the true average, minimum, maximum and count of the prices. */
  ghost predicate Describes(s: Snapshot, ps: seq<real>) {
    && ps != [] && s.count == |ps|
    && s.avgPrice == Average(ps)
    && s.minPrice == Low(ps) && s.maxPrice == High(ps)
  }

  // ---------- The running extremes of the scan ----------

  /** A running minimum in which 0 stands for "none yet". */
  function ZeroMin(ps: seq<real>): real {
    if ps == [] then 0.0
    else
      var m, p := ZeroMin(ps[..|ps| - 1]), ps[|ps| - 1];
      if m == 0.0 || p < m then p else m
  }

  function ZeroMax(ps: seq<real>): real {
    if ps == [] then 0.0
    else
      var m, p := ZeroMax(ps[..|ps| - 1]), ps[|ps| - 1];
      if p > m then p else m
  }

  function MaxFloatMin(ps: seq<real>): real {
    if ps == [] then MAX_FLOAT
    else
      var m, p := MaxFloatMin(ps[..|ps| - 1]), ps[|ps| - 1];
      if p < m then p else m
  }

  lemma PricesSnoc(rs: seq<PriceRecord>, i: nat, filter: Option<ResourceSpec>, after: Option<int>)
    requires i < |rs|
    ensures Prices(rs[..i + 1], filter, after)
            == Prices(rs[..i], filter, after) + if Included(rs[i], filter, after) then [rs[i].avgPrice] else []
  {
    assert rs[..i + 1][..i] == rs[..i];
  }

  /** How one more price moves the sum and the running extremes. */
  lemma Appending(ps: seq<real>, p: real)
    ensures Sum(ps + [p]) == Sum(ps) + p
    ensures ZeroMin(ps + [p]) == if ZeroMin(ps) == 0.0 || p < ZeroMin(ps) then p else ZeroMin(ps)
    ensures ZeroMax(ps + [p]) == if p > ZeroMax(ps) then p else ZeroMax(ps)
    ensures MaxFloatMin(ps + [p]) == if p < MaxFloatMin(ps) then p else MaxFloatMin(ps)
  {
    assert (ps + [p])[..|ps|] == ps;
  }

  lemma {:induction false} ZeroMinCases(ps: seq<real>)
    requires ps != []
    ensures Low(ps) != 0.0 ==> ZeroMin(ps) == Low(ps)
    ensures Low(ps) == 0.0 && ps[|ps| - 1] == 0.0 ==> ZeroMin(ps) == 0.0
    ensures Low(ps) == 0.0 && ps[|ps| - 1] != 0.0 ==> ZeroMin(ps) > 0.0
  {
    var last := |ps| - 1;
    if last == 0 {
      assert ZeroMin(ps[..0]) == 0.0;
    } else {
      ZeroMinCases(ps[..last]);
      assert ps[last] in ps;
    }
  }

  /** The window minimum is the true one unless a zero price was followed by others: once a
      zero is the minimum so far, the scan takes it for "none yet". */
  lemma ZeroMinIsLowIff(ps: seq<real>)
    requires ps != []
    ensures ZeroMin(ps) == Low(ps) <==> Low(ps) != 0.0 || ps[|ps| - 1] == 0.0
  {
    ZeroMinCases(ps);
  }

  /** The running maxima start at 0, so they are true exactly when some price reaches 0. */
  lemma {:induction false} ZeroMaxIsHighIff(ps: seq<real>)
    requires ps != []
    ensures ZeroMax(ps) == Max0(High(ps))
    ensures ZeroMax(ps) == High(ps) <==> High(ps) >= 0.0
  {
    var last := |ps| - 1;
    if last == 0 {
      assert ZeroMax(ps[..0]) == 0.0;
    } else {
      ZeroMaxIsHighIff(ps[..last]);
    }
  }

  function Max0(x: real): real {
    if x < 0.0 then 0.0 else x
  }

  lemma {:induction false} MaxFloatMinIsLow(ps: seq<real>)
    requires ps != []
    ensures MaxFloatMin(ps) == if Low(ps) < MAX_FLOAT then Low(ps) else MAX_FLOAT
  {
    var last := |ps| - 1;
    if last == 0 {
      assert MaxFloatMin(ps[..0]) == MAX_FLOAT;
    } else {
      MaxFloatMinIsLow(ps[..last]);
    }
  }

  // ---------- The outcome of the scan ----------

  function Average(ps: seq<real>): real {
    if ps == [] then 0.0 else Ratio(Sum(ps), |ps| as real)
  }

  function WindowSnapshot(ps: seq<real>): Option<Snapshot> {
    if ps == [] then None else Some(Snapshot(Average(ps), ZeroMin(ps), ZeroMax(ps), |ps|))
  }

  function FinalMin(ps: seq<real>): real {
    if MaxFloatMin(ps) == MAX_FLOAT then 0.0 else MaxFloatMin(ps)
  }

  function LastN<T>(s: seq<T>, n: nat): (r: seq<T>)
    ensures |s| <= n ==> r == s
    ensures |s| > n ==> |r| == n && r == s[|s| - n..]
  {
    if |s| > n then s[|s| - n..] else s
  }

  /** Keeping the last n after each append is keeping the last n of everything appended. */
  lemma LastNAppend<T>(s: seq<T>, x: T, n: nat)
    ensures LastN(LastN(s, n) + [x], n) == LastN(s + [x], n)
  {
  }

  function InfoOf(records: seq<PriceRecord>, filter: Option<ResourceSpec>, now: int): PriceInfo {
    var all := Prices(records, filter, None);
    PriceInfo(
      Average(all),
      FinalMin(all),
      ZeroMax(all),
      WindowSnapshot(Prices(records, filter, Some(now - WINDOW_24H))),
      WindowSnapshot(Prices(records, filter, Some(now - WINDOW_7D))),
      LastN(records, 100))
  }

  ghost predicate ProperPrices(records: seq<PriceRecord>, filter: Option<ResourceSpec>) {
    forall p | p in Prices(records, filter, None) :: 0.0 < p < MAX_FLOAT
  }

  /** A later cut-off takes away prices and adds none. */
  lemma {:induction false} WindowsNest(records: seq<PriceRecord>, filter: Option<ResourceSpec>,
                                       inner: Option<int>, outer: Option<int>)
    requires outer.Some? ==> inner.Some? && outer.value <= inner.value
    ensures var a, b := Prices(records, filter, inner), Prices(records, filter, outer);
            |a| <= |b| && forall p | p in a :: p in b
  {
    if records != [] { WindowsNest(records[..|records| - 1], filter, inner, outer); }
  }

  ghost predicate DescribesWindow(s: Option<Snapshot>, ps: seq<real>) {
    if ps == [] then s == None else s.Some? && Describes(s.value, ps)
  }

  /** A window's snapshot is the true one exactly when its least price is not zero, or the last
      one is, and some price is not negative. */
  lemma WindowIsExactIff(ps: seq<real>)
    ensures DescribesWindow(WindowSnapshot(ps), ps)
            <==> ps == [] || ((Low(ps) != 0.0 || ps[|ps| - 1] == 0.0) && High(ps) >= 0.0)
  {
    if ps != [] {
      ZeroMinIsLowIff(ps);
      ZeroMaxIsHighIff(ps);
    }
  }

  /** Of prices below zero the window reports a maximum of 0. */
  lemma NegativePricesPeakAtZero()
    ensures WindowSnapshot([-2.0]) == Some(Snapshot(-2.0, -2.0, 0.0, 1))
    ensures !DescribesWindow(WindowSnapshot([-2.0]), [-2.0])
  {
    Appending([], -2.0);
    assert [] + [-2.0] == [-2.0];
    WindowIsExactIff([-2.0]);
  }

  /** After a free offer and one at 5 the window reports a minimum of 5. */
  lemma FreeOfferIsForgotten()
    ensures WindowSnapshot([0.0, 5.0]) == Some(Snapshot(2.5, 5.0, 5.0, 2))
    ensures !DescribesWindow(WindowSnapshot([0.0, 5.0]), [0.0, 5.0])
  {
    var ps := [0.0, 5.0];
    Appending([], 0.0);
    Appending([0.0], 5.0);
    assert [] + [0.0] == [0.0] && [0.0] + [5.0] == ps;
    assert ps[0] in ps;
    WindowIsExactIff(ps);
    assert Low(ps) == 0.0;
  }

  /** The statistics are the true ones of the prices in each of the three windows. */
  ghost predicate IsExact(info: PriceInfo, records: seq<PriceRecord>, filter: Option<ResourceSpec>, now: int) {
    var all := Prices(records, filter, None);
    && (all != [] ==> Describes(Snapshot(info.avgPrice, info.minPrice, info.maxPrice, |all|), all))
    && (all == [] ==> info.avgPrice == info.minPrice == info.maxPrice == 0.0)
    && DescribesWindow(info.last24Hours, Prices(records, filter, Some(now - WINDOW_24H)))
    && DescribesWindow(info.last7Days, Prices(records, filter, Some(now - WINDOW_7D)))
  }

  /** For positive prices, the single scan finds the true statistics of all three windows. */
  lemma ScanIsExact(records: seq<PriceRecord>, filter: Option<ResourceSpec>, now: int)
    requires ProperPrices(records, filter)
    ensures IsExact(InfoOf(records, filter, now), records, filter, now)
  {
    WindowsNest(records, filter, Some(now - WINDOW_24H), None);
    WindowsNest(records, filter, Some(now - WINDOW_7D), None);
    WindowIsExactIff(Prices(records, filter, Some(now - WINDOW_24H)));
    WindowIsExactIff(Prices(records, filter, Some(now - WINDOW_7D)));
    var all := Prices(records, filter, None);
    if all != [] {
      MaxFloatMinIsLow(all);
      ZeroMaxIsHighIff(all);
    }
  }

  /** The prices in a window are those of its records. */
  lemma {:induction false} PricesAreWithin(records: seq<PriceRecord>, filter: Option<ResourceSpec>, after: Option<int>,
                                           low: real, high: real)
    requires forall r | r in records :: low <= r.avgPrice <= high
    ensures forall p | p in Prices(records, filter, after) :: low <= p <= high
  {
    if records != [] {
      var last := |records| - 1;
      forall r | r in records[..last] ensures low <= r.avgPrice <= high { assert r in records; }
      PricesAreWithin(records[..last], filter, after, low, high);
      assert records[last] in records;
    }
  }

  lemma {:induction false} SumBetween(ps: seq<real>, low: real, high: real)
    requires forall p | p in ps :: low <= p <= high
    ensures |ps| as real * low <= Sum(ps) <= |ps| as real * high
  {
    if ps != [] {
      var front, n := ps[..|ps| - 1], |ps| as real;
      var p := ps[|ps| - 1];
      assert p in ps;
      forall q | q in front ensures low <= q <= high { assert q in ps; }
      SumBetween(front, low, high);
      assert n * low == (n - 1.0) * low + low && n * high == (n - 1.0) * high + high;
    }
  }

  lemma AverageBetween(ps: seq<real>)
    requires ps != []
    ensures Low(ps) <= Average(ps) <= High(ps)
  {
    SumBetween(ps, Low(ps), High(ps));
    MeanIsBetween(Sum(ps), |ps| as real, Low(ps), High(ps));
  }

  ghost predicate Ordered(s: Snapshot) {
    s.minPrice <= s.avgPrice <= s.maxPrice
  }

  ghost predicate Within(inner: Snapshot, outer: Snapshot) {
    inner.count <= outer.count && outer.minPrice <= inner.minPrice && inner.maxPrice <= outer.maxPrice
  }

  lemma DescribedIsOrdered(s: Snapshot, ps: seq<real>)
    requires Describes(s, ps)
    ensures Ordered(s)
  {
    AverageBetween(ps);
  }

  lemma DescribedNest(a: Snapshot, pa: seq<real>, b: Snapshot, pb: seq<real>)
    requires Describes(a, pa) && Describes(b, pb)
    requires |pa| <= |pb| && forall p | p in pa :: p in pb
    ensures Within(a, b)
  {
  }

  /** For positive prices every average lies between its extremes, and the narrower the
      window the fewer the records, the higher the minimum and the lower the maximum. */
  lemma WindowsAreConsistent(records: seq<PriceRecord>, filter: Option<ResourceSpec>, now: int)
    requires ProperPrices(records, filter)
    ensures var info := InfoOf(records, filter, now);
            var all := Snapshot(info.avgPrice, info.minPrice, info.maxPrice, |Prices(records, filter, None)|);
            && Ordered(all)
            && (info.last7Days.Some? ==> Ordered(info.last7Days.value) && Within(info.last7Days.value, all))
            && (info.last24Hours.Some? ==>
                  && Ordered(info.last24Hours.value)
                  && info.last7Days.Some? && Within(info.last24Hours.value, info.last7Days.value))
  {
    var info := InfoOf(records, filter, now);
    var ps := Prices(records, filter, None);
    var p7, p24 := Prices(records, filter, Some(now - WINDOW_7D)), Prices(records, filter, Some(now - WINDOW_24H));
    var all := Snapshot(info.avgPrice, info.minPrice, info.maxPrice, |ps|);
    ScanIsExact(records, filter, now);
    WindowsNest(records, filter, Some(now - WINDOW_7D), None);
    WindowsNest(records, filter, Some(now - WINDOW_24H), Some(now - WINDOW_7D));
    if ps != [] { DescribedIsOrdered(all, ps); }
    if p7 != [] {
      DescribedIsOrdered(info.last7Days.value, p7);
      DescribedNest(info.last7Days.value, p7, all, ps);
    }
    if p24 != [] {
      DescribedIsOrdered(info.last24Hours.value, p24);
      DescribedNest(info.last24Hours.value, p24, info.last7Days.value, p7);
    }
  }
}

/** What a recommendation is made of, and how it moves when all prices are scaled. */
module PriceAdvice {
  import opened Common
  import opened PriceStatistics

  datatype Trend = Stable | Rising | Falling
  datatype Impact = Positive | Negative
  datatype Factor = Factor(name: string, weight: real, impact: Impact)
  datatype Advice = Advice(price: real, confidence: real, trend: Trend, factors: seq<Factor>)

  function TrendOf(info: PriceInfo): Trend {
    if info.last24Hours.None? || info.last7Days.None? || info.last7Days.value.avgPrice <= 0.0 then Stable
    else
      var h, d := info.last24Hours.value.avgPrice, info.last7Days.value.avgPrice;
      var change := Ratio(h - d, d);
      if change > 0.1 then Rising else if change < -0.1 then Falling else Stable
  }

  function ConfidenceOf(info: PriceInfo): real {
    if info.last24Hours.None? || info.last7Days.None? || info.last7Days.value.avgPrice <= 0.0 then 0.5
    else
      var c := 0.5 + info.last7Days.value.count as real / 1000.0;
      if c < 0.9 then c else 0.9
  }

  function SupplyFactor(info: PriceInfo): real {
    if info.avgPrice <= 0.0 then 1.0
    else if info.minPrice < info.avgPrice * 0.7 then 0.9
    else if info.maxPrice > info.avgPrice * 1.3 then 1.1
    else 1.0
  }

  function GpuMultiplier(spec: Option<ResourceSpec>): real {
    if spec.Some? && spec.value.gpu > 0 then 1.0 + spec.value.gpu as real * 0.5 else 1.0
  }

  function DurationMultiplier(spec: Option<ResourceSpec>): real {
    if spec.Some? && spec.value.duration >= 60 then 0.85 else 1.0
  }

  function TrendFactors(info: PriceInfo): seq<Factor> {
    match TrendOf(info)
    case Stable => []
    case Rising => [Factor("market_trend", 0.3, Positive)]
    case Falling => [Factor("market_trend", 0.3, Negative)]
  }

  function SupplyFactors(info: PriceInfo): seq<Factor> {
    if SupplyFactor(info) < 1.0 then [Factor("supply_level", 0.2, Negative)]
    else if SupplyFactor(info) > 1.0 then [Factor("demand_level", 0.2, Positive)]
    else []
  }

  function GpuFactors(spec: Option<ResourceSpec>): seq<Factor> {
    if spec.Some? && spec.value.gpu > 0 then [Factor("gpu_requirement", 0.2, Positive)] else []
  }

  function DurationFactors(spec: Option<ResourceSpec>): seq<Factor> {
    if spec.Some? && spec.value.duration >= 60 then [Factor("long_duration", 0.1, Positive)] else []
  }

  function FactorsOf(info: PriceInfo, spec: Option<ResourceSpec>): seq<Factor> {
    TrendFactors(info) + SupplyFactors(info) + GpuFactors(spec) + DurationFactors(spec)
  }

  function BasePrice(info: PriceInfo): real {
    if info.avgPrice == 0.0 then 100.0 else info.avgPrice
  }

  function ForRequest(price: real, spec: Option<ResourceSpec>): real {
    price * GpuMultiplier(spec) * DurationMultiplier(spec)
  }

  /** The advice before its price is rounded. */
  function Advise(info: PriceInfo, spec: Option<ResourceSpec>): Advice {
    Advice(ForRequest(Times(SupplyFactor(info), BasePrice(info)), spec),
           ConfidenceOf(info), TrendOf(info), FactorsOf(info, spec))
  }

  lemma ProductBounds(price: real, a: real, low: real, high: real, s: real, spec: Option<ResourceSpec>)
    requires 0.0 < low <= a <= high && 0.9 <= s <= 1.1 && price == ForRequest(Times(s, a), spec)
    ensures ForRequest(0.9 * low, spec) <= price <= ForRequest(1.1 * high, spec)
  {
    var m := ForRequest(1.0, spec);
    ProductIsNonNegative(s - 0.9, a);
    ProductIsNonNegative(1.1 - s, a);
    ForRequestIsLinear(Times(s, a), spec);
    ForRequestIsLinear(0.9 * low, spec);
    ForRequestIsLinear(1.1 * high, spec);
    ProductIsNonNegative(Times(s, a) - 0.9 * low, m);
    ProductIsNonNegative(1.1 * high - Times(s, a), m);
  }

  /** The unrounded price is the average of the prices matched times a supply factor, with
      the multipliers of the request applied. */
  lemma AdviceOfPrices(records: seq<PriceRecord>, spec: Option<ResourceSpec>, now: int)
    requires ProperPrices(records, spec) && Prices(records, spec, None) != []
    ensures var info, avg := InfoOf(records, spec, now), Average(Prices(records, spec, None));
            Advise(info, spec).price == ForRequest(Times(SupplyFactor(info), avg), spec)
  {
    AverageBetween(Prices(records, spec, None));
  }

  lemma AverageWithin(ps: seq<real>, low: real, high: real)
    requires ps != [] && forall p | p in ps :: low <= p <= high
    ensures low <= Average(ps) <= high
  {
    SumBetween(ps, low, high);
    MeanIsBetween(Sum(ps), |ps| as real, low, high);
  }

  /** For positive prices with a match, the unrounded price stays within a tenth of any range
      that holds the prices matched, under the multipliers of the request; confidence lies
      between 0.5 and 0.9. */
  lemma AdviceIsBounded(records: seq<PriceRecord>, spec: Option<ResourceSpec>, now: int, low: real, high: real)
    requires Prices(records, spec, None) != []
    requires 0.0 < low && high < MAX_FLOAT && forall p | p in Prices(records, spec, None) :: low <= p <= high
    ensures var info := InfoOf(records, spec, now);
            var a := Advise(info, spec);
            && SupplyFactor(info) in {0.9, 1.0, 1.1}
            && ForRequest(0.9 * low, spec) <= a.price <= ForRequest(1.1 * high, spec)
            && 0.5 <= a.confidence <= 0.9
  {
    var ps, info := Prices(records, spec, None), InfoOf(records, spec, now);
    AdviceOfPrices(records, spec, now);
    AverageWithin(ps, low, high);
    ProductBounds(Advise(info, spec).price, Average(ps), low, high, SupplyFactor(info), spec);
  }

  lemma ForRequestIsLinear(x: real, spec: Option<ResourceSpec>)
    ensures ForRequest(x, spec) == x * ForRequest(1.0, spec) && ForRequest(1.0, spec) > 0.0
  {
    var g, d := GpuMultiplier(spec), DurationMultiplier(spec);
    assert x * g * d == x * (g * d);
  }

  // ---------- Scaling every price ----------

  function ScaleRecord(r: PriceRecord, k: real): PriceRecord {
    r.(avgPrice := Times(k, r.avgPrice), minPrice := Times(k, r.minPrice), maxPrice := Times(k, r.maxPrice))
  }

  function ScaleRecords(records: seq<PriceRecord>, k: real): seq<PriceRecord> {
    seq(|records|, i requires 0 <= i < |records| => ScaleRecord(records[i], k))
  }

  function ScalePrices(ps: seq<real>, k: real): seq<real> {
    seq(|ps|, i requires 0 <= i < |ps| => Times(k, ps[i]))
  }

  function ScaleSnapshot(s: Option<Snapshot>, k: real): Option<Snapshot> {
    if s.None? then None
    else
      Some(Snapshot(Times(k, s.value.avgPrice), Times(k, s.value.minPrice), Times(k, s.value.maxPrice),
                    s.value.count))
  }

  function ScaleInfo(info: PriceInfo, k: real): PriceInfo {
    PriceInfo(Times(k, info.avgPrice), Times(k, info.minPrice), Times(k, info.maxPrice),
              ScaleSnapshot(info.last24Hours, k), ScaleSnapshot(info.last7Days, k), ScaleRecords(info.history, k))
  }

  lemma {:induction false} PricesScale(records: seq<PriceRecord>, filter: Option<ResourceSpec>,
                                       after: Option<int>, k: real)
    ensures Prices(ScaleRecords(records, k), filter, after) == ScalePrices(Prices(records, filter, after), k)
  {
    if records != [] {
      var last := |records| - 1;
      var scaled, front := ScaleRecords(records, k), Prices(records[..last], filter, after);
      assert scaled[..last] == ScaleRecords(records[..last], k);
      PricesScale(records[..last], filter, after, k);
      ScaleSnoc(front, records[last].avgPrice, k);
    }
  }

  lemma ScaleSnoc(ps: seq<real>, p: real, k: real)
    ensures ScalePrices(ps + [p], k) == ScalePrices(ps, k) + [Times(k, p)]
  {
  }

  lemma MultiplyKeepsOrder(k: real, a: real, b: real)
    requires k > 0.0
    ensures a < b <==> Times(k, a) < Times(k, b)
    ensures a == 0.0 <==> Times(k, a) == 0.0
  {
    if a < b { assert k * (b - a) > 0.0; } else { assert k * (a - b) >= 0.0; }
    if a != 0.0 { assert k * a != 0.0; }
  }

  lemma {:induction false} SumScales(ps: seq<real>, k: real)
    ensures Sum(ScalePrices(ps, k)) == Times(k, Sum(ps))
  {
    if ps != [] {
      var front, p := ps[..|ps| - 1], ps[|ps| - 1];
      SumScales(front, k);
      ScaleSnoc(front, p, k);
      assert ps == front + [p];
      Appending(ScalePrices(front, k), Times(k, p));
      assert Times(k, Sum(front) + p) == Times(k, Sum(front)) + Times(k, p);
    }
  }

  lemma {:induction false} ZeroMinScales(ps: seq<real>, k: real)
    requires k > 0.0
    ensures ZeroMin(ScalePrices(ps, k)) == Times(k, ZeroMin(ps))
  {
    if ps != [] {
      var front, p := ps[..|ps| - 1], ps[|ps| - 1];
      ZeroMinScales(front, k);
      ScaleSnoc(front, p, k);
      assert ps == front + [p];
      Appending(ScalePrices(front, k), Times(k, p));
      MultiplyKeepsOrder(k, p, ZeroMin(front));
      MultiplyKeepsOrder(k, ZeroMin(front), 0.0);
    }
  }

  lemma {:induction false} ZeroMaxScales(ps: seq<real>, k: real)
    requires k > 0.0
    ensures ZeroMax(ScalePrices(ps, k)) == Times(k, ZeroMax(ps))
  {
    if ps != [] {
      var front, p := ps[..|ps| - 1], ps[|ps| - 1];
      ZeroMaxScales(front, k);
      ScaleSnoc(front, p, k);
      assert ps == front + [p];
      Appending(ScalePrices(front, k), Times(k, p));
      MultiplyKeepsOrder(k, ZeroMax(front), p);
    }
  }

  lemma RatioScales(k: real, a: real, b: real)
    requires b != 0.0 && k > 0.0
    ensures Ratio(Times(k, a), b) == Times(k, Ratio(a, b))
    ensures Times(k, b) != 0.0 && Ratio(Times(k, a), Times(k, b)) == Ratio(a, b)
  {
    var q := a / b;
    assert q * b == a;
    assert (k * q) * b == k * a;
    assert k * b != 0.0;
    assert q * (k * b) == k * a;
  }

  lemma AverageScales(ps: seq<real>, k: real)
    requires k > 0.0
    ensures Average(ScalePrices(ps, k)) == Times(k, Average(ps))
  {
    SumScales(ps, k);
    if ps != [] { RatioScales(k, Sum(ps), |ps| as real); }
  }

  lemma SnapshotScales(ps: seq<real>, k: real)
    requires k > 0.0
    ensures WindowSnapshot(ScalePrices(ps, k)) == ScaleSnapshot(WindowSnapshot(ps), k)
  {
    ZeroMinScales(ps, k);
    ZeroMaxScales(ps, k);
    AverageScales(ps, k);
  }

  lemma LowScales(ps: seq<real>, k: real)
    requires k > 0.0 && ps != []
    ensures Low(ScalePrices(ps, k)) == Times(k, Low(ps))
  {
    var scaled := ScalePrices(ps, k);
    var i :| 0 <= i < |ps| && ps[i] == Low(ps);
    var j :| 0 <= j < |ps| && scaled[j] == Low(scaled);
    assert scaled[i] in scaled && ps[j] in ps;
    MultiplyKeepsOrder(k, ps[j], Low(ps));
  }

  /** The prices and their multiples are below the largest float. */
  ghost predicate FitFloats(ps: seq<real>, k: real) {
    forall p | p in ps :: p < MAX_FLOAT && Times(k, p) < MAX_FLOAT
  }

  lemma MinimumScales(ps: seq<real>, k: real)
    requires k > 0.0
    requires FitFloats(ps, k)
    ensures FinalMin(ScalePrices(ps, k)) == Times(k, FinalMin(ps))
  {
    if ps != [] {
      LowScales(ps, k);
      MaxFloatMinIsLow(ps);
      MaxFloatMinIsLow(ScalePrices(ps, k));
    }
  }

  /** Scaling the records scales the statistics, as long as the prices are still floats. */
  lemma ScanScales(records: seq<PriceRecord>, filter: Option<ResourceSpec>, now: int, k: real)
    requires k > 0.0
    requires FitFloats(Prices(records, filter, None), k)
    ensures InfoOf(ScaleRecords(records, k), filter, now) == ScaleInfo(InfoOf(records, filter, now), k)
  {
    var all := Prices(records, filter, None);
    var h24, d7 := Some(now - WINDOW_24H), Some(now - WINDOW_7D);
    PricesScale(records, filter, None, k);
    PricesScale(records, filter, h24, k);
    PricesScale(records, filter, d7, k);
    SnapshotScales(Prices(records, filter, h24), k);
    SnapshotScales(Prices(records, filter, d7), k);
    AverageScales(all, k);
    MinimumScales(all, k);
    ZeroMaxScales(all, k);
    HistoryScales(records, k);
  }

  lemma HistoryScales(records: seq<PriceRecord>, k: real)
    ensures LastN(ScaleRecords(records, k), 100) == ScaleRecords(LastN(records, 100), k)
  {
  }

  lemma TrendIgnoresScale(info: PriceInfo, k: real)
    requires k > 0.0
    ensures TrendOf(ScaleInfo(info, k)) == TrendOf(info)
    ensures ConfidenceOf(ScaleInfo(info, k)) == ConfidenceOf(info)
  {
    if info.last24Hours.Some? && info.last7Days.Some? {
      var h, d := info.last24Hours.value.avgPrice, info.last7Days.value.avgPrice;
      MultiplyKeepsOrder(k, 0.0, d);
      if d > 0.0 {
        assert Times(k, h) - Times(k, d) == Times(k, h - d);
        RatioScales(k, h - d, d);
      }
    }
  }

  lemma SupplyIgnoresScale(info: PriceInfo, k: real)
    requires k > 0.0
    ensures SupplyFactor(ScaleInfo(info, k)) == SupplyFactor(info)
  {
    var avg := info.avgPrice;
    MultiplyKeepsOrder(k, 0.0, avg);
    MultiplyKeepsOrder(k, info.minPrice, avg * 0.7);
    MultiplyKeepsOrder(k, avg * 1.3, info.maxPrice);
    assert Times(k, avg * 0.7) == Times(k, avg) * 0.7;
    assert Times(k, avg * 1.3) == Times(k, avg) * 1.3;
  }

  /** Scaled statistics leave trend, confidence, supply and factors as they were. */
  lemma JudgementIgnoresScale(info: PriceInfo, spec: Option<ResourceSpec>, k: real)
    requires k > 0.0
    ensures var scaled := ScaleInfo(info, k);
            && TrendOf(scaled) == TrendOf(info) && ConfidenceOf(scaled) == ConfidenceOf(info)
            && SupplyFactor(scaled) == SupplyFactor(info) && FactorsOf(scaled, spec) == FactorsOf(info, spec)
  {
    TrendIgnoresScale(info, k);
    SupplyIgnoresScale(info, k);
  }

  lemma ProductScales(k: real, supply: real, base: real, spec: Option<ResourceSpec>)
    ensures ForRequest(Times(supply, Times(k, base)), spec) == Times(k, ForRequest(Times(supply, base), spec))
  {
    var x, g, d := supply * base, GpuMultiplier(spec), DurationMultiplier(spec);
    assert supply * (k * base) == k * x;
    assert (k * x) * g == k * (x * g);
    assert (k * (x * g)) * d == k * (x * g * d);
  }

  lemma BaseOfNoAverage(supply: real, spec: Option<ResourceSpec>)
    requires supply > 0.0
    ensures ForRequest(Times(supply, 100.0), spec) > 0.0
  {
    assert Times(supply, 100.0) * GpuMultiplier(spec) > 0.0;
  }

  lemma TimesIsIdentityIff(k: real, x: real)
    requires x > 0.0
    ensures x == Times(k, x) <==> k == 1.0
  {
    if k != 1.0 { assert (k - 1.0) * x != 0.0; }
  }

  /** The unrounded price scales exactly when there is an average to scale: with none, the
      base is the fixed 100. */
  lemma PriceScalesIff(info: PriceInfo, spec: Option<ResourceSpec>, k: real)
    requires k > 0.0
    ensures Advise(ScaleInfo(info, k), spec).price == Times(k, Advise(info, spec).price)
            <==> info.avgPrice != 0.0 || k == 1.0
  {
    var supply := SupplyFactor(info);
    JudgementIgnoresScale(info, spec, k);
    MultiplyKeepsOrder(k, info.avgPrice, 0.0);
    if info.avgPrice != 0.0 {
      ProductScales(k, supply, info.avgPrice, spec);
    } else {
      BaseOfNoAverage(supply, spec);
      TimesIsIdentityIff(k, ForRequest(Times(supply, 100.0), spec));
    }
  }

  lemma PositiveAverage(records: seq<PriceRecord>, spec: Option<ResourceSpec>, now: int)
    requires ProperPrices(records, spec)
    ensures InfoOf(records, spec, now).avgPrice != 0.0 <==> Prices(records, spec, None) != []
  {
    var ps := Prices(records, spec, None);
    if ps != [] { AverageBetween(ps); }
  }

  lemma AdviceOfScaledInfo(info: PriceInfo, spec: Option<ResourceSpec>, k: real)
    requires k > 0.0
    ensures var a, b := Advise(info, spec), Advise(ScaleInfo(info, k), spec);
            && b.trend == a.trend && b.confidence == a.confidence && b.factors == a.factors
            && (b.price == Times(k, a.price) <==> info.avgPrice != 0.0 || k == 1.0)
  {
    JudgementIgnoresScale(info, spec, k);
    PriceScalesIff(info, spec, k);
  }

  /** Recommendations do not depend on the unit of price: scaling every positive price by k
      keeps trend, confidence and factors and multiplies the unrounded price by k, exactly
      when some record matches (or k is 1). */
  lemma AdviceIsScaleInvariant(records: seq<PriceRecord>, spec: Option<ResourceSpec>, now: int, k: real)
    requires k > 0.0 && ProperPrices(records, spec)
    requires FitFloats(Prices(records, spec, None), k)
    ensures var a := Advise(InfoOf(records, spec, now), spec);
            var b := Advise(InfoOf(ScaleRecords(records, k), spec, now), spec);
            && b.trend == a.trend && b.confidence == a.confidence && b.factors == a.factors
            && (b.price == Times(k, a.price) <==> Prices(records, spec, None) != [] || k == 1.0)
  {
    ScanScales(records, spec, now, k);
    AdviceOfScaledInfo(InfoOf(records, spec, now), spec, k);
    PositiveAverage(records, spec, now);
  }
}

/** The aggregator: a window of records and the single scan over it. */
module PriceAggregators {
  import opened Common
  import opened PriceStatistics
  import opened PriceAdvice

  const RETAINED := 10000

  class PriceAggregator {
    var records: seq<PriceRecord>

    constructor ()
      ensures records == []
    {
      records := [];
    }

    method AddRecord(record: PriceRecord)
      modifies this
      ensures records == LastN(old(records) + [record], 10000)
    {
      records := records + [record];
      if |records| > RETAINED {
        records := records[|records| - RETAINED..];
      }
    }

    ghost predicate TracksAll(ps: seq<real>, total: real, count: int, min: real, max: real) {
      total == Sum(ps) && count == |ps| && min == MaxFloatMin(ps) && max == ZeroMax(ps)
    }

    ghost predicate TracksWindow(ps: seq<real>, total: real, count: int, min: real, max: real) {
      total == Sum(ps) && count == |ps| && min == ZeroMin(ps) && max == ZeroMax(ps)
    }

    /** The loop's update of the all-time accumulators, whose minimum starts at the largest float. */
    method AddToAll(ghost ps: seq<real>, p: real, total: real, count: int, min: real, max: real)
        returns (total': real, count': int, min': real, max': real)
      requires TracksAll(ps, total, count, min, max)
      ensures TracksAll(ps + [p], total', count', min', max')
    {
      Appending(ps, p);
      total', count', min', max' := total + p, count + 1, min, max;
      if p < min {
        min' := p;
      }
      if p > max {
        max' := p;
      }
    }

    /** The loop's update of the accumulators of a window, whose minimum starts at 0. */
    method AddToWindow(ghost ps: seq<real>, p: real, total: real, count: int, min: real, max: real)
        returns (total': real, count': int, min': real, max': real)
      requires TracksWindow(ps, total, count, min, max)
      ensures TracksWindow(ps + [p], total', count', min', max')
    {
      Appending(ps, p);
      total', count', min', max' := total + p, count + 1, min, max;
      if min == 0.0 || p < min {
        min' := p;
      }
      if p > max {
        max' := p;
      }
    }

    /** One loop over the records keeps the sum, count, minimum and maximum of three windows. */
    method GetPriceInfo(filter: Option<ResourceSpec>, now: int) returns (info: PriceInfo)
      ensures info == InfoOf(records, filter, now)
    {
      var minPrice, maxPrice := MAX_FLOAT, 0.0;
      var totalPrice, count := 0.0, 0;
      var h24Ago, d7Ago := now - WINDOW_24H, now - WINDOW_7D;
      var h24Total, h24Min, h24Max, h24Count := 0.0, 0.0, 0.0, 0;
      var d7Total, d7Min, d7Max, d7Count := 0.0, 0.0, 0.0, 0;
      ghost var all, h24, d7 := [], [], [];
      for i := 0 to |records|
        invariant all == Prices(records[..i], filter, None)
        invariant h24 == Prices(records[..i], filter, Some(h24Ago))
        invariant d7 == Prices(records[..i], filter, Some(d7Ago))
        invariant TracksAll(all, totalPrice, count, minPrice, maxPrice)
        invariant TracksWindow(h24, h24Total, h24Count, h24Min, h24Max)
        invariant TracksWindow(d7, d7Total, d7Count, d7Min, d7Max)
      {
        var record := records[i];
        PricesSnoc(records, i, filter, None);
        PricesSnoc(records, i, filter, Some(h24Ago));
        PricesSnoc(records, i, filter, Some(d7Ago));
        if filter.Some? && !MatchSpec(record.spec, filter.value) {
          continue;
        }
        var p := record.avgPrice;
        totalPrice, count, minPrice, maxPrice := AddToAll(all, p, totalPrice, count, minPrice, maxPrice);
        all := all + [p];
        if record.timestamp > h24Ago {
          h24Total, h24Count, h24Min, h24Max := AddToWindow(h24, p, h24Total, h24Count, h24Min, h24Max);
          h24 := h24 + [p];
        }
        if record.timestamp > d7Ago {
          d7Total, d7Count, d7Min, d7Max := AddToWindow(d7, p, d7Total, d7Count, d7Min, d7Max);
          d7 := d7 + [p];
        }
      }
      assert records[..|records|] == records;
      var avgPrice := 0.0;
      if count > 0 {
        avgPrice := Ratio(totalPrice, count as real);
      }
      if minPrice == MAX_FLOAT {
        minPrice := 0.0;
      }
      var last24Hours: Option<Snapshot>, last7Days: Option<Snapshot> := None, None;
      if h24Count > 0 {
        last24Hours := Some(Snapshot(Ratio(h24Total, h24Count as real), h24Min, h24Max, h24Count));
      }
      if d7Count > 0 {
        last7Days := Some(Snapshot(Ratio(d7Total, d7Count as real), d7Min, d7Max, d7Count));
      }
      var history := records;
      if |records| > 100 {
        history := records[|records| - 100..];
      }
      info := PriceInfo(avgPrice, minPrice, maxPrice, last24Hours, last7Days, history);
    }

    /** Returns the advice with its price rounded to two decimals. */
    method GetRecommendation(spec: Option<ResourceSpec>, now: int) returns (advice: Advice)
      ensures var exact := Advise(InfoOf(records, spec, now), spec);
              advice == exact.(price := TwoDecimals(exact.price))
    {
      var info := GetPriceInfo(spec, now);
      var trend, confidence, factors := JudgeTrend(info);
      var supplyFactor := 1.0;
      if info.avgPrice > 0.0 {
        if info.minPrice < info.avgPrice * 0.7 {
          supplyFactor := 0.9;
          factors := factors + [Factor("supply_level", 0.2, Negative)];
        } else if info.maxPrice > info.avgPrice * 1.3 {
          supplyFactor := 1.1;
          factors := factors + [Factor("demand_level", 0.2, Positive)];
        }
      }
      assert supplyFactor == SupplyFactor(info) && factors == TrendFactors(info) + SupplyFactors(info);
      var basePrice := info.avgPrice;
      if basePrice == 0.0 {
        basePrice := 100.0;
      }
      var price;
      price, factors := ApplyRequest(Times(supplyFactor, basePrice), factors, spec);
      advice := Advice(TwoDecimals(price), confidence, trend, factors);
    }

    /** The part of a recommendation that compares the last day with the last week. */
    method JudgeTrend(info: PriceInfo) returns (trend: Trend, confidence: real, factors: seq<Factor>)
      ensures trend == TrendOf(info) && confidence == ConfidenceOf(info) && factors == TrendFactors(info)
    {
      trend, confidence, factors := Stable, 0.5, [];
      if info.last24Hours.Some? && info.last7Days.Some? {
        var h24Avg, d7Avg := info.last24Hours.value.avgPrice, info.last7Days.value.avgPrice;
        if d7Avg > 0.0 {
          var change := Ratio(h24Avg - d7Avg, d7Avg);
          if change > 0.1 {
            trend := Rising;
            factors := factors + [Factor("market_trend", 0.3, Positive)];
          } else if change < -0.1 {
            trend := Falling;
            factors := factors + [Factor("market_trend", 0.3, Negative)];
          }
          var c := 0.5 + info.last7Days.value.count as real / 1000.0;
          confidence := if c < 0.9 then c else 0.9;
        }
      }
    }

    /** The part of a recommendation that depends on the requested resources alone. */
    method ApplyRequest(base: real, given: seq<Factor>, spec: Option<ResourceSpec>)
        returns (price: real, factors: seq<Factor>)
      ensures price == ForRequest(base, spec)
      ensures factors == given + GpuFactors(spec) + DurationFactors(spec)
    {
      price, factors := base, given;
      if spec.Some? {
        if spec.value.gpu > 0 {
          price := price * (1.0 + spec.value.gpu as real * 0.5);
          factors := factors + [Factor("gpu_requirement", 0.2, Positive)];
        }
        if spec.value.duration > 0 && spec.value.duration >= 60 {
          price := price * 0.85;
          factors := factors + [Factor("long_duration", 0.1, Positive)];
        }
      }
    }
  }
}
