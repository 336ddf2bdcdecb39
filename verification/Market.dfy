/** The market's abstract state, its steps and what every run of them keeps. */
module MarketLedger {
  import opened Common
  import opened Folds
  import opened PriceStatistics
  import opened PriceAdvice
  import opened PriceAggregators

  datatype OfferStatus = Active | Reserved | Sold | ExpiredOffer
  datatype OrderStatus = Pending | Matching | Fulfilled | Cancelled | ExpiredOrder

  const WEEK := 7 * DAY

  datatype Offer = Offer(
    spec: ResourceSpec, pricePerUnit: real, currency: string, status: OfferStatus, available: int,
    validUntil: int, createdAt: int, updatedAt: int)

  datatype Order = Order(
    offerId: Uuid, status: OrderStatus, quantity: int, price: real, totalAmount: real, currency: string,
    fulfilledAt: Option<int>, createdAt: int, updatedAt: int)

  datatype OfferUpdate = OfferUpdate(pricePerUnit: Option<real>, available: Option<int>, validUntil: Option<int>)

  datatype Market = Market(
    offers: map<Uuid, Offer>, orders: map<Uuid, Order>, prices: seq<PriceRecord>, window: seq<PriceRecord>)

  const EMPTY: Market := Market(map[], map[], [], [])

  datatype Event =
    | CreateOffer(id: Uuid, offer: Offer, now: int)
    | UpdateOffer(id: Uuid, update: OfferUpdate, now: int)
    | DeleteOffer(id: Uuid)
    | CreateOrder(id: Uuid, order: Order, now: int)
    | CancelOrder(id: Uuid, now: int)

  function Listed(o: Offer, now: int): Offer {
    o.(status := Active, createdAt := now, updatedAt := now,
       validUntil := if o.validUntil == UNSET_TIME then now + WEEK else o.validUntil)
  }

  function Updated(o: Offer, u: OfferUpdate, now: int): Offer {
    o.(pricePerUnit := if u.pricePerUnit.Some? then u.pricePerUnit.value else o.pricePerUnit,
       available := if u.available.Some? then u.available.value else o.available,
       validUntil := if u.validUntil.Some? then u.validUntil.value else o.validUntil,
       updatedAt := now)
  }

  /** The offer can take the order. */
  predicate CanSell(m: Market, order: Order) {
    && order.offerId in m.offers
    && m.offers[order.offerId].status == Active
    && m.offers[order.offerId].available >= order.quantity
  }

  function AfterSale(o: Offer, quantity: int): Offer {
    o.(available := o.available - quantity,
       status := if o.available - quantity <= 0 then Sold else o.status)
  }

  function Placed(order: Order, o: Offer, now: int): Order {
    order.(status := Matching, price := o.pricePerUnit,
           totalAmount := Times(o.pricePerUnit, order.quantity as real), currency := o.currency,
           createdAt := now, updatedAt := now)
  }

  function Filled(order: Order, o: Offer, now: int): Order {
    Placed(order, o, now).(status := Fulfilled, fulfilledAt := Some(now))
  }

  function RecordOf(o: Offer, quantity: int, now: int): PriceRecord {
    PriceRecord(now, o.spec, o.pricePerUnit, o.pricePerUnit, o.pricePerUnit, quantity)
  }

  /** A call that fails leaves the market as it was. */
  function Apply(m: Market, ev: Event): Market {
    match ev
    case CreateOffer(id, offer, now) => m.(offers := m.offers[id := Listed(offer, now)])
    case UpdateOffer(id, u, now) =>
      if id in m.offers then m.(offers := m.offers[id := Updated(m.offers[id], u, now)]) else m
    case DeleteOffer(id) => m.(offers := m.offers - {id})
    case CreateOrder(id, order, now) =>
      if CanSell(m, order) then
        var o := m.offers[order.offerId];
        var record := RecordOf(o, order.quantity, now);
        Market(m.offers[order.offerId := AfterSale(o, order.quantity)],
               m.orders[id := Filled(order, o, now)],
               m.prices + [record],
               LastN(m.window + [record], RETAINED))
      else m
    case CancelOrder(id, now) =>
      if id in m.orders && m.orders[id].status != Fulfilled
      then m.(orders := m.orders[id := m.orders[id].(status := Cancelled, updatedAt := now)])
      else m
  }

  /** New identifiers are not in use. */
  predicate IsFresh(m: Market, ev: Event) {
    && (ev.CreateOffer? ==> ev.id !in m.offers)
    && (ev.CreateOrder? ==> ev.id !in m.orders)
  }

  // ---------- Log, orders and window agree ----------

  function Plus(a: real, b: real): real {
    a + b
  }

  lemma PlusIsMonoid()
    ensures CommutativeMonoid(Plus, 0.0)
  {
    forall a: real ensures HasUnit(Plus, 0.0, a) { assert Plus(a, 0.0) == a; }
    forall a: real, b: real ensures Commutes(Plus, a, b) { assert Plus(a, b) == Plus(b, a); }
    forall a: real, b: real, c: real ensures Associates(Plus, a, b, c) {
      assert Plus(Plus(a, b), c) == Plus(a, Plus(b, c));
    }
  }

  /** What an order adds to the market's volume. */
  function VolumeOf(o: Order): real {
    if o.status == Fulfilled then o.totalAmount else 0.0
  }

  ghost function TotalVolume(orders: map<Uuid, Order>): real {
    Fold(orders, VolumeOf, Plus, 0.0)
  }

  function LogVolume(prices: seq<PriceRecord>): real {
    if prices == [] then 0.0
    else
      var r := prices[|prices| - 1];
      LogVolume(prices[..|prices| - 1]) + Times(r.avgPrice, r.volume as real)
  }

  ghost predicate Consistent(m: Market) {
    && (forall id | id in m.orders :: m.orders[id].status == Fulfilled)
    && |m.orders| == |m.prices|
    && TotalVolume(m.orders) == LogVolume(m.prices)
    && m.window == LastN(m.prices, RETAINED)
  }

  lemma VolumeWithout(orders: map<Uuid, Order>, id: Uuid)
    requires id in orders
    ensures TotalVolume(orders) == VolumeOf(orders[id]) + TotalVolume(orders - {id})
  {
    PlusIsMonoid();
    FoldRemove(orders, id, VolumeOf, Plus, 0.0);
  }

  lemma VolumeAfterSale(orders: map<Uuid, Order>, id: Uuid, filled: Order)
    requires id !in orders && filled.status == Fulfilled
    ensures TotalVolume(orders[id := filled]) == TotalVolume(orders) + filled.totalAmount
  {
    PlusIsMonoid();
    FoldWrite(orders, id, filled, VolumeOf, Plus, 0.0);
    assert orders - {id} == orders;
  }

  lemma LogVolumeAfter(prices: seq<PriceRecord>, r: PriceRecord)
    ensures LogVolume(prices + [r]) == LogVolume(prices) + Times(r.avgPrice, r.volume as real)
  {
    assert (prices + [r])[..|prices|] == prices;
  }

  lemma OneMoreOrder(orders: map<Uuid, Order>, id: Uuid, filled: Order)
    requires id !in orders
    ensures |orders[id := filled]| == |orders| + 1
  {
    assert orders[id := filled].Keys == orders.Keys + {id};
  }

  lemma SaleKeepsConsistency(m: Market, id: Uuid, order: Order, now: int)
    requires Consistent(m) && id !in m.orders && CanSell(m, order)
    ensures Consistent(Apply(m, CreateOrder(id, order, now)))
  {
    var o := m.offers[order.offerId];
    var filled, record := Filled(order, o, now), RecordOf(o, order.quantity, now);
    VolumeAfterSale(m.orders, id, filled);
    LogVolumeAfter(m.prices, record);
    LastNAppend(m.prices, record, RETAINED);
    OneMoreOrder(m.orders, id, filled);
  }

  lemma ApplyKeepsConsistency(m: Market, ev: Event)
    requires Consistent(m) && IsFresh(m, ev)
    ensures Consistent(Apply(m, ev))
  {
    if ev.CreateOrder? && CanSell(m, ev.order) { SaleKeepsConsistency(m, ev.id, ev.order, ev.now); }
  }

  lemma EmptyIsConsistent()
    ensures Consistent(EMPTY)
  {
  }

  // ---------- Stock ----------

  /** For each offer, the last stock set for it and what has been sold since. */
  datatype Stock = Stock(lastSet: int, sold: int)

  datatype World = World(market: Market, stock: map<Uuid, Stock>)

  function NextStock(w: World, ev: Event): map<Uuid, Stock> {
    match ev
    case CreateOffer(id, offer, _) => w.stock[id := Stock(offer.available, 0)]
    case UpdateOffer(id, u, _) =>
      if id in w.market.offers && u.available.Some? then w.stock[id := Stock(u.available.value, 0)] else w.stock
    case CreateOrder(_, order, _) =>
      if CanSell(w.market, order) && order.offerId in w.stock
      then w.stock[order.offerId := w.stock[order.offerId].(sold := w.stock[order.offerId].sold + order.quantity)]
      else w.stock
    case _ => w.stock
  }

  function Run(evs: seq<Event>): World {
    if evs == [] then World(EMPTY, map[])
    else
      var w := Run(evs[..|evs| - 1]);
      World(Apply(w.market, evs[|evs| - 1]), NextStock(w, evs[|evs| - 1]))
  }

  /** Every identifier made in the run was fresh. */
  ghost predicate IsRun(evs: seq<Event>) {
    evs == [] || (IsRun(evs[..|evs| - 1]) && IsFresh(Run(evs[..|evs| - 1]).market, evs[|evs| - 1]))
  }

  lemma RunSnoc(evs: seq<Event>, ev: Event)
    ensures Run(evs + [ev]).market == Apply(Run(evs).market, ev)
    ensures IsRun(evs) && IsFresh(Run(evs).market, ev) ==> IsRun(evs + [ev])
  {
    assert (evs + [ev])[..|evs|] == evs;
  }

  /** The stock the event sets, if it sets one, is not negative. */
  predicate SetsProperStock(ev: Event) {
    && (ev.CreateOffer? ==> ev.offer.available >= 0)
    && (ev.UpdateOffer? && ev.update.available.Some? ==> ev.update.available.value >= 0)
  }

  /** In every reachable state all orders are fulfilled, there is one log entry for each, the
      volumes agree, and the aggregator holds the last entries of the log. */
  lemma {:induction false} RunIsConsistent(evs: seq<Event>)
    requires IsRun(evs)
    ensures Consistent(Run(evs).market)
  {
    if evs == [] {
      EmptyIsConsistent();
    } else {
      RunIsConsistent(evs[..|evs| - 1]);
      ApplyKeepsConsistency(Run(evs[..|evs| - 1]).market, evs[|evs| - 1]);
    }
  }

  ghost predicate StockIsExact(w: World) {
    forall id | id in w.market.offers ::
      id in w.stock && w.market.offers[id].available == w.stock[id].lastSet - w.stock[id].sold
  }

  lemma StepKeepsStock(w: World, ev: Event)
    requires StockIsExact(w)
    ensures StockIsExact(World(Apply(w.market, ev), NextStock(w, ev)))
  {
  }

  /** No overselling: the stock of an offer is what was last set less what was sold since. */
  lemma {:induction false} StockIsConserved(evs: seq<Event>)
    ensures StockIsExact(Run(evs))
  {
    if evs != [] {
      StockIsConserved(evs[..|evs| - 1]);
      StepKeepsStock(Run(evs[..|evs| - 1]), evs[|evs| - 1]);
    }
  }

  /** Stock never goes negative unless it is set negative, whatever quantities are ordered. */
  lemma {:induction false} StockStaysNonNegative(evs: seq<Event>)
    requires forall ev | ev in evs :: SetsProperStock(ev)
    ensures forall id | id in Run(evs).market.offers :: Run(evs).market.offers[id].available >= 0
  {
    if evs != [] {
      forall ev | ev in evs[..|evs| - 1] ensures SetsProperStock(ev) { assert ev in evs; }
      StockStaysNonNegative(evs[..|evs| - 1]);
      assert evs[|evs| - 1] in evs;
    }
  }

  /** The stock the event sets, if it sets one, is at least one. */
  predicate SetsSomeStock(ev: Event) {
    && (ev.CreateOffer? ==> ev.offer.available >= 1)
    && (ev.UpdateOffer? && ev.update.available.Some? ==> ev.update.available.value >= 1)
  }

  /** If no one lists or restocks at nothing, an active offer always has something to sell:
      the sale that takes the last unit closes it. */
  lemma {:induction false} ActiveOffersHaveStock(evs: seq<Event>)
    requires forall ev | ev in evs :: SetsSomeStock(ev)
    ensures forall id | id in Run(evs).market.offers ::
              Run(evs).market.offers[id].status == Active ==> Run(evs).market.offers[id].available >= 1
  {
    if evs != [] {
      forall ev | ev in evs[..|evs| - 1] ensures SetsSomeStock(ev) { assert ev in evs; }
      ActiveOffersHaveStock(evs[..|evs| - 1]);
      assert evs[|evs| - 1] in evs;
    }
  }

  // ---------- From offers to statistics ----------

  /** The price the event sets, if it sets one, is between `low` and `high`. */
  predicate SetsPriceWithin(ev: Event, low: real, high: real) {
    && (ev.CreateOffer? ==> low <= ev.offer.pricePerUnit <= high)
    && (ev.UpdateOffer? && ev.update.pricePerUnit.Some? ==> low <= ev.update.pricePerUnit.value <= high)
  }

  ghost predicate PricesAreBetween(m: Market, low: real, high: real) {
    && (forall id | id in m.offers :: low <= m.offers[id].pricePerUnit <= high)
    && (forall r | r in m.window :: low <= r.avgPrice <= high)
  }

  lemma StepKeepsPrices(m: Market, ev: Event, low: real, high: real)
    requires PricesAreBetween(m, low, high) && SetsPriceWithin(ev, low, high)
    ensures PricesAreBetween(Apply(m, ev), low, high)
  {
    if ev.CreateOrder? && CanSell(m, ev.order) {
      var record := RecordOf(m.offers[ev.order.offerId], ev.order.quantity, ev.now);
      forall r | r in Apply(m, ev).window ensures low <= r.avgPrice <= high {
        assert r in m.window + [record];
      }
    }
  }

  lemma {:induction false} PricesStayBetween(evs: seq<Event>, low: real, high: real)
    requires forall ev | ev in evs :: SetsPriceWithin(ev, low, high)
    ensures PricesAreBetween(Run(evs).market, low, high)
  {
    if evs != [] {
      var front := evs[..|evs| - 1];
      forall ev | ev in front ensures SetsPriceWithin(ev, low, high) { assert ev in evs; }
      PricesStayBetween(front, low, high);
      assert evs[|evs| - 1] in evs;
      StepKeepsPrices(Run(front).market, evs[|evs| - 1], low, high);
    }
  }

  /** If every price ever set lies in a range of positive floats, then in every reachable state
      the statistics are the true ones, and recommendations stay within a tenth of the range. */
  lemma OfferPricesBoundAdvice(evs: seq<Event>, spec: Option<ResourceSpec>, now: int, low: real, high: real)
    requires forall ev | ev in evs :: SetsPriceWithin(ev, low, high)
    requires 0.0 < low && high < MAX_FLOAT
    ensures var window := Run(evs).market.window;
            var info := InfoOf(window, spec, now);
            var advice := Advise(info, spec);
            && IsExact(info, window, spec, now)
            && (Prices(window, spec, None) != [] ==>
                  && low <= info.minPrice <= info.avgPrice <= info.maxPrice <= high
                  && ForRequest(0.9 * low, spec) <= advice.price <= ForRequest(1.1 * high, spec)
                  && 0.5 <= advice.confidence <= 0.9)
  {
    var window := Run(evs).market.window;
    PricesStayBetween(evs, low, high);
    PricesAreWithin(window, spec, None, low, high);
    ScanIsExact(window, spec, now);
    if Prices(window, spec, None) != [] {
      AdviceIsBounded(window, spec, now, low, high);
      AverageBetween(Prices(window, spec, None));
    }
  }

  // ---------- Sold is final ----------

  ghost function RunFrom(m: Market, evs: seq<Event>): Market {
    if evs == [] then m else Apply(RunFrom(m, evs[..|evs| - 1]), evs[|evs| - 1])
  }

  /** The orders placed on an offer. */
  ghost function OrdersOn(m: Market, offer: Uuid): set<Uuid> {
    set id | id in m.orders && m.orders[id].offerId == offer
  }

  ghost predicate IsOver(m: Market, offer: Uuid) {
    offer in m.offers ==> m.offers[offer].status == Sold
  }

  lemma StepKeepsOver(m: Market, ev: Event, offer: Uuid)
    requires IsOver(m, offer) && IsFresh(m, ev)
    requires ev.CreateOffer? ==> ev.id != offer
    ensures IsOver(Apply(m, ev), offer)
    ensures OrdersOn(Apply(m, ev), offer) == OrdersOn(m, offer)
    ensures ev.CreateOrder? && ev.order.offerId == offer ==> Apply(m, ev) == m
  {
    assert forall id | id in Apply(m, ev).orders && id in m.orders ::
        Apply(m, ev).orders[id].offerId == m.orders[id].offerId;
  }

  ghost predicate AllFresh(m: Market, evs: seq<Event>) {
    evs == [] || (AllFresh(m, evs[..|evs| - 1]) && IsFresh(RunFrom(m, evs[..|evs| - 1]), evs[|evs| - 1]))
  }

  /** Once an offer is sold it takes no order in any later state, even after an update has
      given it new stock. */
  lemma {:induction false} SoldIsFinal(m: Market, offer: Uuid, evs: seq<Event>)
    requires IsOver(m, offer) && AllFresh(m, evs)
    requires forall ev | ev in evs :: ev.CreateOffer? ==> ev.id != offer
    ensures IsOver(RunFrom(m, evs), offer) && OrdersOn(RunFrom(m, evs), offer) == OrdersOn(m, offer)
  {
    if evs != [] {
      var front := evs[..|evs| - 1];
      forall ev | ev in front ensures ev.CreateOffer? ==> ev.id != offer { assert ev in evs; }
      SoldIsFinal(m, offer, front);
      assert evs[|evs| - 1] in evs;
      StepKeepsOver(RunFrom(m, front), evs[|evs| - 1], offer);
    }
  }

  /** Restocking a sold offer does not reopen it. */
  lemma RestockedStaysSold(m: Market, offer: Uuid, stock: int, now: int, order: Order)
    requires offer in m.offers && m.offers[offer].status == Sold && order.offerId == offer
    ensures var restocked := Apply(m, UpdateOffer(offer, OfferUpdate(None, Some(stock), None), now));
            restocked.offers[offer].available == stock && !CanSell(restocked, order)
  {
  }

  // ---------- Statistics ----------

  /** What one order contributes to the counts and the volume. */
  lemma OrdersWithout(orders: map<Uuid, Order>, id: Uuid)
    requires id in orders
    ensures var rest := orders - {id};
            && |orders.Keys| == |rest.Keys| + 1
            && |FulfilledOrders(orders)| == |FulfilledOrders(rest)| + (if orders[id].status == Fulfilled then 1 else 0)
            && TotalVolume(orders) == VolumeOf(orders[id]) + TotalVolume(rest)
  {
    var rest := orders - {id};
    VolumeWithout(orders, id);
    assert rest.Keys == orders.Keys - {id};
    if orders[id].status == Fulfilled {
      assert FulfilledOrders(rest) == FulfilledOrders(orders) - {id};
    } else {
      assert FulfilledOrders(rest) == FulfilledOrders(orders);
    }
  }

  lemma OffersWithout(offers: map<Uuid, Offer>, id: Uuid)
    requires id in offers
    ensures var rest := offers - {id};
            && |offers.Keys| == |rest.Keys| + 1
            && |ActiveOffers(offers)| == |ActiveOffers(rest)| + if offers[id].status == Active then 1 else 0
  {
    var rest := offers - {id};
    assert rest.Keys == offers.Keys - {id};
    if offers[id].status == Active {
      assert ActiveOffers(rest) == ActiveOffers(offers) - {id};
    } else {
      assert ActiveOffers(rest) == ActiveOffers(offers);
    }
  }

  datatype Stats = Stats(offers: nat, activeOffers: nat, orders: nat, fulfilledOrders: nat, totalVolume: real)

  ghost function ActiveOffers(offers: map<Uuid, Offer>): set<Uuid> {
    set id | id in offers && offers[id].status == Active
  }

  ghost function FulfilledOrders(orders: map<Uuid, Order>): set<Uuid> {
    set id | id in orders && orders[id].status == Fulfilled
  }

  ghost function StatsOf(m: Market): Stats {
    Stats(|m.offers.Keys|, |ActiveOffers(m.offers)|,
          |m.orders.Keys|, |FulfilledOrders(m.orders)|, TotalVolume(m.orders))
  }

  /** In every reachable state the statistics can be read off the price log. */
  lemma StatsMatchLog(evs: seq<Event>)
    requires IsRun(evs)
    ensures var m := Run(evs).market;
            var stats := StatsOf(m);
            && stats.orders == stats.fulfilledOrders == |m.prices|
            && stats.totalVolume == LogVolume(m.prices)
  {
    RunIsConsistent(evs);
    var m := Run(evs).market;
    assert FulfilledOrders(m.orders) == m.orders.Keys;
  }
}

/** The market service. */
module MarketServices {
  import opened Common
  import opened Folds
  import opened PriceStatistics
  import opened PriceAggregators
  import opened MarketLedger

  class MarketOffer {
    var id: Uuid
    var spec: ResourceSpec
    var pricePerUnit: real
    var currency: string
    var status: OfferStatus
    var available: int
    var validUntil: int
    var createdAt: int
    var updatedAt: int

    constructor (spec: ResourceSpec, pricePerUnit: real, currency: string, available: int, validUntil: int)
      ensures State() == Offer(spec, pricePerUnit, currency, Active, available, validUntil, UNSET_TIME, UNSET_TIME)
    {
      id := NIL;
      this.spec, this.pricePerUnit, this.currency := spec, pricePerUnit, currency;
      this.available, this.validUntil := available, validUntil;
      status, createdAt, updatedAt := Active, UNSET_TIME, UNSET_TIME;
    }

    ghost function State(): Offer
      reads this
    {
      Offer(spec, pricePerUnit, currency, status, available, validUntil, createdAt, updatedAt)
    }

    method List(newId: Uuid, now: int)
      modifies this
      ensures id == newId && State() == Listed(old(State()), now)
    {
      id := newId;
      status := Active;
      createdAt := now;
      updatedAt := now;
      if validUntil == UNSET_TIME {
        validUntil := createdAt + WEEK;
      }
    }

    method Update(updates: OfferUpdate, now: int)
      modifies this
      ensures id == old(id) && State() == Updated(old(State()), updates, now)
    {
      if updates.pricePerUnit.Some? {
        pricePerUnit := updates.pricePerUnit.value;
      }
      if updates.available.Some? {
        available := updates.available.value;
      }
      if updates.validUntil.Some? {
        validUntil := updates.validUntil.value;
      }
      updatedAt := now;
    }

    method Sell(quantity: int)
      modifies this
      ensures id == old(id) && State() == AfterSale(old(State()), quantity)
    {
      available := available - quantity;
      if available <= 0 {
        status := Sold;
      }
    }
  }

  class MarketOrder {
    var id: Uuid
    var offerId: Uuid
    var status: OrderStatus
    var quantity: int
    var price: real
    var totalAmount: real
    var currency: string
    var fulfilledAt: Option<int>
    var createdAt: int
    var updatedAt: int

    constructor (offerId: Uuid, quantity: int)
      ensures State() == Order(offerId, Pending, quantity, 0.0, 0.0, "", None, UNSET_TIME, UNSET_TIME)
    {
      id := NIL;
      this.offerId, this.quantity := offerId, quantity;
      status, price, totalAmount, currency := Pending, 0.0, 0.0, "";
      fulfilledAt, createdAt, updatedAt := None, UNSET_TIME, UNSET_TIME;
    }

    ghost function State(): Order
      reads this
    {
      Order(offerId, status, quantity, price, totalAmount, currency, fulfilledAt, createdAt, updatedAt)
    }

    method Place(newId: Uuid, offer: MarketOffer, now: int)
      modifies this
      ensures id == newId
      ensures State() == Placed(old(State()), offer.State(), now)
    {
      id := newId;
      status := Matching;
      price := offer.pricePerUnit;
      totalAmount := Times(offer.pricePerUnit, quantity as real);
      currency := offer.currency;
      createdAt := now;
      updatedAt := now;
    }
  }

  datatype MarketError = OfferNotFound | OfferNotActive | Insufficient | OrderNotFound | AlreadyFulfilled

  class MarketService {
    var offers: map<Uuid, MarketOffer>
    var orders: map<Uuid, MarketOrder>
    var prices: seq<PriceRecord>
    const priceAgg: PriceAggregator
    ghost var history: seq<Event>  // every call so far that may have changed the market

    ghost function OfferStates(): map<Uuid, Offer>
      reads `offers, offers.Values
    {
      map id | id in offers :: offers[id].State()
    }

    ghost function OrderStates(): map<Uuid, Order>
      reads `orders, orders.Values
    {
      map id | id in orders :: orders[id].State()
    }

    ghost function View(): Market
      reads `offers, `orders, `prices, offers.Values, orders.Values, priceAgg
    {
      Market(OfferStates(), OrderStates(), prices, priceAgg.records)
    }

    /** Objects are filed under their own identifiers, so none is filed twice. */
    ghost predicate Filed()
      reads `offers, `orders, offers.Values, orders.Values
    {
      && (forall id | id in offers :: offers[id].id == id)
      && (forall id | id in orders :: orders[id].id == id)
    }

    /** The market is what the calls so far have made of it, so all that holds of every run
        holds of it. */
    ghost predicate Valid()
      reads this, offers.Values, orders.Values, priceAgg
    {
      Filed() && IsRun(history) && View() == Run(history).market
    }

    constructor ()
      ensures Valid() && View() == EMPTY && fresh(priceAgg)
    {
      offers, orders, prices := map[], map[], [];
      priceAgg := new PriceAggregator();
      history := [];
    }

    /** Adds a call to the history once its effect is in place. */
    ghost method Record(ev: Event)
      requires Filed() && IsRun(history) && IsFresh(Run(history).market, ev)
      requires View() == Apply(Run(history).market, ev)
      modifies this`history
      ensures Valid() && View() == old(View()) && history == old(history) + [ev]
    {
      assert IsRun(history + [ev]) && View() == Run(history + [ev]).market by { RunSnoc(history, ev); }
      history := history + [ev];
    }

    method CreateOffer(offer: MarketOffer, newId: Uuid, now: int)
      requires Valid() && offer !in offers.Values && newId !in offers
      modifies this`offers, this`history, offer
      ensures Valid()
      ensures View() == Apply(old(View()), Event.CreateOffer(newId, old(offer.State()), now))
      ensures history == old(history) + [Event.CreateOffer(newId, old(offer.State()), now)]
      ensures offers == old(offers)[newId := offer]
    {
      FileOffer(offer, newId, now);
      Record(Event.CreateOffer(newId, old(offer.State()), now));
    }

    method FileOffer(offer: MarketOffer, newId: Uuid, now: int)
      requires Filed() && offer !in offers.Values && newId !in offers
      modifies this`offers, offer
      ensures Filed() && offers == old(offers)[newId := offer]
      ensures OfferStates() == old(OfferStates())[newId := Listed(old(offer.State()), now)]
      ensures OrderStates() == old(OrderStates())
    {
      offer.List(newId, now);
      offers := offers[newId := offer];
    }

    method UpdateOffer(offerId: Uuid, updates: OfferUpdate, now: int) returns (r: Result<(), MarketError>)
      requires Valid()
      modifies this`history, offers.Values
      ensures Valid()
      ensures r == if offerId in old(offers) then Success(()) else Failure(OfferNotFound)
      ensures View() == Apply(old(View()), Event.UpdateOffer(offerId, updates, now))
      ensures history == old(history) + if r.Success? then [Event.UpdateOffer(offerId, updates, now)] else []
    {
      if offerId !in offers {
        return Failure(OfferNotFound);
      }
      var offer := offers[offerId];
      offer.Update(updates, now);
      assert View().offers == old(View()).offers[offerId := Updated(old(offer.State()), updates, now)];
      Record(Event.UpdateOffer(offerId, updates, now));
      r := Success(());
    }

    method DeleteOffer(offerId: Uuid) returns (r: Result<(), MarketError>)
      requires Valid()
      modifies this`offers, this`history
      ensures Valid()
      ensures r == if offerId in old(offers) then Success(()) else Failure(OfferNotFound)
      ensures View() == Apply(old(View()), Event.DeleteOffer(offerId))
      ensures history == old(history) + if r.Success? then [Event.DeleteOffer(offerId)] else []
    {
      if offerId !in offers {
        assert View().offers - {offerId} == View().offers;
        return Failure(OfferNotFound);
      }
      offers := offers - {offerId};
      assert View().offers == old(View()).offers - {offerId};
      Record(Event.DeleteOffer(offerId));
      r := Success(());
    }

    method CreateOrder(order: MarketOrder, newId: Uuid, now: int) returns (r: Result<(), MarketError>)
      requires Valid() && order !in orders.Values && newId !in orders
      modifies this`orders, this`prices, this`history, order, offers.Values, priceAgg
      ensures Valid()
      ensures r.Success? <==> CanSell(old(View()), old(order.State()))
      ensures r.Failure? ==>
                var m := old(View());
                var offerId := old(order.offerId);
                r.error == if offerId !in m.offers then OfferNotFound
                           else if m.offers[offerId].status != Active then OfferNotActive
                           else Insufficient
      ensures View() == Apply(old(View()), Event.CreateOrder(newId, old(order.State()), now))
      ensures history == old(history) + if r.Success? then [Event.CreateOrder(newId, old(order.State()), now)] else []
      ensures r.Failure? ==> order.State() == old(order.State())
    {
      if order.offerId !in offers {
        return Failure(OfferNotFound);
      }
      var offer := offers[order.offerId];
      if offer.status != Active {
        return Failure(OfferNotActive);
      }
      if offer.available < order.quantity {
        return Failure(Insufficient);
      }
      AcceptOrder(order, newId, now);
      Record(Event.CreateOrder(newId, old(order.State()), now));
      r := Success(());
    }

    /** The part of CreateOrder after the checks. */
    method AcceptOrder(order: MarketOrder, newId: Uuid, now: int)
      requires Filed() && order !in orders.Values && newId !in orders && CanSell(View(), order.State())
      modifies this`orders, this`prices, order, offers.Values, priceAgg
      ensures Filed() && View() == Apply(old(View()), Event.CreateOrder(newId, old(order.State()), now))
    {
      ghost var offer := OfferStates()[order.offerId];
      StoreOrder(order, newId, now);
      Overwrite(old(OrderStates()), newId, order.State(), Filled(old(order.State()), offer, now));
      MatchOrder(order, now);
    }

    lemma Overwrite<V>(m: map<Uuid, V>, k: Uuid, v: V, w: V)
      ensures m[k := v][k := w] == m[k := w]
    {
    }

    /** Prices an accepted order and files it. */
    method StoreOrder(order: MarketOrder, newId: Uuid, now: int)
      requires Filed() && order !in orders.Values && newId !in orders && order.offerId in offers
      modifies this`orders, order
      ensures Filed() && orders == old(orders)[newId := order] && order.id == newId
      ensures order.State() == Placed(old(order.State()), offers[old(order.offerId)].State(), now)
      ensures OfferStates() == old(OfferStates())
      ensures OrderStates() == old(OrderStates())[newId := order.State()]
    {
      order.Place(newId, offers[order.offerId], now);
      orders := orders[newId := order];
    }

    /** Takes the order out of its offer's stock, fulfils it and logs the price. */
    method MatchOrder(order: MarketOrder, now: int)
      requires Filed() && order.offerId in offers && order.id in orders && orders[order.id] == order
      modifies this`prices, order`status, order`fulfilledAt, offers[order.offerId], priceAgg
      ensures Filed() && order.State() == old(order.State()).(status := Fulfilled, fulfilledAt := Some(now))
      ensures OrderStates() == old(OrderStates())[order.id := order.State()]
      ensures var offer := old(OfferStates())[order.offerId];
              var record := RecordOf(offer, order.quantity, now);
              && OfferStates() == old(OfferStates())[order.offerId := AfterSale(offer, order.quantity)]
              && prices == old(prices) + [record]
              && priceAgg.records == LastN(old(priceAgg.records) + [record], RETAINED)
    {
      var offer := offers[order.offerId];
      TakeStock(offer, order.quantity);
      Fulfil(order, now);
      var record := PriceRecord(now, offer.spec, offer.pricePerUnit, offer.pricePerUnit, offer.pricePerUnit,
                                order.quantity);
      LogPrice(record);
    }

    method LogPrice(record: PriceRecord)
      requires Filed()
      modifies this`prices, priceAgg
      ensures prices == old(prices) + [record]
      ensures priceAgg.records == LastN(old(priceAgg.records) + [record], RETAINED)
      ensures Filed() && OfferStates() == old(OfferStates()) && OrderStates() == old(OrderStates())
    {
      prices := prices + [record];
      priceAgg.AddRecord(record);
    }

    method TakeStock(offer: MarketOffer, quantity: int)
      requires Filed() && offer in offers.Values
      modifies offer
      ensures Filed() && offer.State() == AfterSale(old(offer.State()), quantity)
      ensures OfferStates() == old(OfferStates())[offer.id := AfterSale(old(offer.State()), quantity)]
      ensures OrderStates() == old(OrderStates())
    {
      offer.Sell(quantity);
    }

    method Fulfil(order: MarketOrder, now: int)
      requires Filed() && order in orders.Values
      modifies order`status, order`fulfilledAt
      ensures Filed() && order.State() == old(order.State()).(status := Fulfilled, fulfilledAt := Some(now))
      ensures OrderStates() == old(OrderStates())[order.id := order.State()]
      ensures OfferStates() == old(OfferStates())
    {
      order.status := Fulfilled;
      order.fulfilledAt := Some(now);
    }

    /** Every stored order is fulfilled, so cancelling one never succeeds. */
    method CancelOrder(orderId: Uuid, now: int) returns (r: Result<(), MarketError>)
      requires Valid()
      modifies orders.Values
      ensures Valid()
      ensures r == Failure(if orderId in old(orders) then AlreadyFulfilled else OrderNotFound)
      ensures View() == Apply(old(View()), Event.CancelOrder(orderId, now)) == old(View())
      ensures history == old(history)
    {
      if orderId !in orders {
        return Failure(OrderNotFound);
      }
      var order := orders[orderId];
      RunIsConsistent(history);
      assert View().orders[orderId].status == Fulfilled;
      if order.status == Fulfilled {
        return Failure(AlreadyFulfilled);
      }
      assert false;
    }

    /** Counts and sums over the maps, in whatever order they are read. */
    method GetMarketStats() returns (stats: Stats)
      requires Valid()
      ensures stats == StatsOf(View())
    {
      var totalOffers, activeOffers := CountOffers();
      var totalOrders, fulfilledOrders, totalVolume := CountOrders();
      stats := Stats(totalOffers, activeOffers, totalOrders, fulfilledOrders, totalVolume);
    }

    method CountOffers() returns (total: nat, active: nat)
      ensures total == |OfferStates().Keys| && active == |ActiveOffers(OfferStates())|
    {
      total, active := 0, 0;
      ghost var states := OfferStates();
      ghost var rest := states;
      var todo := offers.Keys;
      while todo != {}
        invariant todo <= offers.Keys && rest.Keys == todo && OfferStates() == states
        invariant forall id | id in todo :: rest[id] == states[id]
        invariant total + |rest.Keys| == |states.Keys|
        invariant active + |ActiveOffers(rest)| == |ActiveOffers(states)|
      {
        var id :| id in todo;
        OffersWithout(rest, id);
        rest := rest - {id};
        todo := todo - {id};
        total := total + 1;
        assert offers[id].State() == states[id];
        if offers[id].status == Active {
          active := active + 1;
        }
      }
    }

    method CountOrders() returns (total: nat, fulfilled: nat, volume: real)
      ensures total == |OrderStates().Keys| && fulfilled == |FulfilledOrders(OrderStates())|
      ensures volume == TotalVolume(OrderStates())
    {
      total, fulfilled, volume := 0, 0, 0.0;
      ghost var states := OrderStates();
      ghost var rest := states;
      var todo := orders.Keys;
      while todo != {}
        invariant todo <= orders.Keys && rest.Keys == todo && OrderStates() == states
        invariant forall id | id in todo :: rest[id] == states[id]
        invariant total + |rest.Keys| == |states.Keys|
        invariant fulfilled + |FulfilledOrders(rest)| == |FulfilledOrders(states)|
        invariant volume + TotalVolume(rest) == TotalVolume(states)
      {
        var id :| id in todo;
        OrdersWithout(rest, id);
        rest := rest - {id};
        todo := todo - {id};
        total := total + 1;
        assert orders[id].State() == states[id];
        if orders[id].status == Fulfilled {
          fulfilled := fulfilled + 1;
          volume := volume + orders[id].totalAmount;
        }
      }
    }
  }
}
