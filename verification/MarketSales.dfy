/** Which orders are accepted and what they leave, in terms of offers and quantities alone. */
module MarketSales {
  import opened Common
  import opened PriceStatistics
  import opened MarketLedger

  /** The order is on file, fulfilled at the offer's price; the quantity has left the stock, the
      offer is sold if nothing is left, and the price is logged.  All else is as before. */
  ghost predicate IsSale(m: Market, m': Market, id: Uuid, order: Order, now: int)
    requires order.offerId in m.offers
  {
    var o := m.offers[order.offerId];
    && m'.orders == m.orders[id := order.(
         status := Fulfilled, fulfilledAt := Some(now), createdAt := now, updatedAt := now,
         price := o.pricePerUnit, totalAmount := o.pricePerUnit * order.quantity as real, currency := o.currency)]
    && m'.offers == m.offers[order.offerId := o.(
         available := o.available - order.quantity,
         status := if o.available == order.quantity then Sold else Active)]
    && m'.prices == m.prices
       + [PriceRecord(now, o.spec, o.pricePerUnit, o.pricePerUnit, o.pricePerUnit, order.quantity)]
  }

  /** The offer is listed and active and has the quantity. */
  predicate IsOnSale(m: Market, order: Order) {
    && order.offerId in m.offers
    && m.offers[order.offerId].status == Active
    && order.quantity <= m.offers[order.offerId].available
  }

  lemma OnSaleSells(m: Market, id: Uuid, order: Order, now: int)
    ensures if IsOnSale(m, order) then IsSale(m, Apply(m, CreateOrder(id, order, now)), id, order, now)
            else Apply(m, CreateOrder(id, order, now)) == m
  {
    if IsOnSale(m, order) {
      var o := m.offers[order.offerId];
      FilledAs(order, o, now);
      assert AfterSale(o, order.quantity)
          == o.(available := o.available - order.quantity,
                status := if o.available == order.quantity then Sold else Active);
    }
  }

  lemma FilledAs(order: Order, o: Offer, now: int)
    ensures Filled(order, o, now)
            == order.(status := Fulfilled, fulfilledAt := Some(now), createdAt := now, updatedAt := now,
                      price := o.pricePerUnit, totalAmount := o.pricePerUnit * order.quantity as real,
                      currency := o.currency)
  {
  }

  /** In every reachable state an order files a new identifier exactly if its offer is listed and
      active and has the quantity; it is then a sale, and otherwise nothing changes. */
  lemma OrderIsAcceptedIff(evs: seq<Event>, id: Uuid, order: Order, now: int)
    requires id !in Run(evs).market.orders
    ensures var m, m' := Run(evs).market, Run(evs + [CreateOrder(id, order, now)]).market;
            && (id in m'.orders <==> IsOnSale(m, order))
            && if IsOnSale(m, order) then IsSale(m, m', id, order, now) else m' == m
  {
    var m := Run(evs).market;
    RunSnoc(evs, CreateOrder(id, order, now));
    OnSaleSells(m, id, order, now);
  }

  /** A new offer is active, with what it was made with; its week is one in nanoseconds. */
  lemma NewOffer(m: Market, id: Uuid, offer: Offer, now: int)
    ensures Apply(m, CreateOffer(id, offer, now))
            == m.(offers := m.offers[id := offer.(
                 status := Active, createdAt := now, updatedAt := now,
                 validUntil := if offer.validUntil == 0 then now + 604_800_000_000_000 else offer.validUntil)])
  {
  }

  /** An update writes what it gives and leaves the rest, the status above all. */
  lemma UpdatedOffer(m: Market, id: Uuid, u: OfferUpdate, now: int)
    requires id in m.offers
    ensures var o, o' := m.offers[id], Apply(m, UpdateOffer(id, u, now)).offers[id];
            && o'.pricePerUnit == (match u.pricePerUnit case Some(x) => x case None => o.pricePerUnit)
            && o'.available == (match u.available case Some(x) => x case None => o.available)
            && o'.validUntil == (match u.validUntil case Some(x) => x case None => o.validUntil)
            && o' == o.(pricePerUnit := o'.pricePerUnit, available := o'.available, validUntil := o'.validUntil,
                        updatedAt := now)
  {
  }

  /** A deleted offer is gone, the others and all orders stay, and nothing more is sold of it. */
  lemma DeletedOffer(m: Market, id: Uuid, order: Order)
    ensures var m' := Apply(m, DeleteOffer(id));
            && id !in m'.offers && m'.orders == m.orders && m'.prices == m.prices
            && (forall k | k in m.offers && k != id :: k in m'.offers && m'.offers[k] == m.offers[k])
            && (order.offerId == id ==> !IsOnSale(m', order))
  {
  }

  /** A new offer is one more, and one more active. */
  lemma StatsAfterOffer(m: Market, id: Uuid, offer: Offer, now: int)
    requires id !in m.offers
    ensures var a, b := StatsOf(m), StatsOf(Apply(m, CreateOffer(id, offer, now)));
            b == a.(offers := a.offers + 1, activeOffers := a.activeOffers + 1)
  {
    var m' := Apply(m, CreateOffer(id, offer, now));
    OffersWithout(m'.offers, id);
    assert m'.offers - {id} == m.offers;
  }

  // ---------- Selling an offer out ----------

  /** Orders of at least one unit each for the offer. */
  predicate AreOrdersFor(evs: seq<Event>, offer: Uuid) {
    forall ev | ev in evs :: ev.CreateOrder? && ev.order.offerId == offer && ev.order.quantity > 0
  }

  function Ordered(evs: seq<Event>, offer: Uuid): (n: nat)
    requires AreOrdersFor(evs, offer)
    ensures n >= |evs|
  {
    if evs == [] then 0
    else
      var front, ev := evs[..|evs| - 1], evs[|evs| - 1];
      assert ev in evs && forall e | e in front :: e in evs;
      Ordered(front, offer) + ev.order.quantity
  }

  /** The orders of these calls are all on file, fulfilled for what they asked. */
  ghost predicate AllFulfilled(m: Market, evs: seq<Event>) {
    forall ev | ev in evs && ev.CreateOrder? ::
      && ev.id in m.orders && m.orders[ev.id].status == Fulfilled
      && m.orders[ev.id].quantity == ev.order.quantity && m.orders[ev.id].offerId == ev.order.offerId
  }

  lemma OneMoreSale(m: Market, ev: Event, sold: seq<Event>)
    requires ev.CreateOrder? && ev.order.offerId in m.offers && m.offers[ev.order.offerId].status == Active
    requires m.offers[ev.order.offerId].available >= ev.order.quantity
    requires ev.id !in m.orders && AllFulfilled(m, sold)
    ensures var o, m' := m.offers[ev.order.offerId], Apply(m, ev);
            && ev.order.offerId in m'.offers
            && m'.offers[ev.order.offerId].available == o.available - ev.order.quantity
            && m'.offers[ev.order.offerId].status == (if o.available == ev.order.quantity then Sold else Active)
            && AllFulfilled(m', sold + [ev])
            && |m'.orders| == |m.orders| + 1
  {
    OneMoreOrder(m.orders, ev.id, Filled(ev.order, m.offers[ev.order.offerId], ev.now));
  }

  /** An active offer of n units serves every list of orders that add up to no more than n, and
      is sold exactly when they add up to n. */
  lemma {:induction false} OfferServesAll(m: Market, offer: Uuid, n: nat, evs: seq<Event>)
    requires offer in m.offers && m.offers[offer].status == Active && m.offers[offer].available == n > 0
    requires AreOrdersFor(evs, offer) && Ordered(evs, offer) <= n && AllFresh(m, evs)
    ensures var m' := RunFrom(m, evs);
            && offer in m'.offers && m'.offers[offer].available == n - Ordered(evs, offer)
            && m'.offers[offer].status == (if Ordered(evs, offer) == n then Sold else Active)
            && AllFulfilled(m', evs) && |m'.orders| == |m.orders| + |evs|
  {
    if evs != [] {
      var front, ev := evs[..|evs| - 1], evs[|evs| - 1];
      assert ev in evs && forall e | e in front :: e in evs;
      OfferServesAll(m, offer, n, front);
      assert evs == front + [ev];
      OneMoreSale(RunFrom(m, front), ev, front);
    }
  }
}
