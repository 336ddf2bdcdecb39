/** What a bill costs and how bills add up. */
module BillLedger {
  import opened Common
  import opened Folds

  datatype Usage = Usage(cpu: real, memory: real, gpu: real, storage: real, network: real)
  datatype PriceUnit = PriceUnit(cpu: real, memory: real, gpu: real, storage: real, network: real, currency: string)

  /** An update may set any text; all the code compares it with are these four. */
  datatype Status = Pending | Paid | Overdue | Cancelled | Other(name: string)

  const DEFAULT_PRICES := PriceUnit(0.05, 0.01, 2.00, 0.001, 0.05, "CNY")

  datatype Bill = Bill(
    tenant: Uuid, usage: Usage, unitPrice: PriceUnit, totalAmount: real, currency: string, discount: real,
    status: Status, dueDate: int, paidAt: Option<int>, createdAt: int, updatedAt: int)

  type Bills = map<Uuid, Bill>

  // ---------- One bill ----------

  function ResourceCost(u: Usage, p: PriceUnit): real {
    u.cpu * p.cpu + u.memory * p.memory + u.gpu * p.gpu + u.storage * p.storage + u.network * p.network
  }

  function Discounted(cost: real, discount: real): real {
    if discount > 0.0 then cost * (1.0 - discount / 100.0) else cost
  }

  function TotalOf(u: Usage, p: PriceUnit, discount: real): real {
    Discounted(ResourceCost(u, p), discount)
  }

  /** The amount of the bill is what its own usage, unit prices and discount come to. */
  ghost predicate IsPriced(b: Bill) {
    b.totalAmount == TotalOf(b.usage, b.unitPrice, b.discount)
  }

  predicate NonNegative(u: Usage, p: PriceUnit) {
    && u.cpu >= 0.0 && u.memory >= 0.0 && u.gpu >= 0.0 && u.storage >= 0.0 && u.network >= 0.0
    && p.cpu >= 0.0 && p.memory >= 0.0 && p.gpu >= 0.0 && p.storage >= 0.0 && p.network >= 0.0
  }

  lemma CostIsNonNegative(u: Usage, p: PriceUnit)
    requires NonNegative(u, p)
    ensures ResourceCost(u, p) >= 0.0
  {
    ProductIsNonNegative(u.cpu, p.cpu);
    ProductIsNonNegative(u.memory, p.memory);
    ProductIsNonNegative(u.gpu, p.gpu);
    ProductIsNonNegative(u.storage, p.storage);
    ProductIsNonNegative(u.network, p.network);
  }

  lemma DiscountBounds(cost: real, discount: real)
    requires cost >= 0.0
    ensures Discounted(cost, discount) <= cost
    ensures 0.0 <= Discounted(cost, discount) <==> discount <= 100.0 || cost == 0.0
  {
    if discount > 0.0 {
      var rate := discount / 100.0;
      assert cost * (1.0 - rate) == cost - cost * rate;
      ProductIsNonNegative(cost, rate);
      if discount <= 100.0 {
        ProductIsNonNegative(cost, 1.0 - rate);
      } else if cost > 0.0 {
        assert cost * (rate - 1.0) > 0.0;
      }
    }
  }

  /** With non-negative usage and prices an amount never exceeds the plain cost, and is not
      negative exactly when the discount is at most 100 (or there is no cost). */
  lemma AmountIsWithinCost(b: Bill)
    requires IsPriced(b) && NonNegative(b.usage, b.unitPrice)
    ensures b.totalAmount <= ResourceCost(b.usage, b.unitPrice)
    ensures 0.0 <= b.totalAmount <==> b.discount <= 100.0 || ResourceCost(b.usage, b.unitPrice) == 0.0
  {
    CostIsNonNegative(b.usage, b.unitPrice);
    DiscountBounds(ResourceCost(b.usage, b.unitPrice), b.discount);
  }

  /** A discount of 150 on a cost of 100 leaves an amount of -50. */
  lemma HighDiscountGoesBelowZero()
    ensures TotalOf(Usage(100.0, 0.0, 0.0, 0.0, 0.0), PriceUnit(1.0, 0.0, 0.0, 0.0, 0.0, "CNY"), 150.0) == -50.0
  {
    assert ResourceCost(Usage(100.0, 0.0, 0.0, 0.0, 0.0), PriceUnit(1.0, 0.0, 0.0, 0.0, 0.0, "CNY")) == 100.0;
  }

  // ---------- Sums over bills ----------

  datatype Amounts = Amounts(total: real, paid: real, pending: real, usage: Usage, count: int)

  const ZERO := Amounts(0.0, 0.0, 0.0, Usage(0.0, 0.0, 0.0, 0.0, 0.0), 0)

  function AddUsage(a: Usage, b: Usage): Usage {
    Usage(a.cpu + b.cpu, a.memory + b.memory, a.gpu + b.gpu, a.storage + b.storage, a.network + b.network)
  }

  function Add(a: Amounts, b: Amounts): Amounts {
    Amounts(a.total + b.total, a.paid + b.paid, a.pending + b.pending, AddUsage(a.usage, b.usage), a.count + b.count)
  }

  function AmountsOf(b: Bill): Amounts {
    Amounts(b.totalAmount,
            if b.status == Paid then b.totalAmount else 0.0,
            if b.status == Pending then b.totalAmount else 0.0,
            b.usage, 1)
  }

  lemma AddIsMonoid()
    ensures CommutativeMonoid(Add, ZERO)
  {
    forall a: Amounts ensures HasUnit(Add, ZERO, a) { assert Add(a, ZERO) == a; }
    forall a: Amounts, b: Amounts ensures Commutes(Add, a, b) { assert Add(a, b) == Add(b, a); }
    forall a: Amounts, b: Amounts, c: Amounts ensures Associates(Add, a, b, c) {
      assert Add(Add(a, b), c) == Add(a, Add(b, c));
    }
  }

  lemma AddRegroups(a: Amounts, b: Amounts, c: Amounts)
    ensures Add(a, Add(b, c)) == Add(Add(a, b), c)
    ensures Add(a, Add(c, b)) == Add(Add(a, b), c)
  {
  }

  ghost function Sum(bills: Bills): Amounts {
    Fold(bills, AmountsOf, Add, ZERO)
  }

  lemma SumWithout(bills: Bills, id: Uuid)
    requires id in bills
    ensures Sum(bills) == Add(AmountsOf(bills[id]), Sum(bills - {id}))
  {
    AddIsMonoid();
    FoldRemove(bills, id, AmountsOf, Add, ZERO);
  }

  lemma SumOfDisjoint(a: Bills, b: Bills)
    requires a.Keys !! b.Keys
    ensures Sum(a + b) == Add(Sum(a), Sum(b))
  {
    AddIsMonoid();
    FoldUnion(a, b, AmountsOf, Add, ZERO);
  }

  /** A period; an end that is not set does not bound it.  Both ends belong to the period. */
  datatype Period = Period(start: Option<int>, end: Option<int>)

  predicate InPeriod(b: Bill, p: Period) {
    && (p.start.Some? ==> b.createdAt >= p.start.value)
    && (p.end.Some? ==> b.createdAt <= p.end.value)
  }

  /** The nil tenant selects the bills of all tenants. */
  predicate Selects(tenant: Uuid, p: Option<Period>, b: Bill) {
    && (tenant != NIL ==> b.tenant == tenant)
    && (p.Some? ==> InPeriod(b, p.value))
  }

  function Selected(bills: Bills, tenant: Uuid, p: Option<Period>): Bills {
    map id | id in bills && Selects(tenant, p, bills[id]) :: bills[id]
  }

  ghost function Summary(bills: Bills, tenant: Uuid, p: Period): Amounts {
    Sum(Selected(bills, tenant, Some(p)))
  }

  /** What is neither paid nor pending: overdue and cancelled bills. */
  ghost function RestOf(bills: Bills): real {
    Sum(map id | id in bills && bills[id].status != Paid && bills[id].status != Pending :: bills[id]).total
  }

  lemma {:induction false} OnlyRest(bills: Bills)
    requires forall id | id in bills :: bills[id].status != Paid && bills[id].status != Pending
    ensures Sum(bills).paid == 0.0 && Sum(bills).pending == 0.0
    decreases |bills|
  {
    if bills.Keys != {} {
      var id :| id in bills;
      SumWithout(bills, id);
      OnlyRest(bills - {id});
    }
  }

  lemma {:induction false} OnlyPaidOrPending(bills: Bills)
    requires forall id | id in bills :: bills[id].status == Paid || bills[id].status == Pending
    ensures Sum(bills).total == Sum(bills).paid + Sum(bills).pending
    decreases |bills|
  {
    if bills.Keys != {} {
      var id :| id in bills;
      SumWithout(bills, id);
      OnlyPaidOrPending(bills - {id});
    }
  }

  /** A total is made of the paid, the pending and the rest. */
  lemma TotalSplitsByStatus(bills: Bills)
    ensures Sum(bills).total == Sum(bills).paid + Sum(bills).pending + RestOf(bills)
  {
    var rest := map id | id in bills && bills[id].status != Paid && bills[id].status != Pending :: bills[id];
    var live := map id | id in bills && (bills[id].status == Paid || bills[id].status == Pending) :: bills[id];
    assert bills == live + rest;
    SumOfDisjoint(live, rest);
    OnlyRest(rest);
    OnlyPaidOrPending(live);
  }

  /** Periods that meet without overlap add up... */
  lemma AdjacentPeriodsAddUp(bills: Bills, tenant: Uuid, start: Option<int>, mid: int, end: Option<int>)
    requires start.Some? ==> start.value <= mid
    requires end.Some? ==> mid < end.value
    ensures Summary(bills, tenant, Period(start, end))
            == Add(Summary(bills, tenant, Period(start, Some(mid))), Summary(bills, tenant, Period(Some(mid + 1), end)))
  {
    var a := Selected(bills, tenant, Some(Period(start, Some(mid))));
    var b := Selected(bills, tenant, Some(Period(Some(mid + 1), end)));
    assert Selected(bills, tenant, Some(Period(start, end))) == a + b;
    SumOfDisjoint(a, b);
  }

  /** ... and periods that share an instant count the bills of that instant twice. */
  lemma TouchingPeriodsCountTwice(bills: Bills, tenant: Uuid, start: int, mid: int, end: int)
    requires start < mid < end
    ensures Add(Summary(bills, tenant, Period(Some(start), Some(mid))),
                Summary(bills, tenant, Period(Some(mid), Some(end))))
            == Add(Summary(bills, tenant, Period(Some(start), Some(end))),
                   Summary(bills, tenant, Period(Some(mid), Some(mid))))
  {
    var early := Summary(bills, tenant, Period(Some(start), Some(mid)));
    var late := Summary(bills, tenant, Period(Some(mid + 1), Some(end)));
    AdjacentPeriodsAddUp(bills, tenant, Some(start), mid, Some(end));
    AdjacentPeriodsAddUp(bills, tenant, Some(mid), mid, Some(end));
    AddRegroups(early, late, Summary(bills, tenant, Period(Some(mid), Some(mid))));
  }

  lemma {:induction false} SumCountsBills(bills: Bills)
    ensures Sum(bills).count == |bills|
    decreases |bills|
  {
    if bills.Keys != {} {
      var id :| id in bills;
      SumWithout(bills, id);
      SumCountsBills(bills - {id});
      assert (bills - {id}).Keys == bills.Keys - {id};
    }
  }

  lemma AddsNothingIff(a: Amounts, bills: Bills)
    ensures Add(a, Sum(bills)) == a <==> bills == map[]
  {
    SumCountsBills(bills);
  }

  lemma SelectedAtInstant(bills: Bills, tenant: Uuid, mid: int)
    ensures Selected(bills, tenant, Some(Period(Some(mid), Some(mid)))) == map[]
            <==> forall id | id in bills && (tenant == NIL || bills[id].tenant == tenant) :: bills[id].createdAt != mid
  {
    var instant := Some(Period(Some(mid), Some(mid)));
    var selected := Selected(bills, tenant, instant);
    assert forall id :: id in selected <==> id in bills && Selects(tenant, instant, bills[id]);
    assert selected == map[] <==> forall id :: id !in selected;
  }

  /** So they add up to the whole exactly when no bill selected was created at that instant. */
  lemma TouchingPeriodsAddUpIff(bills: Bills, tenant: Uuid, start: int, mid: int, end: int)
    requires start < mid < end
    ensures Add(Summary(bills, tenant, Period(Some(start), Some(mid))),
                Summary(bills, tenant, Period(Some(mid), Some(end))))
            == Summary(bills, tenant, Period(Some(start), Some(end)))
            <==> forall id | id in bills && (tenant == NIL || bills[id].tenant == tenant) :: bills[id].createdAt != mid
  {
    TouchingPeriodsCountTwice(bills, tenant, start, mid, end);
    AddsNothingIff(Summary(bills, tenant, Period(Some(start), Some(end))),
                   Selected(bills, tenant, Some(Period(Some(mid), Some(mid)))));
    SelectedAtInstant(bills, tenant, mid);
  }

  /** The sum of the summaries of several tenants. */
  ghost function SumOverTenants(bills: Bills, tenants: seq<Uuid>, p: Period): Amounts {
    if tenants == [] then ZERO
    else Add(SumOverTenants(bills, tenants[1..], p), Summary(bills, tenants[0], p))
  }

  function OfTenants(bills: Bills, tenants: seq<Uuid>, p: Period): Bills {
    map id | id in bills && bills[id].tenant in tenants && InPeriod(bills[id], p) :: bills[id]
  }

  lemma FirstOrRest(tenants: seq<Uuid>, t: Uuid)
    requires tenants != []
    ensures t in tenants <==> t == tenants[0] || t in tenants[1..]
  {
    assert tenants == [tenants[0]] + tenants[1..];
  }

  lemma SplitOffTenant(bills: Bills, tenants: seq<Uuid>, p: Period)
    requires tenants != [] && tenants[0] != NIL && tenants[0] !in tenants[1..]
    ensures Sum(OfTenants(bills, tenants, p))
            == Add(Sum(OfTenants(bills, tenants[1..], p)), Summary(bills, tenants[0], p))
  {
    var others, own := OfTenants(bills, tenants[1..], p), Selected(bills, tenants[0], Some(p));
    forall t ensures t in tenants <==> t == tenants[0] || t in tenants[1..] { FirstOrRest(tenants, t); }
    assert OfTenants(bills, tenants, p) == others + own;
    SumOfDisjoint(others, own);
  }

  lemma NoTenants(bills: Bills, p: Period)
    ensures Sum(OfTenants(bills, [], p)) == ZERO
  {
    assert OfTenants(bills, [], p) == map[];
  }

  ghost predicate AreTenants(tenants: seq<Uuid>) {
    tenants == [] || (tenants[0] != NIL && tenants[0] !in tenants[1..] && AreTenants(tenants[1..]))
  }

  lemma {:induction false} TenantsAddUp(bills: Bills, tenants: seq<Uuid>, p: Period)
    requires AreTenants(tenants)
    ensures SumOverTenants(bills, tenants, p) == Sum(OfTenants(bills, tenants, p))
  {
    if tenants == [] {
      NoTenants(bills, p);
    } else {
      TenantsAddUp(bills, tenants[1..], p);
      SplitOffTenant(bills, tenants, p);
    }
  }

  lemma EveryTenantIsListed(bills: Bills, tenants: seq<Uuid>, p: Period)
    requires forall id | id in bills :: bills[id].tenant in tenants
    ensures Selected(bills, NIL, Some(p)) == OfTenants(bills, tenants, p)
  {
  }

  /** The all-tenant summary is the sum of the tenants' own, for any list of distinct tenants
      that has them all and not the nil one. */
  lemma AllTenantsIsSumOfTenants(bills: Bills, tenants: seq<Uuid>, p: Period)
    requires AreTenants(tenants) && forall id | id in bills :: bills[id].tenant in tenants
    ensures Summary(bills, NIL, p) == SumOverTenants(bills, tenants, p)
  {
    TenantsAddUp(bills, tenants, p);
    EveryTenantIsListed(bills, tenants, p);
  }

  function SumOfList(list: seq<Bill>): Amounts {
    FoldList(list, AmountsOf, Add, ZERO)
  }

  /** Whatever order the bills are listed in, they add up to the same. */
  lemma ListingsSumAlike(bills: Bills, ids: seq<Uuid>, list: seq<Bill>)
    requires Lists(bills, ids, list)
    ensures SumOfList(list) == Sum(bills)
  {
    AddIsMonoid();
    ListingsAgree(bills, ids, list, AmountsOf, Add, ZERO);
  }

  // ---------- Steps ----------

  datatype BillUpdate = BillUpdate(
    usage: Option<Usage>, discount: Option<real>, status: Option<Status>, dueDate: Option<int>)

  /** Prices are set by a call, or by whoever holds the price object and writes to it. */
  datatype Event =
    | CreateBill(id: Uuid, bill: Bill, now: int)
    | UpdateBill(id: Uuid, update: BillUpdate, now: int)
    | PayBill(id: Uuid, now: int)
    | CancelBill(id: Uuid, now: int)
    | SetPrices(prices: PriceUnit)

  datatype Service = Service(bills: Bills, prices: PriceUnit)

  function Created(b: Bill, prices: PriceUnit, now: int): Bill {
    b.(status := Pending, currency := prices.currency, unitPrice := prices,
       totalAmount := TotalOf(b.usage, prices, b.discount),
       createdAt := now, updatedAt := now,
       dueDate := if b.dueDate == UNSET_TIME then now + 30 * DAY else b.dueDate)
  }

  function Updated(b: Bill, u: BillUpdate, now: int): Bill {
    var usage := if u.usage.Some? then u.usage.value else b.usage;
    var discount := if u.discount.Some? then u.discount.value else b.discount;
    b.(usage := usage, discount := discount,
       totalAmount := if u.usage.Some? || u.discount.Some? then TotalOf(usage, b.unitPrice, discount)
                      else b.totalAmount,
       status := if u.status.Some? then u.status.value else b.status,
       dueDate := if u.dueDate.Some? then u.dueDate.value else b.dueDate,
       updatedAt := now)
  }

  function PaidBill(b: Bill, now: int): Bill {
    b.(status := Paid, paidAt := Some(now), updatedAt := now)
  }

  /** A call that fails changes nothing. */
  function Apply(s: Service, ev: Event): Service {
    match ev
    case CreateBill(id, b, now) => s.(bills := s.bills[id := Created(b, s.prices, now)])
    case UpdateBill(id, u, now) =>
      if id in s.bills then s.(bills := s.bills[id := Updated(s.bills[id], u, now)]) else s
    case PayBill(id, now) =>
      if id in s.bills && s.bills[id].status != Paid
      then s.(bills := s.bills[id := PaidBill(s.bills[id], now)]) else s
    case CancelBill(id, now) =>
      if id in s.bills && s.bills[id].status != Paid
      then s.(bills := s.bills[id := s.bills[id].(status := Cancelled, updatedAt := now)]) else s
    case SetPrices(prices) => s.(prices := prices)
  }

  function Run(evs: seq<Event>): Service {
    if evs == [] then Service(map[], DEFAULT_PRICES) else Apply(Run(evs[..|evs| - 1]), evs[|evs| - 1])
  }

  lemma RunSnoc(evs: seq<Event>, ev: Event)
    ensures Run(evs + [ev]) == Apply(Run(evs), ev)
  {
    assert (evs + [ev])[..|evs|] == evs;
  }

  /** The prices in force when the bill now filed under `id` was created. */
  function PricesAtCreation(evs: seq<Event>, id: Uuid): Option<PriceUnit> {
    if evs == [] then None
    else
      var ev := evs[|evs| - 1];
      if ev.CreateBill? && ev.id == id then Some(Run(evs[..|evs| - 1]).prices)
      else PricesAtCreation(evs[..|evs| - 1], id)
  }

  /** Through any run, every bill's amount is what its usage and discount come to at the unit
      prices of its creation, whatever happened to the prices since. */
  lemma {:induction false} BillsStayPriced(evs: seq<Event>)
    ensures forall id | id in Run(evs).bills ::
              && IsPriced(Run(evs).bills[id])
              && PricesAtCreation(evs, id) == Some(Run(evs).bills[id].unitPrice)
  {
    if evs != [] {
      var front, ev := evs[..|evs| - 1], evs[|evs| - 1];
      BillsStayPriced(front);
      forall id | id in Run(evs).bills
        ensures IsPriced(Run(evs).bills[id]) && PricesAtCreation(evs, id) == Some(Run(evs).bills[id].unitPrice)
      {
        if id in Run(front).bills {
          assert IsPriced(Run(front).bills[id]) && PricesAtCreation(front, id) == Some(Run(front).bills[id].unitPrice);
        }
      }
    }
  }

  /** Paying a pending bill moves exactly its amount from pending to paid in every summary
      that selects it, and changes no other. */
  lemma PayingMovesAmount(s: Service, id: Uuid, now: int, tenant: Uuid, p: Period)
    requires id in s.bills && s.bills[id].status == Pending
    ensures var before, after := Summary(s.bills, tenant, p), Summary(Apply(s, PayBill(id, now)).bills, tenant, p);
            var moved := if Selects(tenant, Some(p), s.bills[id]) then s.bills[id].totalAmount else 0.0;
            after == before.(paid := before.paid + moved, pending := before.pending - moved)
  {
    var b := s.bills[id];
    var bills' := Apply(s, PayBill(id, now)).bills;
    var before, after := Selected(s.bills, tenant, Some(p)), Selected(bills', tenant, Some(p));
    if Selects(tenant, Some(p), b) {
      SumWithout(before, id);
      SumWithout(after, id);
      assert before - {id} == after - {id};
    } else {
      UnselectedStaysOut(s.bills, id, bills'[id], tenant, p);
    }
  }

  lemma UnselectedStaysOut(bills: Bills, id: Uuid, b: Bill, tenant: Uuid, p: Period)
    requires id in bills && !Selects(tenant, Some(p), bills[id]) && !Selects(tenant, Some(p), b)
    ensures Selected(bills[id := b], tenant, Some(p)) == Selected(bills, tenant, Some(p))
  {
  }
}

/** The billing service. */
module BillingServices {
  import opened Common
  import opened Folds
  import L = BillLedger

  class Bill {
    var id: Uuid
    var tenant: Uuid
    var usage: L.Usage
    var unitPrice: L.PriceUnit
    var totalAmount: real
    var currency: string
    var discount: real
    var status: L.Status
    var dueDate: int
    var paidAt: Option<int>
    var createdAt: int
    var updatedAt: int

    /** A bill as a caller makes it up before handing it in. */
    constructor (id: Uuid, tenant: Uuid, usage: L.Usage, discount: real, dueDate: int)
      ensures this.id == id
      ensures State() == L.Bill(tenant, usage, L.DEFAULT_PRICES, 0.0, "", discount, L.Pending, dueDate, None,
                                UNSET_TIME, UNSET_TIME)
    {
      this.id, this.tenant, this.usage, this.discount, this.dueDate := id, tenant, usage, discount, dueDate;
      unitPrice, totalAmount, currency, status := L.DEFAULT_PRICES, 0.0, "", L.Pending;
      paidAt, createdAt, updatedAt := None, UNSET_TIME, UNSET_TIME;
    }

    ghost function State(): L.Bill
      reads this
    {
      L.Bill(tenant, usage, unitPrice, totalAmount, currency, discount, status, dueDate, paidAt, createdAt, updatedAt)
    }

    method CalculateTotal() returns (total: real)
      ensures total == L.TotalOf(usage, unitPrice, discount)
    {
      var cpuCost := usage.cpu * unitPrice.cpu;
      var memCost := usage.memory * unitPrice.memory;
      var gpuCost := usage.gpu * unitPrice.gpu;
      var storageCost := usage.storage * unitPrice.storage;
      var networkCost := usage.network * unitPrice.network;
      total := cpuCost + memCost + gpuCost + storageCost + networkCost;
      if discount > 0.0 {
        total := total * (1.0 - discount / 100.0);
      }
    }

    method Open(prices: L.PriceUnit, now: int)
      modifies this
      ensures id == old(id) && State() == L.Created(old(State()), prices, now)
    {
      status := L.Pending;
      currency := prices.currency;
      unitPrice := prices;
      totalAmount := CalculateTotal();
      createdAt := now;
      updatedAt := now;
      if dueDate == UNSET_TIME {
        dueDate := createdAt + 30 * DAY;
      }
    }

    method Pay(now: int)
      modifies this
      ensures id == old(id) && State() == L.PaidBill(old(State()), now)
    {
      status := L.Paid;
      paidAt := Some(now);
      updatedAt := now;
    }

    method Update(u: L.BillUpdate, now: int)
      modifies this
      ensures id == old(id) && State() == L.Updated(old(State()), u, now)
    {
      if u.usage.Some? {
        usage := u.usage.value;
        totalAmount := CalculateTotal();
      }
      if u.discount.Some? {
        discount := u.discount.value;
        totalAmount := CalculateTotal();
      }
      if u.status.Some? {
        status := u.status.value;
      }
      if u.dueDate.Some? {
        dueDate := u.dueDate.value;
      }
      updatedAt := now;
    }
  }

  /** The unit prices.  The service keeps the object it was given, so its owner can still write
      to it. */
  class Prices {
    var cpu: real
    var memory: real
    var gpu: real
    var storage: real
    var network: real
    var currency: string

    constructor (unit: L.PriceUnit)
      ensures Value() == unit
    {
      cpu, memory, gpu, storage, network, currency :=
        unit.cpu, unit.memory, unit.gpu, unit.storage, unit.network, unit.currency;
    }

    function Value(): L.PriceUnit
      reads this
    {
      L.PriceUnit(cpu, memory, gpu, storage, network, currency)
    }
  }

  datatype BillError = NotFound | AlreadyPaid

  class BillingService {
    var bills: map<Uuid, Bill>
    var prices: Prices
    ghost var history: seq<L.Event>  // every call so far that may have changed the service

    ghost function BillStates(): L.Bills
      reads `bills, bills.Values
    {
      map id | id in bills :: bills[id].State()
    }

    ghost function View(): L.Service
      reads `bills, `prices, bills.Values, prices
    {
      L.Service(BillStates(), prices.Value())
    }

    /** Bills are filed under their own identifiers, so none is filed twice. */
    ghost predicate Filed()
      reads `bills, bills.Values
    {
      forall id | id in bills :: bills[id].id == id
    }

    /** The bills are what the calls so far have made of them, so all that holds of every run
        holds of them, whatever is written to the price object meanwhile. */
    ghost predicate Valid()
      reads `bills, `history, bills.Values
    {
      Filed() && BillStates() == L.Run(history).bills
    }

    constructor ()
      ensures Valid() && View() == L.Service(map[], L.DEFAULT_PRICES) && fresh(prices)
    {
      bills, history := map[], [];
      prices := new Prices(L.DEFAULT_PRICES);
    }

    /** Adds a call to the history once its effect is in place. */
    ghost method Record(ev: L.Event)
      requires Filed() && BillStates() == L.Apply(L.Run(history), ev).bills
      modifies this`history
      ensures Valid() && history == old(history) + [ev]
    {
      assert BillStates() == L.Run(history + [ev]).bills by { L.RunSnoc(history, ev); }
      history := history + [ev];
    }

    /** The price object may have been written to: what it says now is what counts. */
    ghost method RecordPrices()
      requires Valid()
      modifies this`history
      ensures Valid() && history == old(history) + [L.SetPrices(prices.Value())]
      ensures L.Run(history).prices == prices.Value()
    {
      L.RunSnoc(history, L.SetPrices(prices.Value()));
      Record(L.SetPrices(prices.Value()));
    }

    /** A bill without an identifier gets a new one; one that has an identifier keeps it, and
        replaces any bill already filed under it. */
    method CreateBill(bill: Bill, newId: Uuid, now: int)
      requires Valid() && bill !in bills.Values
      modifies this`bills, this`history, bill
      ensures Valid()
      ensures bill.id == if old(bill.id) == NIL then newId else old(bill.id)
      ensures View() == L.Apply(old(View()), L.CreateBill(bill.id, old(bill.State()), now))
      ensures history == old(history) + [L.SetPrices(prices.Value()), L.CreateBill(bill.id, old(bill.State()), now)]
    {
      RecordPrices();
      OpenBill(bill, newId, now);
      Record(L.CreateBill(bill.id, old(bill.State()), now));
    }

    /** Prices the bill and files it. */
    method OpenBill(bill: Bill, newId: Uuid, now: int)
      requires Filed() && bill !in bills.Values
      modifies this`bills, bill
      ensures Filed() && bill.id == if old(bill.id) == NIL then newId else old(bill.id)
      ensures BillStates() == old(BillStates())[bill.id := L.Created(old(bill.State()), prices.Value(), now)]
    {
      if bill.id == NIL {
        bill.id := newId;
      }
      assert bill.State() == old(bill.State());
      bill.Open(prices.Value(), now);
      FileBill(bill);
    }

    method FileBill(bill: Bill)
      requires Filed() && bill !in bills.Values
      modifies this`bills
      ensures Filed() && BillStates() == old(BillStates())[bill.id := bill.State()]
    {
      var id := bill.id;
      bills := bills[id := bill];
      assert forall k | k in bills && k != id :: k in old(bills) && bills[k].State() == old(bills[k].State());
    }

    method UpdateBill(billId: Uuid, updates: L.BillUpdate, now: int) returns (r: Result<(), BillError>)
      requires Valid()
      modifies this`history, bills.Values
      ensures Valid()
      ensures r == if billId in old(bills) then Success(()) else Failure(NotFound)
      ensures View() == L.Apply(old(View()), L.UpdateBill(billId, updates, now))
      ensures history == old(history) + if r.Success? then [L.UpdateBill(billId, updates, now)] else []
    {
      if billId !in bills {
        return Failure(NotFound);
      }
      var bill := bills[billId];
      bill.Update(updates, now);
      assert BillStates() == old(BillStates())[billId := L.Updated(old(bill.State()), updates, now)];
      Record(L.UpdateBill(billId, updates, now));
      r := Success(());
    }

    method PayBill(billId: Uuid, now: int) returns (r: Result<(), BillError>)
      requires Valid()
      modifies this`history, bills.Values
      ensures Valid()
      ensures r == if billId !in old(BillStates()) then Failure(NotFound)
                   else if old(BillStates())[billId].status == L.Paid then Failure(AlreadyPaid)
                   else Success(())
      ensures View() == L.Apply(old(View()), L.PayBill(billId, now))
      ensures history == old(history) + if r.Success? then [L.PayBill(billId, now)] else []
    {
      if billId !in bills {
        return Failure(NotFound);
      }
      var bill := bills[billId];
      if bill.status == L.Paid {
        return Failure(AlreadyPaid);
      }
      bill.Pay(now);
      assert BillStates() == old(BillStates())[billId := L.PaidBill(old(bill.State()), now)];
      Record(L.PayBill(billId, now));
      r := Success(());
    }

    method CancelBill(billId: Uuid, now: int) returns (r: Result<(), BillError>)
      requires Valid()
      modifies this`history, bills.Values
      ensures Valid()
      ensures r == if billId !in old(BillStates()) then Failure(NotFound)
                   else if old(BillStates())[billId].status == L.Paid then Failure(AlreadyPaid)
                   else Success(())
      ensures View() == L.Apply(old(View()), L.CancelBill(billId, now))
      ensures history == old(history) + if r.Success? then [L.CancelBill(billId, now)] else []
    {
      if billId !in bills {
        return Failure(NotFound);
      }
      var bill := bills[billId];
      if bill.status == L.Paid {
        return Failure(AlreadyPaid);
      }
      bill.status := L.Cancelled;
      bill.updatedAt := now;
      assert BillStates() == old(BillStates())[billId := old(bill.State()).(status := L.Cancelled, updatedAt := now)];
      Record(L.CancelBill(billId, now));
      r := Success(());
    }

    /** Keeps the object it is given; no bill changes. */
    method UpdatePrices(newPrices: Prices)
      requires Valid()
      modifies this`prices, this`history
      ensures Valid() && prices == newPrices && BillStates() == old(BillStates())
      ensures View() == L.Apply(old(View()), L.SetPrices(newPrices.Value()))
      ensures history == old(history) + [L.SetPrices(newPrices.Value())]
    {
      prices := newPrices;
      RecordPrices();
    }

    /** Lists the selected bills, each once, in whatever order the map is read.  `ids` names
        the bills listed. */
    method FilterBills(tenant: Uuid, period: Option<L.Period>) returns (result: seq<Bill>, ghost ids: seq<Uuid>)
      requires Filed()
      ensures |ids| == |result| && forall i, j | 0 <= i < j < |ids| :: ids[i] != ids[j]
      ensures forall i | 0 <= i < |ids| :: ids[i] in bills && result[i] == bills[ids[i]]
      ensures forall id :: id in ids <==> id in L.Selected(BillStates(), tenant, period)
      ensures forall i, j | 0 <= i < j < |result| :: result[i] != result[j]
      ensures forall bill :: bill in result <==>
                bill.id in bills && bills[bill.id] == bill && L.Selects(tenant, period, bill.State())
    {
      result, ids := [], [];
      var todo := bills.Keys;
      while todo != {}
        invariant todo <= bills.Keys
        invariant |ids| == |result| && forall i, j | 0 <= i < j < |ids| :: ids[i] != ids[j]
        invariant forall i | 0 <= i < |ids| :: ids[i] in bills && result[i] == bills[ids[i]]
        invariant forall id :: id in ids <==> id in bills && id !in todo && L.Selects(tenant, period, bills[id].State())
      {
        var id :| id in todo;
        todo := todo - {id};
        var bill := bills[id];
        if tenant != NIL && bill.tenant != tenant {
          continue;
        }
        if period.Some? {
          if period.value.start.Some? && bill.createdAt < period.value.start.value {
            continue;
          }
          if period.value.end.Some? && bill.createdAt > period.value.end.value {
            continue;
          }
        }
        result := result + [bill];
        ids := ids + [id];
      }
    }

    /** Whatever order the bills are listed in, the summary is the sum over the selected bills. */
    method GetBillingSummary(tenant: Uuid, period: L.Period) returns (summary: L.Amounts)
      requires Filed()
      ensures summary == L.Summary(BillStates(), tenant, period)
    {
      var selected;
      ghost var ids;
      selected, ids := FilterBills(tenant, Some(period));
      ghost var states := L.Selected(BillStates(), tenant, Some(period));
      assert forall i | 0 <= i < |ids| :: ids[i] in ids;
      ghost var list := seq(|ids|, i requires 0 <= i < |ids| => states[ids[i]]);
      L.ListingsSumAlike(states, ids, list);
      summary := SumBills(selected, list);
    }

    /** The body of the summing loop. */
    method AddBill(summary: L.Amounts, bill: Bill) returns (after: L.Amounts)
      ensures after == L.Add(summary, L.AmountsOf(bill.State()))
    {
      after := summary.(total := summary.total + bill.totalAmount);
      if bill.status == L.Paid {
        after := after.(paid := after.paid + bill.totalAmount);
      }
      if bill.status == L.Pending {
        after := after.(pending := after.pending + bill.totalAmount);
      }
      after := after.(usage := L.AddUsage(after.usage, bill.usage), count := after.count + 1);
    }

    /** The summing loop; `list` gives the bills' values. */
    method SumBills(selected: seq<Bill>, ghost list: seq<L.Bill>) returns (summary: L.Amounts)
      requires |list| == |selected| && forall i | 0 <= i < |list| :: selected[i].State() == list[i]
      ensures summary == L.SumOfList(list)
    {
      summary := L.ZERO;
      for i := 0 to |selected|
        invariant summary == L.SumOfList(list[..i])
        invariant forall k | 0 <= k < |list| :: selected[k].State() == list[k]
      {
        assert list[..i + 1][..i] == list[..i];
        summary := AddBill(summary, selected[i]);
      }
      assert list[..|list|] == list;
    }
  }
}
