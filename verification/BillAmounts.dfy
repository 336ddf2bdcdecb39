/** What a bill comes to, in terms of hours, prices and discount alone. */
module BillAmounts {
  import opened Common
  import opened BillLedger

  /** The amount of the bill when it is created. */
  function Charged(s: Service, id: Uuid, b: Bill, now: int): real {
    Apply(s, CreateBill(id, b, now)).bills[id].totalAmount
  }

  /** A resource used alone and without discount costs what is used of it times its own price. */
  lemma OneResource(s: Service, id: Uuid, b: Bill, now: int, x: real)
    requires b.discount <= 0.0
    ensures b.usage == Usage(x, 0.0, 0.0, 0.0, 0.0) ==> Charged(s, id, b, now) == x * s.prices.cpu
    ensures b.usage == Usage(0.0, x, 0.0, 0.0, 0.0) ==> Charged(s, id, b, now) == x * s.prices.memory
    ensures b.usage == Usage(0.0, 0.0, x, 0.0, 0.0) ==> Charged(s, id, b, now) == x * s.prices.gpu
    ensures b.usage == Usage(0.0, 0.0, 0.0, x, 0.0) ==> Charged(s, id, b, now) == x * s.prices.storage
    ensures b.usage == Usage(0.0, 0.0, 0.0, 0.0, x) ==> Charged(s, id, b, now) == x * s.prices.network
  {
  }

  lemma CostsAddUp(u: Usage, v: Usage, p: PriceUnit)
    ensures ResourceCost(Usage(u.cpu + v.cpu, u.memory + v.memory, u.gpu + v.gpu, u.storage + v.storage,
                               u.network + v.network), p)
            == ResourceCost(u, p) + ResourceCost(v, p)
  {
    assert (u.cpu + v.cpu) * p.cpu == u.cpu * p.cpu + v.cpu * p.cpu;
    assert (u.memory + v.memory) * p.memory == u.memory * p.memory + v.memory * p.memory;
    assert (u.gpu + v.gpu) * p.gpu == u.gpu * p.gpu + v.gpu * p.gpu;
    assert (u.storage + v.storage) * p.storage == u.storage * p.storage + v.storage * p.storage;
    assert (u.network + v.network) * p.network == u.network * p.network + v.network * p.network;
  }

  /** Two usages on one bill cost what they cost on two. */
  lemma UsagesAddUp(s: Service, id: Uuid, b: Bill, c: Bill, both: Bill, now: int)
    requires b.discount <= 0.0 && c.discount <= 0.0 && both.discount <= 0.0
    requires both.usage == Usage(b.usage.cpu + c.usage.cpu, b.usage.memory + c.usage.memory,
                                 b.usage.gpu + c.usage.gpu, b.usage.storage + c.usage.storage,
                                 b.usage.network + c.usage.network)
    ensures Charged(s, id, both, now) == Charged(s, id, b, now) + Charged(s, id, c, now)
  {
    CostsAddUp(b.usage, c.usage, s.prices);
  }

  /** A discount of d takes d percent off; a negative one does nothing. */
  lemma DiscountTakesPercent(s: Service, id: Uuid, b: Bill, d: real, now: int)
    ensures var plain := Charged(s, id, b.(discount := 0.0), now);
            Charged(s, id, b.(discount := d), now) == if d > 0.0 then plain * (100.0 - d) / 100.0 else plain
  {
    var plain := ResourceCost(b.usage, s.prices);
    assert plain * (1.0 - d / 100.0) == plain * (100.0 - d) / 100.0;
  }

  /** The prices of a new service. */
  lemma DefaultTariff(id: Uuid, b: Bill, now: int)
    requires b.discount <= 0.0
    ensures Charged(Run([]), id, b, now)
            == 0.05 * b.usage.cpu + 0.01 * b.usage.memory + 2.0 * b.usage.gpu + 0.001 * b.usage.storage
               + 0.05 * b.usage.network
    ensures Apply(Run([]), CreateBill(id, b, now)).bills[id].currency == "CNY"
  {
  }

  /** A changed bill comes to what a new bill with its usage and discount would at its own unit
      prices, and is changed in nothing else but what the update gives. */
  lemma UpdatedBill(s: Service, id: Uuid, u: BillUpdate, now: int)
    requires id in s.bills && IsPriced(s.bills[id])
    ensures var b, b' := s.bills[id], Apply(s, UpdateBill(id, u, now)).bills[id];
            && b'.usage == (match u.usage case Some(x) => x case None => b.usage)
            && b'.discount == (match u.discount case Some(x) => x case None => b.discount)
            && b'.status == (match u.status case Some(x) => x case None => b.status)
            && b'.dueDate == (match u.dueDate case Some(x) => x case None => b.dueDate)
            && b' == b.(usage := b'.usage, discount := b'.discount, status := b'.status, dueDate := b'.dueDate,
                        totalAmount := b'.totalAmount, updatedAt := now)
            && b'.totalAmount == Charged(Service(map[], b.unitPrice), id, b', now)
  {
  }

  /** A new bill is pending, at the prices in force, and due in thirty days unless it says when. */
  lemma NewBill(s: Service, id: Uuid, b: Bill, now: int)
    ensures var b' := Apply(s, CreateBill(id, b, now)).bills[id];
            && b' == b.(status := Pending, currency := s.prices.currency, unitPrice := s.prices,
                        totalAmount := b'.totalAmount, createdAt := now, updatedAt := now, dueDate := b'.dueDate)
            && b'.dueDate == if b.dueDate == 0 then now + 2_592_000_000_000_000 else b.dueDate
  {
  }

  /** Paying and cancelling take any bill that is not paid, and write no more than the status and
      the times. */
  lemma PaidOrCancelled(s: Service, id: Uuid, now: int)
    requires id in s.bills
    ensures var b := s.bills[id];
            var paid, cancelled := Apply(s, PayBill(id, now)).bills[id], Apply(s, CancelBill(id, now)).bills[id];
            && paid == (if b.status == Paid then b else b.(status := Paid, paidAt := Some(now), updatedAt := now))
            && cancelled == (if b.status == Paid then b else b.(status := Cancelled, updatedAt := now))
  {
  }

  // ---------- Summaries ----------

  /** The bill is the tenant's, or every tenant is asked for, and it was created in the period,
      whose two ends belong to it. */
  predicate IsAskedFor(tenant: Uuid, p: Period, b: Bill) {
    && (tenant == 0 || b.tenant == tenant)
    && (p.start.None? || p.start.value <= b.createdAt)
    && (p.end.None? || b.createdAt <= p.end.value)
  }

  lemma SelectedAfterWrite(bills: Bills, id: Uuid, b: Bill, tenant: Uuid, p: Period)
    requires id !in bills
    ensures Selected(bills[id := b], tenant, Some(p))
            == if IsAskedFor(tenant, p, b) then Selected(bills, tenant, Some(p))[id := b]
               else Selected(bills, tenant, Some(p))
  {
  }

  /** One more bill adds its amount and its usage to each summary that asks for it, to the paid
      or the pending part by its status, and changes no other summary. */
  lemma OneMoreBill(bills: Bills, id: Uuid, b: Bill, tenant: Uuid, p: Period)
    requires id !in bills
    ensures var before, after := Summary(bills, tenant, p), Summary(bills[id := b], tenant, p);
            if IsAskedFor(tenant, p, b)
            then after == Amounts(
                   before.total + b.totalAmount,
                   before.paid + if b.status == Paid then b.totalAmount else 0.0,
                   before.pending + if b.status == Pending then b.totalAmount else 0.0,
                   Usage(before.usage.cpu + b.usage.cpu, before.usage.memory + b.usage.memory,
                         before.usage.gpu + b.usage.gpu, before.usage.storage + b.usage.storage,
                         before.usage.network + b.usage.network),
                   before.count + 1)
            else after == before
  {
    SelectedAfterWrite(bills, id, b, tenant, p);
    if IsAskedFor(tenant, p, b) {
      var before := Selected(bills, tenant, Some(p));
      SumWithout(before[id := b], id);
      assert before[id := b] - {id} == before;
    }
  }

  /** Cancelling a pending bill takes its amount out of what is pending, and out of nothing
      else: the total keeps it. */
  lemma CancellingKeepsTotal(s: Service, id: Uuid, now: int, tenant: Uuid, p: Period)
    requires id in s.bills && s.bills[id].status == Pending
    ensures var b := s.bills[id];
            var before, after := Summary(s.bills, tenant, p), Summary(Apply(s, CancelBill(id, now)).bills, tenant, p);
            after == before.(pending := before.pending - if IsAskedFor(tenant, p, b) then b.totalAmount else 0.0)
  {
    var b := s.bills[id];
    var b' := b.(status := Cancelled, updatedAt := now);
    var rest := s.bills - {id};
    assert rest[id := b] == s.bills && rest[id := b'] == s.bills[id := b'];
    OneMoreBill(rest, id, b, tenant, p);
    OneMoreBill(rest, id, b', tenant, p);
  }
}
