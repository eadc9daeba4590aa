/** What each purchase request answers, and what its amounts are in the request's own numbers. */
module PurchaseAnswers {
  import opened Wrappers
  import opened Money
  import opened Sums
  import opened Purchases
  import opened PurchaseLaws

  // ---- totals ----

  /** The total is the price of all units, to the nearest paisa, a tie going to the even side. */
  predicate PricesAllUnits(p: Purchase) {
    && -0.5 <= p.total as real - p.unitCost * p.qty as real <= 0.5
    && (p.total as real - p.unitCost * p.qty as real in {0.5, -0.5} ==> p.total % 2 == 0)
  }

  lemma RowPricesAllUnits(p: Purchase)
    requires RowOk(p)
    ensures PricesAllUnits(p)
  {
  }

  lemma WholeProduct(cost: int, qty: int)
    ensures (cost * qty) as real == cost as real * qty as real
  {
  }

  /** Every row of every run is priced so; at a whole-paise unit cost the total is exactly the product. */
  lemma TotalsPriceAllUnits(d: Desk, es: seq<Request>, i: nat, cost: int)
    requires Initial(d) && i < |Run(d, es).purchases|
    ensures var p := Run(d, es).purchases[i];
            PricesAllUnits(p) && (p.unitCost == cost as real ==> p.total == cost * p.qty)
  {
    RunKeepsRowsOk(d, es);
    hide Run;
    var p := Run(d, es).purchases[i];
    RowPricesAllUnits(p);
    hide RowOk, PricesAllUnits;
    if p.unitCost == cost as real {
      WholePrice(p, cost);
    }
  }

  lemma WholePrice(p: Purchase, cost: int)
    requires PricesAllUnits(p) && p.unitCost == cost as real
    ensures p.total == cost * p.qty
  {
    WholeProduct(cost, p.qty);
    var product := cost * p.qty;
    assert -0.5 <= (p.total - product) as real <= 0.5;
  }

  // ---- payables against what the goods cost ----

  /** Unit cost times quantity less what was paid, over the supplier's accepted purchases. */
  function Worth(ps: seq<Purchase>, shop: nat): real {
    if ps == [] then 0.0
    else
      var p := ps[|ps| - 1];
      Worth(ps[..|ps| - 1], shop)
      + if p.supplier == shop && p.Accepted() then p.unitCost * p.qty as real - p.paid as real else 0.0
  }

  function AcceptedOf(shop: nat): Purchase -> int {
    (p: Purchase) => if p.supplier == shop && p.Accepted() then 1 else 0
  }

  lemma {:induction false} OwedNearWorth(ps: seq<Purchase>, shop: nat)
    requires forall i :: 0 <= i < |ps| ==> PricesAllUnits(ps[i])
    ensures var rows := Sum(ps, AcceptedOf(shop)) as real;
            -rows / 2.0 <= Sum(ps, Owed(shop)) as real - Worth(ps, shop) <= rows / 2.0
  {
    if ps != [] {
      OwedNearWorth(ps[..|ps| - 1], shop);
      var p := ps[|ps| - 1];
      assert PricesAllUnits(p);
      OneRowNearWorth(p.total, p.paid, p.unitCost * p.qty as real);
      hide PricesAllUnits;
    }
  }

  lemma OneRowNearWorth(total: int, paid: int, price: real)
    requires -0.5 <= total as real - price <= 0.5
    ensures -0.5 <= (total - paid) as real - (price - paid as real) <= 0.5
  {
  }

  /**
   Over all runs: the payable balance is what the accepted goods cost at their unit costs, less what
   was paid, up to half a paisa for each accepted purchase and one paisa for each overpaid one.
   */
  lemma PayableIsWorth(d: Desk, es: seq<Request>, shop: nat)
    requires Initial(d) && shop in d.shops
    ensures var t := Run(d, es);
            var half := Sum(t.purchases, AcceptedOf(shop)) as real / 2.0;
            && shop in t.shops
            && Worth(t.purchases, shop) - half <= t.shops[shop].payable as real
            && t.shops[shop].payable as real
               <= Worth(t.purchases, shop) + half + Sum(t.purchases, Overpaid(shop)) as real
  {
    PayableSandwich(d, es, shop);
    RunKeepsRowsOk(d, es);
    hide Run;
    var t := Run(d, es);
    forall i | 0 <= i < |t.purchases|
      ensures PricesAllUnits(t.purchases[i])
    {
      RowPricesAllUnits(t.purchases[i]);
    }
    hide RowOk, PricesAllUnits, Worth, Sum;
    OwedNearWorth(t.purchases, shop);
  }

  // ---- answers ----

  /** Exactly which purchases are taken on. */
  lemma CreateAnswer(d: Desk, e: Request)
    requires e.Create?
    ensures var (t, outcome) := Apply(d, e);
            && outcome == (
                 if e.qty <= 0 || e.unitCost < 0.0 then Refused(BadRequest)
                 else if e.supplier !in d.shops then Refused(NotFound)
                 else if !d.shops[e.supplier].wholesaler then Refused(BadRequest)
                 else if e.product !in d.products then Refused(NotFound)
                 else Done)
            && (outcome != Done ==> t == d)
  {
    hide OrderTotal, ReceiveGoods;
  }

  /** ... and the row that a taken one leaves: the request's own numbers, priced for all units. */
  lemma CreatedRow(d: Desk, e: Request)
    requires e.Create? && Apply(d, e).1 == Done
    ensures var t := Apply(d, e).0;
            && |t.purchases| == |d.purchases| + 1
            && var p := t.purchases[|d.purchases|];
               && p.supplier == e.supplier && p.product == e.product && p.qty == e.qty && p.unitCost == e.unitCost
               && PricesAllUnits(p)
  {
    TotalOfNewRow(e.unitCost, e.qty);
    var d1 := Ordered(d, e);
    assert PricesAllUnits(d1.purchases[|d.purchases|]);
    hide OrderTotal, ReceiveGoods, PricesAllUnits, Ordered;
    KeepsPrice(d1, |d.purchases|, e.markPaid);
  }

  lemma KeepsPrice(d: Desk, id: nat, markPaid: bool)
    requires id < |d.purchases| && PricesAllUnits(d.purchases[id])
    requires d.purchases[id].supplier in d.shops && Receive(d, id, markPaid).Some?
    ensures var p, q := d.purchases[id], Receive(d, id, markPaid).value.purchases[id];
            && q.supplier == p.supplier && q.product == p.product && q.qty == p.qty && q.unitCost == p.unitCost
            && PricesAllUnits(q) && |Receive(d, id, markPaid).value.purchases| == |d.purchases|
  {
    hide ReceiveGoods;
  }

  lemma TotalOfNewRow(unitCost: real, qty: int)
    ensures var total := OrderTotal(unitCost, qty);
            && -0.5 <= total as real - unitCost * qty as real <= 0.5
            && (total as real - unitCost * qty as real == 0.5 || total as real - unitCost * qty as real == -0.5
                ==> total % 2 == 0)
  {
  }

  /** Exactly which purchases a supplier can accept: its own, still pending, of a product that is there. */
  lemma AcceptAnswer(d: Desk, id: nat, supplier: nat)
    ensures var (t, outcome) := Apply(d, Accept(id, supplier));
            && outcome == (
                 if id >= |d.purchases| then Refused(NotFound)
                 else if d.purchases[id].supplier != supplier then Refused(Forbidden)
                 else if d.purchases[id].status != Pending then Refused(BadRequest)
                 else if supplier !in d.shops || d.purchases[id].product !in d.products then Refused(NotFound)
                 else Done)
            && (outcome != Done ==> t == d)
            && (outcome == Done ==>
                  && t.purchases[id].status == Received && t.purchases[id].paid == d.purchases[id].paid
                  && t.shops[supplier].payable == d.shops[supplier].payable + d.purchases[id].total)
  {
    hide ReceiveGoods;
  }

  lemma RejectAnswer(d: Desk, id: nat, supplier: nat)
    ensures var (t, outcome) := Apply(d, Reject(id, supplier));
            && outcome == (
                 if id >= |d.purchases| then Refused(NotFound)
                 else if d.purchases[id].supplier != supplier then Refused(Forbidden)
                 else if d.purchases[id].status != Pending then Refused(BadRequest)
                 else Done)
            && (outcome != Done ==> t == d)
            && (outcome == Done ==>
                  t.purchases[id].status == Rejected && t.products == d.products && t.shops == d.shops)
  {
  }

  /** What a payment pays: the whole due when no amount is given, else the amount to the nearest paisa. */
  lemma PaymentAmount(p: Purchase, amount: Option<real>)
    ensures amount.None? ==> Payment(p, amount) == p.total - p.paid
    ensures amount.Some? ==> -0.5 <= Payment(p, amount) as real - amount.value <= 0.5
  {
  }

  /** A payment raises the paid amount and lowers the supplier's payable by the same, at most down to zero. */
  lemma PayAnswer(d: Desk, id: nat, amount: Option<real>, shop: nat)
    requires RowsOk(d) && shop in d.shops
    ensures var (t, outcome) := Apply(d, Pay(id, amount));
            && (outcome == Refused(NotFound) <==> id >= |d.purchases|)
            && (outcome == Done || outcome == Refused(NotFound) || outcome == Refused(BadRequest))
            && (outcome != Done ==> t == d)
            && (outcome == Done ==>
                  var p, pay := d.purchases[id], Payment(d.purchases[id], amount);
                  var left := d.shops[shop].payable - pay;
                  && t.purchases[id].paid == p.paid + pay && t.movements == d.movements && t.products == d.products
                  && shop in t.shops
                  && (shop != p.supplier ==> t.shops[shop] == d.shops[shop])
                  && (shop == p.supplier && left >= 0 ==> t.shops[shop].payable == left)
                  && (shop == p.supplier && left < 0 ==> t.shops[shop].payable == 0))
  {
    hide Payment;
  }

  /** An adjustment sets the stock it is given, with a movement by the difference. */
  lemma UpdateStockAnswer(d: Desk, product: nat, qty: int, reason: string)
    ensures var (t, outcome) := Apply(d, UpdateStock(product, qty, reason));
            && outcome == (if product in d.products then Done else Refused(NotFound))
            && (outcome != Done ==> t == d)
            && (outcome == Done ==>
                  && t.products[product].stock == qty && t.products[product].cost == d.products[product].cost
                  && t.movements == d.movements + [Movement(product, qty - d.products[product].stock, reason, None)])
  {
  }

  /** The three stock flags: none, at most the threshold, and more; an adjustment takes five for the threshold. */
  lemma StockFlags(qty: int, threshold: int)
    ensures StockStatusFor(qty, threshold) == OutOfStock <==> qty <= 0
    ensures qty > 0 ==> (StockStatusFor(qty, threshold) == LowStock <==> qty <= threshold)
    ensures StockStatusFor(qty, threshold) == InStock <==> qty > 0 && qty > threshold
  {
  }

  lemma FlagAfterUpdate(d: Desk, product: nat, qty: int, reason: string)
    requires product in d.products
    ensures var p := Apply(d, UpdateStock(product, qty, reason)).0.products[product];
            (p.status == LowStock <==> 0 < qty <= 5) && (p.status == InStock <==> qty > 5)
  {
  }

  lemma FlagAfterReceipt(p: Product, qty: int, unitCost: real)
    ensures var q := ReceiveGoods(p, qty, unitCost);
            && q.stock == p.stock + qty && q.threshold == p.threshold
            && (q.status == LowStock <==> 0 < q.stock <= p.threshold)
            && (q.status == InStock <==> q.stock > 0 && q.stock > p.threshold)
  {
  }
}
