/** What every run of the purchase desk keeps: payables, lifecycle, stock movements. */
module PurchaseLaws {
  import opened Wrappers
  import opened Sums
  import opened Purchases

  // ---- rows ----

  /** The shape of a row in each status. */
  predicate RowOk(p: Purchase) {
    && p.qty > 0 && p.unitCost >= 0.0 && p.total == OrderTotal(p.unitCost, p.qty) && p.total >= 0
    && match p.status
       case Pending => p.paid == 0
       case Rejected => p.paid == 0
       case Received => p.paid == 0
       case Partial => 0 < p.paid < p.total
       case Paid => p.total <= p.paid <= p.total + 1
  }

  predicate RowsOk(d: Desk) {
    forall i :: 0 <= i < |d.purchases| ==> RowOk(d.purchases[i]) && d.purchases[i].supplier in d.shops
  }

  /** The moves a status may make in one request. */
  predicate Follows(a: Status, b: Status) {
    || a == b
    || (a.Pending? && (b.Received? || b.Rejected?))
    || (a.Received? && (b.Partial? || b.Paid?))
    || (a.Partial? && b.Paid?)
  }

  /**
   One request: a row never leaves, keeps who, what and how much, moves only along the
   lifecycle, and what is paid only grows.
   */
  lemma StepFollowsLifecycle(d: Desk, e: Request, i: nat)
    requires RowsOk(d) && i < |d.purchases|
    ensures var d' := Apply(d, e).0;
            && |d.purchases| <= |d'.purchases|
            && var p, q := d.purchases[i], d'.purchases[i];
               && q.supplier == p.supplier && q.product == p.product && q.qty == p.qty
               && q.unitCost == p.unitCost && q.total == p.total
               && Follows(p.status, q.status) && p.paid <= q.paid
  {
  }

  lemma ReceiveKeepsRowsOk(d: Desk, id: nat, markPaid: bool)
    requires RowsOk(d) && id < |d.purchases| && d.purchases[id].status.Pending? && Receive(d, id, markPaid).Some?
    ensures var d' := Receive(d, id, markPaid).value;
            RowsOk(d') && d'.shops.Keys == d.shops.Keys
  {
    hide OrderTotal, ReceiveGoods;
  }

  lemma CreateKeepsRowsOk(d: Desk, e: Request)
    requires RowsOk(d) && e.Create?
    ensures RowsOk(CreatePurchase(d, e).0) && CreatePurchase(d, e).0.shops.Keys == d.shops.Keys
  {
    if CreatePurchase(d, e).1 == Done {
      var d1 := Ordered(d, e);
      assert RowsOk(d1);
      if e.instantReceive || e.markPaid {
        ReceiveKeepsRowsOk(d1, |d.purchases|, e.markPaid);
      }
      hide RowsOk, Receive, Ordered;
    }
  }

  lemma PayKeepsRowsOk(d: Desk, id: nat, amount: Option<real>)
    requires RowsOk(d)
    ensures RowsOk(PayPurchase(d, id, amount).0) && PayPurchase(d, id, amount).0.shops.Keys == d.shops.Keys
  {
    hide OrderTotal, Payment;
  }

  lemma StepKeepsRowsOk(d: Desk, e: Request)
    requires RowsOk(d)
    ensures RowsOk(Apply(d, e).0) && Apply(d, e).0.shops.Keys == d.shops.Keys
  {
    hide OrderTotal, CreatePurchase, PayPurchase, Receive;
    match e
    case Create(_, _, _, _, _, _) => CreateKeepsRowsOk(d, e);
    case Accept(id, supplier) =>
      if AcceptPurchase(d, id, supplier).1 == Done {
        ReceiveKeepsRowsOk(d, id, false);
      }
    case Pay(id, amount) => PayKeepsRowsOk(d, id, amount);
    case _ =>
  }

  /** A new row starts pending, received or paid. */
  lemma NewRowStatus(d: Desk, e: Request)
    requires |Apply(d, e).0.purchases| > |d.purchases|
    ensures var d' := Apply(d, e).0;
            && |d'.purchases| == |d.purchases| + 1
            && var p := d'.purchases[|d.purchases|];
               e.Create? && (p.status == if e.markPaid then Paid else if e.instantReceive then Received else Pending)
               && p.paid == (if e.markPaid then p.total else 0)
  {
  }

  lemma {:induction false} RunKeepsRowsOk(d: Desk, es: seq<Request>)
    requires Initial(d)
    ensures RowsOk(Run(d, es)) && Run(d, es).shops.Keys == d.shops.Keys
  {
    if es != [] {
      RunKeepsRowsOk(d, es[..|es| - 1]);
      StepKeepsRowsOk(Run(d, es[..|es| - 1]), es[|es| - 1]);
    }
  }

  /** What a run may make of a status. */
  predicate Leads(a: Status, b: Status) {
    Follows(a, b) || a.Pending?
  }

  /** Between any two moments of a run a row moves forward only, and its payments only grow. */
  lemma {:induction false} RunFollowsLifecycle(d: Desk, es: seq<Request>, k: nat, i: nat)
    requires Initial(d) && k <= |es| && i < |Run(d, es[..k]).purchases|
    ensures i < |Run(d, es).purchases|
    ensures var p, q := Run(d, es[..k]).purchases[i], Run(d, es).purchases[i];
            Leads(p.status, q.status) && p.paid <= q.paid && q.total == p.total && q.supplier == p.supplier
  {
    if k == |es| {
      assert es[..k] == es;
    } else {
      var before := es[..|es| - 1];
      assert before[..k] == es[..k];
      RunFollowsLifecycle(d, before, k, i);
      RunKeepsRowsOk(d, before);
      StepFollowsLifecycle(Run(d, before), es[|es| - 1], i);
    }
  }

  /** The request that created row `i`. */
  predicate Bears(d: Desk, e: Request, i: nat) {
    |d.purchases| == i < |Apply(d, e).0.purchases|
  }

  /**
   Every row of a run was created by one of its requests: paid in full, received or pending as that
   asked, and its status has moved from there along the lifecycle only.
   */
  lemma {:induction false} RowsAreBorn(d: Desk, es: seq<Request>, i: nat) returns (k: nat)
    requires Initial(d) && i < |Run(d, es).purchases|
    ensures k < |es| && Bears(Run(d, es[..k]), es[k], i) && es[k].Create?
    ensures var born, now := Apply(Run(d, es[..k]), es[k]).0.purchases[i], Run(d, es).purchases[i];
            && born.status == (if es[k].markPaid then Paid else if es[k].instantReceive then Received else Pending)
            && born.paid == (if es[k].markPaid then born.total else 0)
            && Leads(born.status, now.status) && born.paid <= now.paid && born.total == now.total
  {
    var n := |es| - 1;
    var before := Run(d, es[..n]);
    if i < |before.purchases| {
      k := RowsAreBorn(d, es[..n], i);
      assert es[..n][..k] == es[..k];
      RunKeepsRowsOk(d, es[..n]);
      StepFollowsLifecycle(before, es[n], i);
    } else {
      k := n;
      NewRowStatus(before, es[n]);
    }
    hide Apply, Run;
  }

  /** In every reachable state the paid amount fits the status, and is at most a paisa too much. */
  lemma PaidBounds(d: Desk, es: seq<Request>, i: nat)
    requires Initial(d) && i < |Run(d, es).purchases|
    ensures var p := Run(d, es).purchases[i];
            && 0 <= p.paid <= p.total + 1
            && (p.status.Partial? <==> 0 < p.paid < p.total)
            && (p.status.Paid? ==> p.paid >= p.total)
            && (p.paid > 0 && p.paid >= p.total ==> p.status.Paid?)
  {
    RunKeepsRowsOk(d, es);
  }

  /**
   A payment goes through exactly on a received or partly paid row with something due, for a
   rounded amount between one paisa and the due plus one. It strictly lowers what is due, and
   the row is paid just when nothing is left.
   */
  lemma PaymentLowersDue(d: Desk, id: nat, amount: Option<real>)
    requires RowsOk(d) && id < |d.purchases|
    ensures var p := d.purchases[id];
            var (d', outcome) := PayPurchase(d, id, amount);
            && (outcome == Done <==>
                  (p.status.Received? || p.status.Partial?) && p.Due() > 0 && 0 < Payment(p, amount) <= p.Due() + 1)
            && (outcome == Done ==>
                  var q := d'.purchases[id];
                  && q.Due() == p.Due() - Payment(p, amount) < p.Due()
                  && (q.status.Paid? <==> q.Due() <= 0) && (q.status.Partial? <==> q.Due() > 0)
                  && (amount.None? ==> q.status.Paid? && q.Due() == 0))
            && (outcome != Done ==> d' == d)
  {
  }

  // ---- payables ----

  function Owed(shop: nat): Purchase -> int {
    (p: Purchase) => if p.supplier == shop && p.Accepted() then p.Due() else 0
  }

  function OwedIfPositive(shop: nat): Purchase -> int {
    (p: Purchase) => if p.supplier == shop && p.Accepted() && p.Due() > 0 then p.Due() else 0
  }

  function Overpaid(shop: nat): Purchase -> int {
    (p: Purchase) => if p.supplier == shop && p.Accepted() && p.Due() < 0 then 1 else 0
  }

  ghost predicate Sandwich(d: Desk, shop: nat) {
    shop in d.shops ==>
      Sum(d.purchases, Owed(shop)) <= d.shops[shop].payable <= Sum(d.purchases, OwedIfPositive(shop))
  }

  lemma SumsAfterUpdate(ps: seq<Purchase>, id: nat, p: Purchase, shop: nat)
    requires id < |ps|
    ensures Sum(ps[id := p], Owed(shop)) == Sum(ps, Owed(shop)) - Owed(shop)(ps[id]) + Owed(shop)(p)
    ensures Sum(ps[id := p], OwedIfPositive(shop)) ==
            Sum(ps, OwedIfPositive(shop)) - OwedIfPositive(shop)(ps[id]) + OwedIfPositive(shop)(p)
  {
    SumUpdate(ps, id, p, Owed(shop));
    SumUpdate(ps, id, p, OwedIfPositive(shop));
  }

  lemma ReceiveKeepsSandwich(d: Desk, id: nat, markPaid: bool, shop: nat)
    requires id < |d.purchases| && d.purchases[id].supplier in d.shops && RowOk(d.purchases[id])
    requires d.purchases[id].status.Pending? && Sandwich(d, shop)
    requires Receive(d, id, markPaid).Some?
    ensures Sandwich(Receive(d, id, markPaid).value, shop)
  {
    var d' := Receive(d, id, markPaid).value;
    SumsAfterUpdate(d.purchases, id, d'.purchases[id], shop);
    assert d'.purchases == d.purchases[id := d'.purchases[id]];
  }

  lemma CreateKeepsSandwich(d: Desk, e: Request, shop: nat)
    requires RowsOk(d) && Sandwich(d, shop) && e.Create?
    ensures Sandwich(CreatePurchase(d, e).0, shop)
  {
    if CreatePurchase(d, e).1 == Done {
      var d1 := Ordered(d, e);
      var row := d1.purchases[|d.purchases|];
      SumSnoc(d.purchases, row, Owed(shop));
      SumSnoc(d.purchases, row, OwedIfPositive(shop));
      if e.instantReceive || e.markPaid {
        ReceiveKeepsSandwich(d1, |d.purchases|, e.markPaid, shop);
      }
    }
  }

  lemma {:induction false} PositiveSumNonNegative(ps: seq<Purchase>, shop: nat)
    ensures Sum(ps, OwedIfPositive(shop)) >= 0
  {
    if ps != [] {
      PositiveSumNonNegative(ps[..|ps| - 1], shop);
    }
  }

  lemma PayKeepsSandwich(d: Desk, id: nat, amount: Option<real>, shop: nat)
    requires RowsOk(d) && Sandwich(d, shop)
    ensures Sandwich(PayPurchase(d, id, amount).0, shop)
  {
    var d' := PayPurchase(d, id, amount).0;
    if PayPurchase(d, id, amount).1 == Done {
      SumsAfterUpdate(d.purchases, id, d'.purchases[id], shop);
      assert d'.purchases == d.purchases[id := d'.purchases[id]];
      PositiveSumNonNegative(d'.purchases, shop);
    }
  }

  lemma StepKeepsSandwich(d: Desk, e: Request, shop: nat)
    requires RowsOk(d) && Sandwich(d, shop)
    ensures Sandwich(Apply(d, e).0, shop)
  {
    hide Receive, CreatePurchase, PayPurchase, Sum, OrderTotal;
    match e
    case Create(_, _, _, _, _, _) => CreateKeepsSandwich(d, e, shop);
    case Accept(id, supplier) =>
      if AcceptPurchase(d, id, supplier).1 == Done {
        ReceiveKeepsSandwich(d, id, false, shop);
      }
    case Reject(id, supplier) =>
      if RejectPurchase(d, id, supplier).1 == Done {
        SumsAfterUpdate(d.purchases, id, d.purchases[id].(status := Rejected), shop);
      }
    case Pay(id, amount) => PayKeepsSandwich(d, id, amount, shop);
    case _ =>
  }

  lemma {:induction false} RunKeepsSandwich(d: Desk, es: seq<Request>, shop: nat)
    requires Initial(d)
    ensures Sandwich(Run(d, es), shop)
  {
    if es != [] {
      RunKeepsSandwich(d, es[..|es| - 1], shop);
      RunKeepsRowsOk(d, es[..|es| - 1]);
      StepKeepsSandwich(Run(d, es[..|es| - 1]), es[|es| - 1], shop);
    }
  }

  /**
   Over all runs: a supplier's payable balance lies between what is owed on its accepted
   purchases with overpayments counted against it and without. The two differ by exactly one
   paisa per overpaid purchase, so the balance is exact when nobody overpaid.
   */
  lemma PayableSandwich(d: Desk, es: seq<Request>, shop: nat)
    requires Initial(d) && shop in d.shops
    ensures var t := Run(d, es);
            && shop in t.shops
            && Sum(t.purchases, Owed(shop)) <= t.shops[shop].payable <= Sum(t.purchases, OwedIfPositive(shop))
            && Sum(t.purchases, OwedIfPositive(shop)) - Sum(t.purchases, Owed(shop)) == Sum(t.purchases, Overpaid(shop))
  {
    RunKeepsSandwich(d, es, shop);
    RunKeepsRowsOk(d, es);
    SumSplit(Run(d, es).purchases, Owed(shop), Overpaid(shop), OwedIfPositive(shop));
  }

  // ---- stock movements ----

  function ChangeOf(product: nat): Movement -> int {
    (m: Movement) => if m.product == product then m.change else 0
  }

  function From(id: nat): Movement -> int {
    (m: Movement) => if m.origin == Some(id) then 1 else 0
  }

  /** Stock is where it started plus the movements. */
  ghost predicate StockOk(d: Desk, product: nat, start: int) {
    && product in d.products
    && d.products[product].stock == start + Sum(d.movements, ChangeOf(product))
  }

  lemma MoveKeepsStock(d: Desk, d': Desk, m: Movement, product: nat, start: int)
    requires StockOk(d, product, start) && d'.movements == d.movements + [m] && product in d'.products
    requires d'.products[product].stock == d.products[product].stock + ChangeOf(product)(m)
    ensures StockOk(d', product, start)
  {
    SumSnoc(d.movements, m, ChangeOf(product));
  }

  lemma ReceiveKeepsStock(d: Desk, id: nat, markPaid: bool, product: nat, start: int)
    requires StockOk(d, product, start) && id < |d.purchases| && d.purchases[id].supplier in d.shops
    requires Receive(d, id, markPaid).Some?
    ensures StockOk(Receive(d, id, markPaid).value, product, start)
  {
    var p := d.purchases[id];
    hide Sum, AverageCost;
    MoveKeepsStock(d, Receive(d, id, markPaid).value,
                   Movement(p.product, p.qty, "supplier_purchase", Some(id)), product, start);
  }

  lemma StepKeepsStock(d: Desk, e: Request, product: nat, start: int)
    requires RowsOk(d) && StockOk(d, product, start)
    ensures StockOk(Apply(d, e).0, product, start)
  {
    hide Receive, OrderTotal, PayPurchase, Sum, RowOk;
    match e
    case Create(_, _, _, _, _, _) =>
      if CreatePurchase(d, e).1 == Done && (e.instantReceive || e.markPaid) {
        ReceiveKeepsStock(Ordered(d, e), |d.purchases|, e.markPaid, product, start);
      }
    case Accept(id, supplier) =>
      if AcceptPurchase(d, id, supplier).1 == Done {
        ReceiveKeepsStock(d, id, false, product, start);
      }
    case Pay(id, amount) => PayLeavesStock(d, id, amount);
    case UpdateStock(p, qty, reason) =>
      if p in d.products {
        MoveKeepsStock(d, Apply(d, e).0, Movement(p, qty - d.products[p].stock, reason, None), product, start);
      }
    case _ =>
  }

  lemma PayLeavesStock(d: Desk, id: nat, amount: Option<real>)
    ensures PayPurchase(d, id, amount).0.products == d.products && PayPurchase(d, id, amount).0.movements == d.movements
  {
  }

  lemma {:induction false} StockIsStartPlusMovements(d: Desk, es: seq<Request>, product: nat)
    requires Initial(d) && product in d.products
    ensures StockOk(Run(d, es), product, d.products[product].stock)
  {
    if es != [] {
      StockIsStartPlusMovements(d, es[..|es| - 1], product);
      RunKeepsRowsOk(d, es[..|es| - 1]);
      StepKeepsStock(Run(d, es[..|es| - 1]), es[|es| - 1], product, d.products[product].stock);
    }
  }

  /** A request that writes a product's stock leaves its flag at out of stock just when there is none. */
  lemma StockStatusAfterWrite(d: Desk, e: Request, product: nat)
    requires product in d.products && product in Apply(d, e).0.products
    requires Apply(d, e).0.products[product] != d.products[product]
             || (d.products[product].status.OutOfStock? <==> d.products[product].stock <= 0)
    ensures var p := Apply(d, e).0.products[product];
            p.status.OutOfStock? <==> p.stock <= 0
  {
  }

  /** The movements that came from purchase `id`: exactly one, with its product and quantity, once the goods are in. */
  ghost predicate MovementsOk(d: Desk) {
    && (forall id: nat :: Sum(d.movements, From(id)) ==
          if id < |d.purchases| && d.purchases[id].Accepted() then 1 else 0)
    && (forall k :: 0 <= k < |d.movements| && d.movements[k].origin.Some? ==>
          var m := d.movements[k];
          m.origin.value < |d.purchases| && m.reason == "supplier_purchase"
          && m.product == d.purchases[m.origin.value].product && m.change == d.purchases[m.origin.value].qty)
  }

  lemma MoveKeepsMovementsOk(d: Desk, d': Desk, m: Movement)
    requires MovementsOk(d) && d'.movements == d.movements + [m] && |d.purchases| <= |d'.purchases|
    requires forall i :: 0 <= i < |d.purchases| ==>
               d'.purchases[i].product == d.purchases[i].product && d'.purchases[i].qty == d.purchases[i].qty
    requires forall id: nat :: id < |d'.purchases| && m.origin != Some(id) ==>
               (d'.purchases[id].Accepted() <==> id < |d.purchases| && d.purchases[id].Accepted())
    requires m.origin.Some? ==>
               && m.origin.value < |d'.purchases| && d'.purchases[m.origin.value].Accepted()
               && !(m.origin.value < |d.purchases| && d.purchases[m.origin.value].Accepted())
               && m == Movement(d'.purchases[m.origin.value].product, d'.purchases[m.origin.value].qty,
                                "supplier_purchase", m.origin)
    ensures MovementsOk(d')
  {
    forall id: nat
      ensures Sum(d'.movements, From(id)) == if id < |d'.purchases| && d'.purchases[id].Accepted() then 1 else 0
    {
      SumSnoc(d.movements, m, From(id));
    }
  }

  /** A row that keeps its goods and its acceptance, or is new and not accepted, moves nothing. */
  lemma RowsKeepMovementsOk(d: Desk, d': Desk)
    requires MovementsOk(d) && d'.movements == d.movements && |d.purchases| <= |d'.purchases|
    requires forall i :: 0 <= i < |d.purchases| ==>
               && d'.purchases[i].product == d.purchases[i].product && d'.purchases[i].qty == d.purchases[i].qty
               && (d'.purchases[i].Accepted() <==> d.purchases[i].Accepted())
    requires forall i :: |d.purchases| <= i < |d'.purchases| ==> !d'.purchases[i].Accepted()
    ensures MovementsOk(d')
  {
    hide Sum;
  }

  lemma ReceiveKeepsMovements(d: Desk, id: nat, markPaid: bool)
    requires MovementsOk(d) && id < |d.purchases| && d.purchases[id].supplier in d.shops
    requires d.purchases[id].status.Pending? && Receive(d, id, markPaid).Some?
    ensures MovementsOk(Receive(d, id, markPaid).value)
  {
    var p := d.purchases[id];
    hide MovementsOk, ReceiveGoods;
    MoveKeepsMovementsOk(d, Receive(d, id, markPaid).value, Movement(p.product, p.qty, "supplier_purchase", Some(id)));
  }

  lemma CreateKeepsMovements(d: Desk, e: Request)
    requires MovementsOk(d) && e.Create?
    ensures MovementsOk(CreatePurchase(d, e).0)
  {
    hide MovementsOk, Receive, OrderTotal;
    if CreatePurchase(d, e).1 == Done {
      var d1 := Ordered(d, e);
      RowsKeepMovementsOk(d, d1);
      if e.instantReceive || e.markPaid {
        ReceiveKeepsMovements(d1, |d.purchases|, e.markPaid);
      }
    }
  }

  lemma PayKeepsMovements(d: Desk, id: nat, amount: Option<real>)
    requires MovementsOk(d)
    ensures MovementsOk(PayPurchase(d, id, amount).0)
  {
    hide MovementsOk, Payment;
    if PayPurchase(d, id, amount).1 == Done {
      RowsKeepMovementsOk(d, PayPurchase(d, id, amount).0);
    }
  }

  lemma StepKeepsMovements(d: Desk, e: Request)
    requires MovementsOk(d)
    ensures MovementsOk(Apply(d, e).0)
  {
    hide MovementsOk, Receive, CreatePurchase, PayPurchase;
    match e
    case Create(_, _, _, _, _, _) => CreateKeepsMovements(d, e);
    case Accept(id, supplier) =>
      if AcceptPurchase(d, id, supplier).1 == Done {
        ReceiveKeepsMovements(d, id, false);
      }
    case Reject(id, supplier) => RowsKeepMovementsOk(d, Apply(d, e).0);
    case Pay(id, amount) => PayKeepsMovements(d, id, amount);
    case UpdateStock(product, qty, reason) =>
      if product in d.products {
        MoveKeepsMovementsOk(d, Apply(d, e).0, Movement(product, qty - d.products[product].stock, reason, None));
      }
    case SetWholesaler(shop, wholesaler) => RowsKeepMovementsOk(d, Apply(d, e).0);
  }

  /** Over all runs: one stock movement per purchase once it is received or paid, none while pending or rejected. */
  lemma {:induction false} OneMovementPerAcceptedPurchase(d: Desk, es: seq<Request>)
    requires Initial(d)
    ensures MovementsOk(Run(d, es))
  {
    if es == [] {
      forall id: nat
        ensures Sum(d.movements, From(id)) == 0
      {
      }
    } else {
      OneMovementPerAcceptedPurchase(d, es[..|es| - 1]);
      StepKeepsMovements(Run(d, es[..|es| - 1]), es[|es| - 1]);
    }
  }
}
