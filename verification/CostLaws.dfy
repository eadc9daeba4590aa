/** The weighted-average purchase cost: how far rounding lets it drift from the money spent. */
module CostLaws {
  import opened Wrappers
  import opened Money
  import opened Purchases

  /** One receipt is off by at most half a paisa per unit then in stock. */
  lemma ReceiptError(oldQty: int, oldCost: real, qty: int, unitCost: real)
    requires oldQty + qty > 0
    ensures var newQty := (oldQty + qty) as real;
            var spent := oldCost * oldQty as real + unitCost * qty as real;
            -newQty / 2.0 <= AverageCost(oldQty, oldCost, qty, unitCost) * newQty - spent <= newQty / 2.0
  {
    var newQty := (oldQty + qty) as real;
    var spent := oldCost * oldQty as real + unitCost * qty as real;
    var blend := Blend(oldQty, oldCost, qty, unitCost);
    assert blend * newQty == spent;
    ScaledError(RoundHalfEven(blend) as real, blend, newQty, spent);
  }

  lemma ScaledError(r: real, blend: real, q: real, spent: real)
    requires -0.5 <= r - blend <= 0.5 && q > 0.0 && blend * q == spent
    ensures -q / 2.0 <= r * q - spent <= q / 2.0
  {
    MulMonotone(r, blend + 0.5, q);
    MulMonotone(blend - 0.5, r, q);
    Distribute(blend, 0.5, q);
    Distribute(blend, -0.5, q);
  }

  lemma Distribute(a: real, b: real, q: real)
    ensures (a + b) * q == a * q + b * q
  {
  }

  lemma MulMonotone(a: real, b: real, q: real)
    requires a <= b && q >= 0.0
    ensures a * q <= b * q
  {
  }

  /** With stock on hand the new cost lies between any whole-paise bounds of the old one and the price paid. */
  lemma AverageWithin(oldQty: int, oldCost: real, qty: int, unitCost: real, lo: int, hi: int)
    requires oldQty >= 0 && qty > 0
    requires lo as real <= oldCost <= hi as real && lo as real <= unitCost <= hi as real
    ensures lo as real <= AverageCost(oldQty, oldCost, qty, unitCost) <= hi as real
  {
    var spent := oldCost * oldQty as real + unitCost * qty as real;
    SpentBetween(oldQty as real, oldCost, qty as real, unitCost, lo as real, hi as real);
    assert (oldQty + qty) as real == oldQty as real + qty as real;
    DivBetween(spent, (oldQty + qty) as real, lo as real, hi as real);
    hide RoundHalfEven;
    RoundWithin(Blend(oldQty, oldCost, qty, unitCost), lo, hi);
  }

  lemma SpentBetween(oldQty: real, oldCost: real, qty: real, unitCost: real, lo: real, hi: real)
    requires oldQty >= 0.0 && qty > 0.0 && lo <= oldCost <= hi && lo <= unitCost <= hi
    ensures lo * (oldQty + qty) <= oldCost * oldQty + unitCost * qty <= hi * (oldQty + qty)
  {
    BetweenProducts(oldQty, oldCost, qty, unitCost, lo, hi);
  }

  /** A product that proofs can keep folded. */
  function Times(a: real, b: real): real {
    a * b
  }

  lemma TimesMonotone(a: real, b: real, q: real)
    requires a <= b && q >= 0.0
    ensures Times(a, q) <= Times(b, q)
  {
    MulMonotone(a, b, q);
  }

  lemma TimesDistribute(q: real, a: real, b: real)
    ensures Times(q, a + b) == Times(q, a) + Times(q, b)
  {
    DistributeLeft(q, a, b);
  }

  lemma BetweenProducts(oldQty: real, oldCost: real, qty: real, unitCost: real, lo: real, hi: real)
    requires oldQty >= 0.0 && qty > 0.0 && lo <= oldCost <= hi && lo <= unitCost <= hi
    ensures Times(lo, oldQty + qty) <= Times(oldCost, oldQty) + Times(unitCost, qty) <= Times(hi, oldQty + qty)
  {
    hide Times;
    TimesMonotone(lo, oldCost, oldQty);
    TimesMonotone(lo, unitCost, qty);
    TimesMonotone(oldCost, hi, oldQty);
    TimesMonotone(unitCost, hi, qty);
    TimesDistribute(lo, oldQty, qty);
    TimesDistribute(hi, oldQty, qty);
  }

  lemma DistributeLeft(q: real, a: real, b: real)
    ensures q * (a + b) == q * a + q * b
  {
  }

  lemma DivBetween(n: real, q: real, lo: real, hi: real)
    requires q > 0.0 && lo * q <= n <= hi * q
    ensures lo <= n / q <= hi
  {
    var x := n / q;
    assert x * q == n;
    if x < lo {
      MulStrict(x, lo, q);
    } else if hi < x {
      MulStrict(hi, x, q);
    }
  }

  lemma MulStrict(a: real, b: real, q: real)
    requires a < b && q > 0.0
    ensures a * q < b * q
  {
  }

  // ---- negative stock ----

  lemma RoundUpward(u: int, over: real)
    requires over >= 0.0
    ensures RoundHalfEven(u as real + over) >= u
    ensures RoundHalfEven(u as real + over) == u <==> over < 0.5 || (over == 0.5 && u % 2 == 0)
  {
    RoundMonotone(u as real, u as real + over);
    RoundWhole(u);
    if over < 0.5 || (over == 0.5 && u % 2 == 0) {
      RoundUnique(u as real + over, u);
    } else if over == 0.5 {
      RoundUnique(u as real + over, u + 1);
    }
  }

  lemma RoundDownward(u: int, over: real)
    requires over >= 0.0
    ensures RoundHalfEven(u as real - over) <= u
    ensures RoundHalfEven(u as real - over) == u <==> over < 0.5 || (over == 0.5 && u % 2 == 0)
  {
    RoundMonotone(u as real - over, u as real);
    RoundWhole(u);
    if over < 0.5 || (over == 0.5 && u % 2 == 0) {
      RoundUnique(u as real - over, u);
    } else if over == 0.5 {
      RoundUnique(u as real - over, u - 1);
    }
  }

  /** How far the blend overshoots the price paid when the stock is short by `-oldQty`. */
  lemma BlendFromShortage(oldQty: int, oldCost: int, qty: int, unitCost: int)
    requires oldQty < 0 < oldQty + qty
    ensures Blend(oldQty, oldCost as real, qty, unitCost as real) ==
            unitCost as real + ((unitCost - oldCost) * -oldQty) as real / (oldQty + qty) as real
  {
    var q := (oldQty + qty) as real;
    var spent := oldCost as real * oldQty as real + unitCost as real * qty as real;
    var excess := ((unitCost - oldCost) * -oldQty) as real;
    assert oldCost * oldQty + unitCost * qty == unitCost * (oldQty + qty) + (unitCost - oldCost) * -oldQty;
    assert spent == (oldCost * oldQty + unitCost * qty) as real;
    assert spent == unitCost as real * q + excess;
    assert (unitCost as real * q + excess) / q == unitCost as real + excess / q;
  }

  /**
   From negative stock the average can leave the range of its two prices. For whole-paise
   prices it stays inside exactly when the stock was not negative, or stays at zero or below,
   or the overshoot is small enough to be rounded away.
   */
  lemma StaysBetweenPricesIff(oldQty: int, oldCost: int, qty: int, unitCost: int)
    requires qty > 0
    ensures var lo := if oldCost < unitCost then oldCost else unitCost;
            var hi := if oldCost < unitCost then unitCost else oldCost;
            var excess := 2 * (hi - lo) * -oldQty;
            lo as real <= AverageCost(oldQty, oldCost as real, qty, unitCost as real) <= hi as real <==>
              || oldQty >= 0 || oldQty + qty <= 0
              || excess < oldQty + qty || (excess == oldQty + qty && unitCost % 2 == 0)
  {
    var lo := if oldCost < unitCost then oldCost else unitCost;
    var hi := if oldCost < unitCost then unitCost else oldCost;
    if oldQty >= 0 {
      AverageWithin(oldQty, oldCost as real, qty, unitCost as real, lo, hi);
    } else if oldQty + qty > 0 {
      ShortageRange(oldQty, oldCost, qty, unitCost, lo, hi, (hi - lo) * -oldQty);
    }
  }

  lemma ShortageRange(oldQty: int, oldCost: int, qty: int, unitCost: int, lo: int, hi: int, gap: int)
    requires oldQty < 0 < oldQty + qty && gap == (hi - lo) * -oldQty
    requires if oldCost < unitCost then lo == oldCost && hi == unitCost else lo == unitCost && hi == oldCost
    ensures lo as real <= AverageCost(oldQty, oldCost as real, qty, unitCost as real) <= hi as real <==>
            2 * gap < oldQty + qty || (2 * gap == oldQty + qty && unitCost % 2 == 0)
    ensures 2 * gap == 2 * (hi - lo) * -oldQty
  {
    var q := oldQty + qty;
    GapSize(hi - lo, -oldQty, gap);
    AverageFromShortage(oldQty, oldCost, qty, unitCost, gap, gap as real / q as real);
    hide *;
    InRangeIff(AverageCost(oldQty, oldCost as real, qty, unitCost as real), lo, hi, unitCost, q, gap,
               oldCost < unitCost);
  }

  lemma GapSize(width: int, short: int, gap: int)
    requires width >= 0 && short > 0 && gap == width * short
    ensures gap >= 0 && 2 * gap == 2 * width * short
  {
  }

  /** A rounded value that overshoots one end of the range by `gap / q` stays in it just when it is rounded back. */
  lemma InRangeIff(average: real, lo: int, hi: int, unitCost: int, q: int, gap: int, upward: bool)
    requires q > 0 && gap >= 0 && lo <= hi && unitCost == if upward then hi else lo
    requires var over := gap as real / q as real;
             average == RoundHalfEven(if upward then unitCost as real + over else unitCost as real - over) as real
    ensures lo as real <= average <= hi as real <==> 2 * gap < q || (2 * gap == q && unitCost % 2 == 0)
  {
    var over := gap as real / q as real;
    HalfOfQuotient(gap, q);
    hide *;
    if upward {
      RoundUpward(unitCost, over);
    } else {
      RoundDownward(unitCost, over);
    }
  }

  lemma AverageFromShortage(oldQty: int, oldCost: int, qty: int, unitCost: int, gap: int, over: real)
    requires oldQty < 0 < oldQty + qty && over == gap as real / (oldQty + qty) as real
    requires gap == (if oldCost < unitCost then unitCost - oldCost else oldCost - unitCost) * -oldQty
    ensures AverageCost(oldQty, oldCost as real, qty, unitCost as real) ==
            RoundHalfEven(if oldCost < unitCost then unitCost as real + over else unitCost as real - over) as real
  {
    BlendFromShortage(oldQty, oldCost, qty, unitCost);
    hide RoundHalfEven, Blend;
    if oldCost >= unitCost {
      assert (unitCost - oldCost) * -oldQty == -gap;
      NegQuotient(gap as real, (oldQty + qty) as real);
    }
  }

  lemma NegQuotient(n: real, q: real)
    requires q > 0.0
    ensures (-n) / q == -(n / q)
  {
  }

  lemma HalfOfQuotient(n: int, q: int)
    requires n >= 0 && q > 0
    ensures n as real / q as real >= 0.0
    ensures n as real / q as real < 0.5 <==> 2 * n < q
    ensures n as real / q as real == 0.5 <==> 2 * n == q
  {
    var x := n as real / q as real;
    assert x * q as real == n as real;
    if x < 0.5 {
      MulStrict(x, 0.5, q as real);
    } else if x > 0.5 {
      MulStrict(0.5, x, q as real);
    }
  }

  /** For instance: one cake short at 100 paise, two bought at 200: the stored cost becomes 300. */
  lemma ShortageOvershoots()
    ensures AverageCost(-1, 100.0, 2, 200.0) == 300.0
  {
    RoundWhole(300);
  }

  // ---- over a run ----

  /** Stock at the stored cost. */
  function Value(p: Product): real {
    p.cost * p.stock as real
  }

  function Price(qty: int, unitCost: real): real {
    unitCost * qty as real
  }

  /** What an adjustment to `qty` is worth at the stored cost. */
  function Adjustment(p: Product, qty: int): real {
    p.cost * (qty - p.stock) as real
  }

  /** The purchase whose goods a request brings in, if any. */
  function Receipt(d: Desk, e: Request): Option<nat> {
    if Apply(d, e).1 != Done then None
    else if e.Accept? then Some(e.id)
    else if e.Create? && (e.markPaid || e.instantReceive) then Some(|d.purchases|)
    else None
  }

  /** A request brings goods of `product` in. */
  predicate Receives(d: Desk, e: Request, product: nat) {
    var id := Receipt(d, e);
    var ps := Apply(d, e).0.purchases;
    id.Some? && id.value < |ps| && ps[id.value].product == product
  }

  /** Money put into the product: what receipts cost exactly, with adjusted stock valued at the stored cost. */
  function Invested(d: Desk, es: seq<Request>, product: nat): real
    requires product in d.products
  {
    if es == [] then Value(d.products[product])
    else
      var before := Run(d, es[..|es| - 1]);
      var e := es[|es| - 1];
      var money := Invested(d, es[..|es| - 1], product);
      if product in before.products then money + MoneyIn(before, e, product) else money
  }

  /** The running quantities q_1 + ... + q_n after each receipt that leaves stock. */
  function RunningQuantities(d: Desk, es: seq<Request>, product: nat): int {
    if es == [] then 0
    else
      var before := Run(d, es[..|es| - 1]);
      var e := es[|es| - 1];
      RunningQuantities(d, es[..|es| - 1], product) + QuantityAfter(before, e, product)
  }

  predicate NotShortAt(d: Desk, e: Request, product: nat) {
    Receives(d, e, product) && product in d.products ==> d.products[product].stock >= 0
  }

  /** Every receipt of the product found no shortage. */
  ghost predicate NeverShort(d: Desk, es: seq<Request>, product: nat) {
    forall k :: 0 <= k < |es| ==> NotShortAt(Run(d, es[..k]), es[k], product)
  }

  /** The three things a request can do to a product row. */
  lemma ProductStep(d: Desk, e: Request, product: nat)
    requires product in d.products
    requires forall i :: 0 <= i < |d.purchases| ==> d.purchases[i].qty > 0
    ensures var d' := Apply(d, e).0;
            && product in d'.products
            && (forall i :: 0 <= i < |d'.purchases| ==> d'.purchases[i].qty > 0)
            && if Receives(d, e, product) then
                 var p := d'.purchases[Receipt(d, e).value];
                 d'.products[product] == ReceiveGoods(d.products[product], p.qty, p.unitCost)
               else if e.UpdateStock? && e.product == product then
                 d'.products[product].stock == e.qty && d'.products[product].cost == d.products[product].cost
               else d'.products[product] == d.products[product]
  {
  }

  lemma {:induction false} RunKeepsProduct(d: Desk, es: seq<Request>, product: nat)
    requires Initial(d) && product in d.products
    ensures product in Run(d, es).products
    ensures forall i :: 0 <= i < |Run(d, es).purchases| ==> Run(d, es).purchases[i].qty > 0
  {
    if es != [] {
      RunKeepsProduct(d, es[..|es| - 1], product);
      ProductStep(Run(d, es[..|es| - 1]), es[|es| - 1], product);
    }
  }

  lemma NeverShortPrefix(d: Desk, es: seq<Request>, product: nat)
    requires es != [] && NeverShort(d, es, product)
    ensures NeverShort(d, es[..|es| - 1], product) && NotShortAt(Run(d, es[..|es| - 1]), es[|es| - 1], product)
  {
    hide NotShortAt, Run;
    var k := |es| - 1;
    forall i | 0 <= i < k
      ensures NotShortAt(Run(d, es[..k][..i]), es[..k][i], product)
    {
      assert es[..k][..i] == es[..i] && NotShortAt(Run(d, es[..i]), es[i], product);
    }
  }

  lemma ValueAfterReceipt(p: Product, qty: int, unitCost: real)
    requires p.stock + qty > 0
    ensures var q := ReceiveGoods(p, qty, unitCost);
            -(q.stock as real) / 2.0 <= Value(q) - (Value(p) + Price(qty, unitCost)) <= q.stock as real / 2.0
  {
    ReceiptError(p.stock, p.cost, qty, unitCost);
  }

  /** A receipt that leaves no stock sets the cost to its own price, so the shortage is valued anew. */
  lemma ValueAfterEmptyReceipt(p: Product, qty: int, unitCost: real)
    requires p.stock + qty <= 0
    ensures var q := ReceiveGoods(p, qty, unitCost);
            Value(q) == Value(p) + Price(qty, unitCost) + Shift(p, unitCost)
  {
    Distribute(p.stock as real, qty as real, unitCost);
    Distribute(unitCost, -p.cost, p.stock as real);
  }

  lemma ValueAfterAdjustment(p: Product, q: Product)
    requires q.cost == p.cost
    ensures Value(q) == Value(p) + Adjustment(p, q.stock)
  {
    Distribute(p.stock as real, (q.stock - p.stock) as real, p.cost);
  }

  predicate Drift(t: Desk, product: nat, money: real, slack: int) {
    && product in t.products
    && -(slack as real) / 2.0 <= Value(t.products[product]) - money <= slack as real / 2.0
  }

  /** The old stock at the difference of the new price and the old cost. */
  function Shift(p: Product, unitCost: real): real {
    (unitCost - p.cost) * p.stock as real
  }

  /** What one request adds to the money put in. */
  function MoneyIn(d: Desk, e: Request, product: nat): real
    requires product in d.products
  {
    if Receives(d, e, product) then
      var p := Apply(d, e).0.purchases[Receipt(d, e).value];
      Price(p.qty, p.unitCost)
    else if e.UpdateStock? && e.product == product then Adjustment(d.products[product], e.qty)
    else 0.0
  }

  function QuantityAfter(d: Desk, e: Request, product: nat): int {
    var after := Apply(d, e).0;
    if Receives(d, e, product) && product in after.products && after.products[product].stock > 0
    then after.products[product].stock else 0
  }

  /** What one request shifts by receiving goods that leave no stock. */
  function Revaluation(d: Desk, e: Request, product: nat): real
    requires product in d.products
  {
    if Receives(d, e, product) then
      var p := Apply(d, e).0.purchases[Receipt(d, e).value];
      if d.products[product].stock + p.qty > 0 then 0.0 else Shift(d.products[product], p.unitCost)
    else 0.0
  }

  function Revaluations(d: Desk, es: seq<Request>, product: nat): real {
    if es == [] then 0.0
    else
      var before := Run(d, es[..|es| - 1]);
      Revaluations(d, es[..|es| - 1], product)
      + if product in before.products then Revaluation(before, es[|es| - 1], product) else 0.0
  }

  /** The money put in and the revaluations. */
  function Accounted(d: Desk, es: seq<Request>, product: nat): real
    requires product in d.products
  {
    Invested(d, es, product) + Revaluations(d, es, product)
  }

  /** What one request adds to that. */
  function Booked(d: Desk, e: Request, product: nat): real
    requires product in d.products
  {
    MoneyIn(d, e, product) + Revaluation(d, e, product)
  }

  lemma AccountsSnoc(d: Desk, es: seq<Request>, product: nat)
    requires es != [] && product in d.products && product in Run(d, es[..|es| - 1]).products
    ensures var front, e := es[..|es| - 1], es[|es| - 1];
            && Run(d, es) == Apply(Run(d, front), e).0
            && Accounted(d, es, product) == Accounted(d, front, product) + Booked(Run(d, front), e, product)
            && RunningQuantities(d, es, product)
               == RunningQuantities(d, front, product) + QuantityAfter(Run(d, front), e, product)
  {
    hide Apply, MoneyIn, Revaluation, QuantityAfter;
  }

  /**
   Over every run: stored cost times stock differs from the money put in, and the revaluations of
   receipts that left no stock, by at most half a paisa times the sum of the running quantities.
   */
  lemma {:induction false} CostDrift(d: Desk, es: seq<Request>, product: nat)
    requires Initial(d) && product in d.products
    ensures Drift(Run(d, es), product, Accounted(d, es, product), RunningQuantities(d, es, product))
  {
    if es != [] {
      hide *;
      var front, e := es[..|es| - 1], es[|es| - 1];
      CostDrift(d, front, product);
      RunKeepsProduct(d, front, product);
      AccountsSnoc(d, es, product);
      DriftOneRequest(Run(d, front), e, product, Accounted(d, front, product), RunningQuantities(d, front, product));
    }
  }

  lemma DriftOneRequest(d: Desk, e: Request, product: nat, money: real, slack: int)
    requires product in d.products && forall i :: 0 <= i < |d.purchases| ==> d.purchases[i].qty > 0
    requires Drift(d, product, money, slack)
    ensures Drift(Apply(d, e).0, product, money + Booked(d, e, product), slack + QuantityAfter(d, e, product))
  {
    hide Value, Price, Adjustment, AverageCost, Shift;
    ProductStep(d, e, product);
    var row, row' := d.products[product], Apply(d, e).0.products[product];
    if Receives(d, e, product) {
      var p := Apply(d, e).0.purchases[Receipt(d, e).value];
      if row.stock + p.qty > 0 {
        ValueAfterReceipt(row, p.qty, p.unitCost);
      } else {
        ValueAfterEmptyReceipt(row, p.qty, p.unitCost);
      }
    } else if e.UpdateStock? && e.product == product {
      ValueAfterAdjustment(row, row');
    }
  }

  /** Every receipt of the product leaves stock. */
  ghost predicate LeavesStock(d: Desk, es: seq<Request>, product: nat) {
    forall k :: 0 <= k < |es| ==> LeavesStockAt(Run(d, es[..k]), es[k], product)
  }

  predicate LeavesStockAt(d: Desk, e: Request, product: nat) {
    var after := Apply(d, e).0;
    Receives(d, e, product) && product in after.products ==> after.products[product].stock > 0
  }

  lemma StockLeftIsNotRevalued(d: Desk, e: Request, product: nat)
    requires product in d.products && LeavesStockAt(d, e, product)
    requires forall i :: 0 <= i < |d.purchases| ==> d.purchases[i].qty > 0
    ensures Revaluation(d, e, product) == 0.0
  {
    ProductStep(d, e, product);
    hide Apply, AverageCost, Shift, Receives;
  }

  lemma LeavesStockPrefix(d: Desk, es: seq<Request>, product: nat)
    requires es != [] && LeavesStock(d, es, product)
    ensures LeavesStock(d, es[..|es| - 1], product) && LeavesStockAt(Run(d, es[..|es| - 1]), es[|es| - 1], product)
  {
    hide LeavesStockAt, Run;
    var k := |es| - 1;
    forall i | 0 <= i < k
      ensures LeavesStockAt(Run(d, es[..k][..i]), es[..k][i], product)
    {
      assert es[..k][..i] == es[..i] && LeavesStockAt(Run(d, es[..i]), es[i], product);
    }
  }

  lemma {:induction false} NothingRevalued(d: Desk, es: seq<Request>, product: nat)
    requires Initial(d) && product in d.products && LeavesStock(d, es, product)
    ensures Revaluations(d, es, product) == 0.0
  {
    hide Run, LeavesStock, LeavesStockAt, Revaluation, Initial;
    if es != [] {
      var k := |es| - 1;
      LeavesStockPrefix(d, es, product);
      NothingRevalued(d, es[..k], product);
      RunKeepsProduct(d, es[..k], product);
      StockLeftIsNotRevalued(Run(d, es[..k]), es[k], product);
    }
  }

  /**
   Over any run whose receipts each leave stock, onto shortages too: stored cost times stock
   differs from the money put in by at most half a paisa times the sum of the running quantities.
   */
  lemma CostDriftBound(d: Desk, es: seq<Request>, product: nat)
    requires Initial(d) && product in d.products && LeavesStock(d, es, product)
    ensures Drift(Run(d, es), product, Invested(d, es, product), RunningQuantities(d, es, product))
  {
    hide Run, Drift, RunningQuantities;
    CostDrift(d, es, product);
    NothingRevalued(d, es, product);
  }

  predicate CostWithinAt(d: Desk, e: Request, product: nat, lo: int, hi: int) {
    Receives(d, e, product) ==>
      lo as real <= Apply(d, e).0.purchases[Receipt(d, e).value].unitCost <= hi as real
  }

  /** Every received unit cost of the product lies in the range. */
  ghost predicate CostsWithin(d: Desk, es: seq<Request>, product: nat, lo: int, hi: int) {
    forall k :: 0 <= k < |es| ==> CostWithinAt(Run(d, es[..k]), es[k], product, lo, hi)
  }

  lemma CostsWithinPrefix(d: Desk, es: seq<Request>, product: nat, lo: int, hi: int)
    requires es != [] && CostsWithin(d, es, product, lo, hi)
    ensures CostsWithin(d, es[..|es| - 1], product, lo, hi)
    ensures CostWithinAt(Run(d, es[..|es| - 1]), es[|es| - 1], product, lo, hi)
  {
    hide CostWithinAt, Run;
    var k := |es| - 1;
    forall i | 0 <= i < k
      ensures CostWithinAt(Run(d, es[..k][..i]), es[..k][i], product, lo, hi)
    {
      assert es[..k][..i] == es[..i] && CostWithinAt(Run(d, es[..i]), es[i], product, lo, hi);
    }
  }

  /**
   In any run without receipts onto a shortage the stored cost never leaves whole-paise bounds of
   the starting cost and the prices paid.
   */
  lemma {:induction false} CostStaysWithin(d: Desk, es: seq<Request>, product: nat, lo: int, hi: int)
    requires Initial(d) && product in d.products && NeverShort(d, es, product) && CostsWithin(d, es, product, lo, hi)
    requires lo as real <= d.products[product].cost <= hi as real
    ensures var t := Run(d, es);
            product in t.products && lo as real <= t.products[product].cost <= hi as real
  {
    if es != [] {
      var before := Run(d, es[..|es| - 1]);
      var e := es[|es| - 1];
      NeverShortPrefix(d, es, product);
      CostsWithinPrefix(d, es, product, lo, hi);
      CostStaysWithin(d, es[..|es| - 1], product, lo, hi);
      RunKeepsProduct(d, es[..|es| - 1], product);
      ProductStep(before, e, product);
      if Receives(before, e, product) {
        var p := Apply(before, e).0.purchases[Receipt(before, e).value];
        var row := before.products[product];
        AverageWithin(row.stock, row.cost, p.qty, p.unitCost, lo, hi);
      }
    }
  }
}
