/**
 Supplier purchases: purchases.py together with update_stock of products.py.
 A purchase row, the supplier's payable balance, warehouse stock with its movements and the
 weighted-average cost change together. Payables are whole paise; unit costs may be finer.
 */
module Purchases {
  import opened Wrappers
  import opened Money

  datatype Status = Pending | Received | Partial | Paid | Rejected

  datatype StockStatus = InStock | LowStock | OutOfStock

  datatype Purchase = Purchase(supplier: nat, product: nat, qty: int, unitCost: real, total: int, status: Status,
                               paid: int) {
    /** The goods are in the warehouse. */
    predicate Accepted() { status.Received? || status.Partial? || status.Paid? }

    function Due(): int { total - paid }
  }

  datatype Product = Product(stock: int, cost: real, status: StockStatus, threshold: int)

  datatype Shop = Shop(payable: int, wholesaler: bool)

  /** `origin` is history: which purchase a movement came from. The code keeps only a text note. */
  datatype Movement = Movement(product: nat, change: int, reason: string, origin: Option<nat>)

  /** A purchase's id is its position; `shops` holds the retailer users that have a profile. */
  datatype Desk = Desk(products: map<nat, Product>, shops: map<nat, Shop>,
                       purchases: seq<Purchase>, movements: seq<Movement>)

  datatype Request =
    | Create(supplier: nat, product: nat, qty: int, unitCost: real, markPaid: bool, instantReceive: bool)
    | Accept(id: nat, supplier: nat)
    | Reject(id: nat, supplier: nat)
    | Pay(id: nat, amount: Option<real>)
    | UpdateStock(product: nat, qty: int, reason: string)
    | SetWholesaler(shop: nat, wholesaler: bool)

  function StockStatusFor(qty: int, threshold: int): StockStatus {
    if qty <= 0 then OutOfStock else if qty <= threshold then LowStock else InStock
  }

  /** Money spent on `oldQty` at `oldCost` and `qty` at `unitCost`, per unit. */
  function Blend(oldQty: int, oldCost: real, qty: int, unitCost: real): real
    requires oldQty + qty > 0
  {
    (oldCost * oldQty as real + unitCost * qty as real) / (oldQty + qty) as real
  }

  /** The new stored cost per unit, in paise. */
  function AverageCost(oldQty: int, oldCost: real, qty: int, unitCost: real): real {
    if oldQty + qty > 0 then RoundHalfEven(Blend(oldQty, oldCost, qty, unitCost)) as real else unitCost
  }

  function ReceiveGoods(p: Product, qty: int, unitCost: real): Product {
    p.(stock := p.stock + qty, cost := AverageCost(p.stock, p.cost, qty, unitCost),
       status := StockStatusFor(p.stock + qty, p.threshold))
  }

  /** _apply_receive, for a purchase and a shop that exist; None when the product is gone. */
  function Receive(d: Desk, id: nat, markPaid: bool): Option<Desk>
    requires id < |d.purchases| && d.purchases[id].supplier in d.shops
  {
    var p := d.purchases[id];
    if p.product !in d.products then None
    else
      var shop := d.shops[p.supplier];
      Some(Desk(
        d.products[p.product := ReceiveGoods(d.products[p.product], p.qty, p.unitCost)],
        if markPaid then d.shops else d.shops[p.supplier := shop.(payable := shop.payable + p.total)],
        d.purchases[id := if markPaid then p.(status := Paid, paid := p.total) else p.(status := Received)],
        d.movements + [Movement(p.product, p.qty, "supplier_purchase", Some(id))]))
  }

  function OrderTotal(unitCost: real, qty: int): (total: int)
    ensures unitCost >= 0.0 && qty >= 0 ==> total >= 0
  {
    RoundHalfEven(unitCost * qty as real)
  }

  /** The new row, still pending. */
  function Ordered(d: Desk, e: Request): Desk
    requires e.Create?
  {
    var total := OrderTotal(e.unitCost, e.qty);
    d.(purchases := d.purchases + [Purchase(e.supplier, e.product, e.qty, e.unitCost, total, Pending, 0)])
  }

  function CreatePurchase(d: Desk, e: Request): (Desk, Outcome)
    requires e.Create?
  {
    if e.qty <= 0 || e.unitCost < 0.0 then (d, Refused(BadRequest))
    else if e.supplier !in d.shops then (d, Refused(NotFound))
    else if !d.shops[e.supplier].wholesaler then (d, Refused(BadRequest))
    else if e.product !in d.products then (d, Refused(NotFound))
    else
      var d1 := Ordered(d, e);
      if e.instantReceive || e.markPaid then
        match Receive(d1, |d.purchases|, e.markPaid)
        case Some(d2) => (d2, Done)
        case None => (d, Refused(NotFound))
      else (d1, Done)
  }

  function AcceptPurchase(d: Desk, id: nat, supplier: nat): (Desk, Outcome) {
    if id >= |d.purchases| then (d, Refused(NotFound))
    else if d.purchases[id].supplier != supplier then (d, Refused(Forbidden))
    else if d.purchases[id].status != Pending then (d, Refused(BadRequest))
    else if supplier !in d.shops then (d, Refused(NotFound))
    else
      match Receive(d, id, false)
      case Some(d') => (d', Done)
      case None => (d, Refused(NotFound))
  }

  function RejectPurchase(d: Desk, id: nat, supplier: nat): (Desk, Outcome) {
    if id >= |d.purchases| then (d, Refused(NotFound))
    else if d.purchases[id].supplier != supplier then (d, Refused(Forbidden))
    else if d.purchases[id].status != Pending then (d, Refused(BadRequest))
    else (d.(purchases := d.purchases[id := d.purchases[id].(status := Rejected)]), Done)
  }

  /** The rounded payment; no amount means all that is due. */
  function Payment(p: Purchase, amount: Option<real>): int {
    if amount.Some? then RoundHalfEven(amount.value) else p.Due()
  }

  function PayPurchase(d: Desk, id: nat, amount: Option<real>): (Desk, Outcome) {
    if id >= |d.purchases| then (d, Refused(NotFound))
    else
      var p := d.purchases[id];
      var pay := Payment(p, amount);
      if !p.status.Received? && !p.status.Partial? then (d, Refused(BadRequest))
      else if p.Due() <= 0 then (d, Refused(BadRequest))
      else if pay <= 0 || pay > p.Due() + 1 then (d, Refused(BadRequest))
      else if p.supplier !in d.shops then (d, Refused(NotFound))
      else
        var paid := p.paid + pay;
        var shop := d.shops[p.supplier];
        var payable := if shop.payable - pay < 0 then 0 else shop.payable - pay;
        (d.(purchases := d.purchases[id := p.(paid := paid, status := if paid >= p.total then Paid else Partial)],
            shops := d.shops[p.supplier := shop.(payable := payable)]), Done)
  }

  function Apply(d: Desk, e: Request): (Desk, Outcome) {
    match e
    case Create(_, _, _, _, _, _) => CreatePurchase(d, e)
    case Accept(id, supplier) => AcceptPurchase(d, id, supplier)
    case Reject(id, supplier) => RejectPurchase(d, id, supplier)
    case Pay(id, amount) => PayPurchase(d, id, amount)
    case UpdateStock(product, qty, reason) =>
      if product !in d.products then (d, Refused(NotFound))
      else
        var p := d.products[product];
        (d.(products := d.products[product := p.(stock := qty, status := StockStatusFor(qty, 5))],
            movements := d.movements + [Movement(product, qty - p.stock, reason, None)]), Done)
    case SetWholesaler(shop, wholesaler) =>
      if shop !in d.shops then (d, Refused(NotFound))
      else (d.(shops := d.shops[shop := d.shops[shop].(wholesaler := wholesaler)]), Done)
  }

  function Run(d: Desk, es: seq<Request>): Desk {
    if es == [] then d else Apply(Run(d, es[..|es| - 1]), es[|es| - 1]).0
  }

  predicate Initial(d: Desk) {
    d.purchases == [] && d.movements == [] && forall s :: s in d.shops ==> d.shops[s].payable == 0
  }

  // ---- the code itself ----

  class PurchaseDesk {
    var products: map<nat, Product>
    var shops: map<nat, Shop>
    var purchases: seq<Purchase>
    var movements: seq<Movement>

    constructor (products: map<nat, Product>, shops: map<nat, Shop>)
      ensures Contents() == Desk(products, shops, [], [])
    {
      this.products, this.shops := products, shops;
      purchases, movements := [], [];
    }

    function Contents(): Desk
      reads this
    {
      Desk(products, shops, purchases, movements)
    }

    method ApplyReceive(id: nat, markPaid: bool) returns (ok: bool)
      requires id < |purchases| && purchases[id].supplier in shops
      modifies this
      ensures ok == Receive(old(Contents()), id, markPaid).Some?
      ensures Contents() == if ok then Receive(old(Contents()), id, markPaid).value else old(Contents())
    {
      var purchase := purchases[id];
      if purchase.product !in products {
        return false;
      }
      var product := products[purchase.product];
      var newQty := product.stock + purchase.qty;
      if newQty > 0 {
        var average := Blend(product.stock, product.cost, purchase.qty, purchase.unitCost);
        product := product.(cost := RoundHalfEven(average) as real);
      } else {
        product := product.(cost := purchase.unitCost);
      }
      product := product.(stock := newQty);
      product := product.(status := StockStatusFor(product.stock, product.threshold));
      assert product == ReceiveGoods(products[purchase.product], purchase.qty, purchase.unitCost);
      products := products[purchase.product := product];
      movements := movements + [Movement(purchase.product, purchase.qty, "supplier_purchase", Some(id))];
      if markPaid {
        purchases := purchases[id := purchase.(paid := purchase.total, status := Paid)];
      } else {
        purchases := purchases[id := purchase.(status := Received)];
        var shop := shops[purchase.supplier];
        shops := shops[purchase.supplier := shop.(payable := shop.payable + purchase.total)];
      }
      ok := true;
    }

    method NewPurchase(supplier: nat, product: nat, qty: int, unitCost: real, markPaid: bool, instantReceive: bool)
      returns (outcome: Outcome)
      modifies this
      ensures (Contents(), outcome) ==
              Apply(old(Contents()), Create(supplier, product, qty, unitCost, markPaid, instantReceive))
      ensures outcome == Done ==>
                && |purchases| == |old(purchases)| + 1
                && -0.5 <= purchases[|purchases| - 1].total as real - unitCost * qty as real <= 0.5
    {
      if qty <= 0 || unitCost < 0.0 {
        return Refused(BadRequest);
      }
      if supplier !in shops {
        return Refused(NotFound);
      }
      if !shops[supplier].wholesaler {
        return Refused(BadRequest);
      }
      if product !in products {
        return Refused(NotFound);
      }
      var total := OrderTotal(unitCost, qty);
      purchases := purchases + [Purchase(supplier, product, qty, unitCost, total, Pending, 0)];
      ghost var d1 := Contents();
      ghost var request := Create(supplier, product, qty, unitCost, markPaid, instantReceive);
      assert d1 == Ordered(old(Contents()), request) && |purchases| - 1 == |old(purchases)|;
      if instantReceive || markPaid {
        var ok := ApplyReceive(|purchases| - 1, markPaid);
        assert ok;
      }
      outcome := Done;
    }

    method AcceptOrder(id: nat, supplier: nat) returns (outcome: Outcome)
      modifies this
      ensures (Contents(), outcome) == Apply(old(Contents()), Accept(id, supplier))
    {
      if id >= |purchases| {
        return Refused(NotFound);
      }
      if purchases[id].supplier != supplier {
        return Refused(Forbidden);
      }
      if purchases[id].status != Pending {
        return Refused(BadRequest);
      }
      if supplier !in shops {
        return Refused(NotFound);
      }
      var ok := ApplyReceive(id, false);
      outcome := if ok then Done else Refused(NotFound);
    }

    method RejectOrder(id: nat, supplier: nat) returns (outcome: Outcome)
      modifies this
      ensures (Contents(), outcome) == Apply(old(Contents()), Reject(id, supplier))
    {
      if id >= |purchases| {
        return Refused(NotFound);
      }
      if purchases[id].supplier != supplier {
        return Refused(Forbidden);
      }
      if purchases[id].status != Pending {
        return Refused(BadRequest);
      }
      purchases := purchases[id := purchases[id].(status := Rejected)];
      outcome := Done;
    }

    method PayOrder(id: nat, amount: Option<real>) returns (outcome: Outcome)
      modifies this
      ensures (Contents(), outcome) == Apply(old(Contents()), Pay(id, amount))
    {
      if id >= |purchases| {
        return Refused(NotFound);
      }
      var purchase := purchases[id];
      if purchase.status != Received && purchase.status != Partial {
        return Refused(BadRequest);
      }
      var due := purchase.total - purchase.paid;
      if due <= 0 {
        return Refused(BadRequest);
      }
      var pay := if amount.Some? then RoundHalfEven(amount.value) else due;
      if pay <= 0 || pay > due + 1 {
        return Refused(BadRequest);
      }
      if purchase.supplier !in shops {
        return Refused(NotFound);
      }
      purchase := purchase.(paid := purchase.paid + pay);
      purchase := purchase.(status := if purchase.paid >= purchase.total then Paid else Partial);
      purchases := purchases[id := purchase];
      var shop := shops[purchase.supplier];
      shops := shops[purchase.supplier := shop.(payable := if shop.payable - pay > 0 then shop.payable - pay else 0)];
      outcome := Done;
    }

    method SetStock(product: nat, qty: int, reason: string) returns (outcome: Outcome)
      modifies this
      ensures (Contents(), outcome) == Apply(old(Contents()), UpdateStock(product, qty, reason))
    {
      if product !in products {
        return Refused(NotFound);
      }
      var delta := qty - products[product].stock;
      products := products[product := products[product].(stock := qty, status := StockStatusFor(qty, 5))];
      movements := movements + [Movement(product, delta, reason, None)];
      outcome := Done;
    }
  }
}
