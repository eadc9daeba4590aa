/**
 Retailer bulk orders: create_bulk_order of retailer_bff.py. The order and its payment are
 committed first; in credit mode the ledger is debited in a second step, which could refuse.
 */
module BulkOrder {
  import opened Wrappers
  import opened Money
  import opened Credit

  /** Prices in whole paise. */
  datatype Product = Product(active: bool, minOrderQty: int, shopPrice: Option<int>, customerPrice: Option<int>,
                             sellingPrice: int)

  datatype Line = Line(product: nat, qty: int)

  datatype Item = Item(product: nat, qty: int, unitPrice: int, totalPrice: int)

  datatype PayMode = CreditMode | Upi | Razorpay | CashOnDelivery

  datatype Order = Order(shop: nat, mode: PayMode, subtotal: int, gst: int, finalAmount: int, items: seq<Item>)

  datatype Payment = Payment(order: nat, amount: int, mode: PayMode)

  /** An order's id is its position. */
  datatype Shopfront = Shopfront(book: Book, approval: map<nat, string>, products: map<nat, Product>,
                                 razorpayConfigured: bool, orders: seq<Order>, payments: seq<Payment>)

  function ShopUnitPrice(p: Product): int {
    if p.shopPrice.Some? then p.shopPrice.value
    else if p.customerPrice.Some? then p.customerPrice.value
    else p.sellingPrice
  }

  /** `product.min_order_qty or 1`. */
  function MinQty(p: Product): int {
    if p.minOrderQty == 0 then 1 else p.minOrderQty
  }

  datatype Cart = Cart(items: seq<Item>, subtotal: int) | Bad(error: Error)

  /** The first line that fails decides the error. */
  function Build(products: map<nat, Product>, lines: seq<Line>): Cart {
    if lines == [] then Cart([], 0)
    else
      var before := Build(products, lines[..|lines| - 1]);
      var line := lines[|lines| - 1];
      if before.Bad? then before
      else if line.product !in products || !products[line.product].active then Bad(NotFound)
      else if line.qty < MinQty(products[line.product]) then Bad(BadRequest)
      else
        var unit := ShopUnitPrice(products[line.product]);
        Cart(before.items + [Item(line.product, line.qty, unit, unit * line.qty)], before.subtotal + unit * line.qty)
  }

  function Gst(subtotal: int): int {
    RoundHalfEven(subtotal as real * 0.05)
  }

  /** Every check made before anything is committed. */
  function PreCheck(s: Shopfront, shop: nat, lines: seq<Line>, mode: PayMode): Outcome {
    if lines == [] then Refused(BadRequest)
    else if shop !in s.book.profiles then Refused(BadRequest)
    else if shop in s.approval && s.approval[shop] != "" && s.approval[shop] != "approved" then Refused(Forbidden)
    else if s.book.profiles[shop].blocked then Refused(Forbidden)
    else
      var cart := Build(s.products, lines);
      if cart.Bad? then Refused(cart.error)
      else
        var p := s.book.profiles[shop];
        var total := cart.subtotal + Gst(cart.subtotal);
        if mode == CreditMode && (!p.allowed || p.outstanding + total > p.creditLimit) then Refused(BadRequest)
        else if mode == Razorpay && !s.razorpayConfigured then Refused(Unavailable)
        else Done
  }

  function NewOrder(s: Shopfront, shop: nat, lines: seq<Line>, mode: PayMode): Order
    requires !Build(s.products, lines).Bad?
  {
    var cart := Build(s.products, lines);
    var gst := Gst(cart.subtotal);
    Order(shop, mode, cart.subtotal, gst, cart.subtotal + gst, cart.items)
  }

  function PlaceOrder(s: Shopfront, shop: nat, lines: seq<Line>, mode: PayMode): (Shopfront, Outcome) {
    var checked := PreCheck(s, shop, lines, mode);
    if checked != Done then (s, checked)
    else
      var order := NewOrder(s, shop, lines, mode);
      var s1 := s.(orders := s.orders + [order],
                   payments := s.payments + [Payment(|s.orders|, order.finalAmount, mode)]);
      if mode == CreditMode then
        var (book, debited) := Debited(s.book, shop, order.finalAmount, Some(|s.orders|));
        (s1.(book := book), debited)
      else (s1, Done)
  }

  // ---- totals ----

  function ItemTotal(items: seq<Item>): int {
    if items == [] then 0 else ItemTotal(items[..|items| - 1]) + items[|items| - 1].totalPrice
  }

  // ---- prices and quantities in the product's own fields ----

  /** The shop price when there is one, then the customer price, then the selling price. */
  predicate PricedFor(p: Product, unitPrice: int) {
    && (p.shopPrice.Some? ==> unitPrice == p.shopPrice.value)
    && (p.shopPrice.None? && p.customerPrice.Some? ==> unitPrice == p.customerPrice.value)
    && (p.shopPrice.None? && p.customerPrice.None? ==> unitPrice == p.sellingPrice)
  }

  /** The line names a product on sale, in its minimum quantity or more; a minimum of 0 means 1. */
  predicate Orderable(products: map<nat, Product>, line: Line) {
    && line.product in products && products[line.product].active
    && var least := products[line.product].minOrderQty;
       if least == 0 then line.qty >= 1 else line.qty >= least
  }

  lemma OrderableIs(products: map<nat, Product>, line: Line)
    ensures Orderable(products, line) <==>
            line.product in products && products[line.product].active && line.qty >= MinQty(products[line.product])
  {
  }

  predicate ItemIs(products: map<nat, Product>, line: Line, item: Item)
    requires line.product in products
  {
    && item.product == line.product && item.qty == line.qty
    && PricedFor(products[line.product], item.unitPrice)
    && item.totalPrice == item.unitPrice * line.qty
  }

  lemma {:induction false} CartItem(products: map<nat, Product>, lines: seq<Line>, i: nat)
    requires Build(products, lines).Cart? && i < |lines|
    ensures |Build(products, lines).items| == |lines| && Orderable(products, lines[i])
    ensures ItemIs(products, lines[i], Build(products, lines).items[i])
  {
    OrderableIs(products, lines[i]);
    hide Orderable, MinQty;
    if i < |lines| - 1 {
      CartItem(products, lines[..|lines| - 1], i);
      hide ShopUnitPrice, ItemIs;
    } else if i > 0 {
      CartItem(products, lines[..|lines| - 1], i - 1);
    }
  }

  lemma {:induction false} CartTotal(products: map<nat, Product>, lines: seq<Line>)
    requires Build(products, lines).Cart?
    ensures ItemTotal(Build(products, lines).items) == Build(products, lines).subtotal
  {
    hide ShopUnitPrice, MinQty;
    if lines != [] {
      var before, cart := Build(products, lines[..|lines| - 1]), Build(products, lines);
      CartTotal(products, lines[..|lines| - 1]);
      assert cart.items[..|cart.items| - 1] == before.items;
    }
  }

  /** One orderable item per line, priced for shops, and all of them adding up to the subtotal. */
  predicate AddsUp(products: map<nat, Product>, lines: seq<Line>, cart: Cart)
    requires cart.Cart?
  {
    && |cart.items| == |lines|
    && ItemTotal(cart.items) == cart.subtotal
    && forall i :: 0 <= i < |lines| ==>
         Orderable(products, lines[i]) && ItemIs(products, lines[i], cart.items[i])
  }

  /** Every built cart does, its prices and quantities being read from the products' own fields. */
  lemma CartAddsUp(products: map<nat, Product>, lines: seq<Line>)
    requires Build(products, lines).Cart?
    ensures AddsUp(products, lines, Build(products, lines))
  {
    CartTotal(products, lines);
    if lines != [] {
      CartItem(products, lines, 0);
    }
    forall i | 0 <= i < |lines|
      ensures Orderable(products, lines[i]) && ItemIs(products, lines[i], Build(products, lines).items[i])
    {
      CartItem(products, lines, i);
    }
  }

  /** A cart is built exactly when every line can be ordered; else the first bad line names the error. */
  lemma {:induction false} CartBuiltIff(products: map<nat, Product>, lines: seq<Line>)
    ensures Build(products, lines).Cart? <==> forall i :: 0 <= i < |lines| ==> Orderable(products, lines[i])
    ensures Build(products, lines).Bad? ==>
              exists i :: 0 <= i < |lines| && !Orderable(products, lines[i])
                          && (forall j :: 0 <= j < i ==> Orderable(products, lines[j]))
                          && Build(products, lines).error ==
                             (if lines[i].product in products && products[lines[i].product].active
                              then BadRequest else NotFound)
  {
    if lines != [] {
      var front, last := lines[..|lines| - 1], lines[|lines| - 1];
      CartBuiltIff(products, front);
      OrderableIs(products, last);
      hide ShopUnitPrice, MinQty, Orderable;
      assert forall i :: 0 <= i < |front| ==> lines[i] == front[i];
      if Build(products, front).Bad? {
        var i :| 0 <= i < |front| && !Orderable(products, front[i])
                 && (forall j :: 0 <= j < i ==> Orderable(products, front[j]))
                 && Build(products, front).error ==
                    (if front[i].product in products && products[front[i].product].active
                     then BadRequest else NotFound);
        assert lines[i] == front[i];
      } else if Build(products, lines).Bad? {
        assert lines[|front|] == last;
      }
    }
  }

  /** The same shop prices, minimum quantities and products on sale. */
  predicate SameForShops(products: map<nat, Product>, others: map<nat, Product>) {
    && products.Keys == others.Keys
    && forall k :: k in products ==>
         && products[k].shopPrice.Some? && others[k].shopPrice == products[k].shopPrice
         && others[k].active == products[k].active && others[k].minOrderQty == products[k].minOrderQty
  }

  /** With a shop price on every product, customer and selling prices have no part in any cart. */
  lemma {:induction false} ShopPricesDecide(products: map<nat, Product>, others: map<nat, Product>, lines: seq<Line>)
    requires SameForShops(products, others)
    ensures Build(products, lines) == Build(others, lines)
  {
    if lines != [] {
      ShopPricesDecide(products, others, lines[..|lines| - 1]);
      assert lines[|lines| - 1].product in products <==> lines[|lines| - 1].product in others;
    }
  }

  /** Exactly which orders pass every check, in the numbers of shop and cart; the others are refused unseen. */
  lemma AcceptedIff(s: Shopfront, shop: nat, lines: seq<Line>, mode: PayMode)
    ensures PreCheck(s, shop, lines, mode) == Done <==>
            && lines != [] && shop in s.book.profiles
            && (shop in s.approval ==> s.approval[shop] in {"", "approved"})
            && !s.book.profiles[shop].blocked
            && (forall i :: 0 <= i < |lines| ==> Orderable(s.products, lines[i]))
            && (mode == CreditMode ==>
                  var cart, account := Build(s.products, lines), s.book.profiles[shop];
                  && account.allowed && cart.Cart?
                  && account.outstanding + (cart.subtotal + Gst(cart.subtotal)) <= account.creditLimit)
            && (mode == Razorpay ==> s.razorpayConfigured)
  {
    CartBuiltIff(s.products, lines);
    hide Build, Gst, Orderable;
  }

  /** What a refused order is told: the first check that fails, a bad line by its own error. */
  lemma RefusalIs(s: Shopfront, shop: nat, lines: seq<Line>, mode: PayMode)
    ensures var told := PreCheck(s, shop, lines, mode);
            if lines == [] || shop !in s.book.profiles then told == Refused(BadRequest)
            else if shop in s.approval && s.approval[shop] !in {"", "approved"} then told == Refused(Forbidden)
            else if s.book.profiles[shop].blocked then told == Refused(Forbidden)
            else if exists i :: 0 <= i < |lines| && !Orderable(s.products, lines[i]) then
              told == Refused(NotFound) || told == Refused(BadRequest)
            else if mode == CreditMode && told != Done then told == Refused(BadRequest)
            else if mode == Razorpay && !s.razorpayConfigured then told == Refused(Unavailable)
            else told == Done
  {
    CartBuiltIff(s.products, lines);
    hide Build, Gst, Orderable;
  }

  /**
   GST is within half a paisa of five per cent, a tie going to the even side, and does not change
   the sign of the total.
   */
  lemma GstIsFivePercent(subtotal: int)
    ensures -50 <= 100 * Gst(subtotal) - 5 * subtotal <= 50
    ensures 100 * Gst(subtotal) - 5 * subtotal in {50, -50} ==> Gst(subtotal) % 2 == 0
    ensures subtotal > 0 <==> subtotal + Gst(subtotal) > 0
  {
    var x := subtotal as real * 0.05;
    assert -0.5 <= Gst(subtotal) as real - x <= 0.5;
    assert (100 * Gst(subtotal) - 5 * subtotal) as real == 100.0 * (Gst(subtotal) as real - x);
    if subtotal > 0 {
      RoundMonotone(0.0, x);
    } else {
      RoundMonotone(x, 0.0);
    }
    RoundWhole(0);
  }

  // ---- commit and debit ----

  predicate Committed(s: Shopfront, s': Shopfront) {
    |s'.orders| == |s.orders| + 1
  }

  /** Nothing is committed exactly when a check failed, and then nothing at all has changed. */
  lemma RefusedBeforeCommit(s: Shopfront, shop: nat, lines: seq<Line>, mode: PayMode)
    ensures var (s', outcome) := PlaceOrder(s, shop, lines, mode);
            && (Committed(s, s') <==> PreCheck(s, shop, lines, mode) == Done)
            && (!Committed(s, s') ==> s' == s && outcome != Done)
  {
  }

  /**
   What is committed: the shop's order of one item per line, its tax within half a paisa of five
   per cent of its items, its total, and a payment of that total in the given mode.
   */
  lemma CommittedOrder(s: Shopfront, shop: nat, lines: seq<Line>, mode: PayMode)
    requires PreCheck(s, shop, lines, mode) == Done
    ensures var s' := PlaceOrder(s, shop, lines, mode).0;
            && |s'.orders| == |s.orders| + 1 && s.orders <= s'.orders
            && s'.payments == s.payments + [Payment(|s.orders|, s'.orders[|s.orders|].finalAmount, mode)]
            && var order := s'.orders[|s.orders|];
               && order.shop == shop && order.mode == mode
               && order.subtotal == ItemTotal(order.items) && order.finalAmount == order.subtotal + order.gst
               && -50 <= 100 * order.gst - 5 * order.subtotal <= 50
               && |order.items| == |lines|
               && forall i :: 0 <= i < |lines| ==>
                    Orderable(s.products, lines[i]) && ItemIs(s.products, lines[i], order.items[i])
  {
    CartAddsUp(s.products, lines);
    GstIsFivePercent(Build(s.products, lines).subtotal);
    hide Build, Gst, Debited, Orderable, ItemIs, ItemTotal;
  }

  /**
   A committed order is stranded, its ledger debit refused after the fact, exactly when it is
   a credit order whose lines do not add up to a positive amount.
   */
  lemma StrandedIffNotPositive(s: Shopfront, shop: nat, lines: seq<Line>, mode: PayMode)
    ensures var (s', outcome) := PlaceOrder(s, shop, lines, mode);
            Committed(s, s') && outcome != Done <==>
              && PreCheck(s, shop, lines, mode) == Done && mode == CreditMode
              && Build(s.products, lines).subtotal <= 0
  {
    if PreCheck(s, shop, lines, mode) == Done {
      GstIsFivePercent(Build(s.products, lines).subtotal);
      DebitAcceptedIff(s.book, shop, NewOrder(s, shop, lines, mode).finalAmount, Some(|s.orders|));
    }
  }

  /**
   A positive credit order that passes the pre-check is debited: order, payment, ledger entry
   and the rise of the balance are the same amount, and the balance stays within the limit.
   */
  lemma CreditOrderIsDebitedInFull(s: Shopfront, shop: nat, lines: seq<Line>)
    requires PreCheck(s, shop, lines, CreditMode) == Done && Build(s.products, lines).subtotal > 0
    ensures var (s', outcome) := PlaceOrder(s, shop, lines, CreditMode);
            && outcome == Done && |s'.book.ledger| == |s.book.ledger| + 1 && |s'.payments| == |s.payments| + 1
            && shop in s'.book.profiles
            && var order := s'.orders[|s.orders|];
               var entry := s'.book.ledger[|s.book.ledger|];
               && order.finalAmount == s'.payments[|s.payments|].amount == entry.amount
               && order.finalAmount == s'.book.profiles[shop].outstanding - s.book.profiles[shop].outstanding
               && entry.shop == shop && entry.kind == Debit && entry.order == Some(|s.orders|)
               && entry.balanceAfter == s'.book.profiles[shop].outstanding <= s.book.profiles[shop].creditLimit
               && order.finalAmount == ItemTotal(order.items) + order.gst
  {
    CartAddsUp(s.products, lines);
    GstIsFivePercent(Build(s.products, lines).subtotal);
    DebitAcceptedIff(s.book, shop, NewOrder(s, shop, lines, CreditMode).finalAmount, Some(|s.orders|));
  }

  /** No other payment mode touches the credit book, and none is refused once committed. */
  lemma OtherModesLeaveCredit(s: Shopfront, shop: nat, lines: seq<Line>, mode: PayMode)
    requires mode != CreditMode
    ensures var (s', outcome) := PlaceOrder(s, shop, lines, mode);
            s'.book == s.book && (Committed(s, s') <==> outcome == Done)
  {
  }

  /**
   The two steps are not one transaction. Whatever credit requests come between them, the order
   is stranded exactly when the account they leave no longer admits the debit.
   */
  lemma InterveningStepsStrand(s: Shopfront, shop: nat, lines: seq<Line>, between: seq<Request>)
    requires PreCheck(s, shop, lines, CreditMode) == Done && Build(s.products, lines).subtotal > 0
    ensures var order := NewOrder(s, shop, lines, CreditMode);
            var book := Run(s.book, between);
            && shop in book.profiles
            && (Debited(book, shop, order.finalAmount, Some(|s.orders|)).1 != Done <==>
                  var p := book.profiles[shop];
                  p.blocked || !p.allowed || p.outstanding + order.finalAmount > p.creditLimit)
  {
    GstIsFivePercent(Build(s.products, lines).subtotal);
    ShopsStay(s.book, between, shop);
    DebitAcceptedIff(Run(s.book, between), shop, NewOrder(s, shop, lines, CreditMode).finalAmount, Some(|s.orders|));
  }

  predicate CollectionOrOther(e: Request, shop: nat) {
    e.shop != shop || e.CreditPayment?
  }

  /** Collections and other shops' requests leave a shop's permissions alone and never raise its balance. */
  lemma HarmlessStep(b: Book, e: Request, shop: nat)
    requires shop in b.profiles && b.profiles[shop].outstanding >= 0 && CollectionOrOther(e, shop)
    ensures var b' := Apply(b, e).0;
            && shop in b'.profiles && 0 <= b'.profiles[shop].outstanding <= b.profiles[shop].outstanding
            && b'.profiles[shop].(outstanding := 0) == b.profiles[shop].(outstanding := 0)
  {
  }

  lemma {:induction false} HarmlessRun(b: Book, es: seq<Request>, shop: nat)
    requires shop in b.profiles && b.profiles[shop].outstanding >= 0
    requires forall e :: e in es ==> CollectionOrOther(e, shop)
    ensures var b' := Run(b, es);
            && shop in b'.profiles && 0 <= b'.profiles[shop].outstanding <= b.profiles[shop].outstanding
            && b'.profiles[shop].(outstanding := 0) == b.profiles[shop].(outstanding := 0)
  {
    hide Apply, CollectionOrOther;
    if es != [] {
      HarmlessRun(b, es[..|es| - 1], shop);
      assert es[|es| - 1] in es;
      HarmlessStep(Run(b, es[..|es| - 1]), es[|es| - 1], shop);
    }
  }

  /** So the order still cannot be stranded while only other shops and collections come in between. */
  lemma HarmlessStepsDoNotStrand(s: Shopfront, shop: nat, lines: seq<Line>, between: seq<Request>)
    requires PreCheck(s, shop, lines, CreditMode) == Done && Build(s.products, lines).subtotal > 0
    requires s.book.profiles[shop].outstanding >= 0
    requires forall e :: e in between ==> CollectionOrOther(e, shop)
    ensures var order := NewOrder(s, shop, lines, CreditMode);
            Debited(Run(s.book, between), shop, order.finalAmount, Some(|s.orders|)).1 == Done
  {
    HarmlessRun(s.book, between, shop);
    InterveningStepsStrand(s, shop, lines, between);
    hide Run, Debited;
  }

  /** Three products at price zero on credit: committed, and then refused its debit of nothing. */
  lemma FreeOrderIsStranded(s: Shopfront)
    requires s.book.profiles == map[7 := Profile(0, 1000, true, false)] && s.approval == map[]
    requires s.products == map[1 := Product(true, 1, Some(0), None, 0)]
    ensures var (s', outcome) := PlaceOrder(s, 7, [Line(1, 3)], CreditMode);
            Committed(s, s') && outcome == Refused(BadRequest)
  {
    var lines := [Line(1, 3)];
    assert lines[..0] == [];
    assert Build(s.products, []) == Cart([], 0);
    assert Build(s.products, lines) == Cart([Item(1, 3, 0, 0)], 0);
    RoundWhole(0);
    assert Gst(0) == 0;
    StrandedIffNotPositive(s, 7, lines, CreditMode);
  }

  // ---- orders, payments and the ledger over whole runs ----

  datatype DeskRequest =
    | Place(shop: nat, lines: seq<Line>, mode: PayMode)
    | CreditStep(request: Request)

  function Serve(s: Shopfront, e: DeskRequest): Shopfront {
    match e
    case Place(shop, lines, mode) => PlaceOrder(s, shop, lines, mode).0
    case CreditStep(request) => s.(book := Apply(s.book, request).0)
  }

  function ServeAll(s: Shopfront, es: seq<DeskRequest>): Shopfront {
    if es == [] then s else Serve(ServeAll(s, es[..|es| - 1]), es[|es| - 1])
  }

  /** The ledger entries made for one order. */
  function EntriesFor(ledger: seq<Entry>, order: nat): seq<Entry> {
    if ledger == [] then []
    else
      var last := ledger[|ledger| - 1];
      EntriesFor(ledger[..|ledger| - 1], order) + if last.order == Some(order) then [last] else []
  }

  lemma EntriesForSnoc(ledger: seq<Entry>, e: Entry, order: nat)
    ensures EntriesFor(ledger + [e], order) == EntriesFor(ledger, order) + if e.order == Some(order) then [e] else []
  {
    assert (ledger + [e])[..|ledger|] == ledger;
  }

  /** Order `i` has its own payment, and exactly one debit when it was taken on credit for a positive sum. */
  predicate Settled(s: Shopfront, i: nat) {
    && i < |s.orders| && i < |s.payments|
    && s.payments[i] == Payment(i, s.orders[i].finalAmount, s.orders[i].mode)
    && s.orders[i].finalAmount == ItemTotal(s.orders[i].items) + s.orders[i].gst
    && var entries := EntriesFor(s.book.ledger, i);
       if s.orders[i].mode == CreditMode && s.orders[i].subtotal > 0 then
         && |entries| == 1 && entries[0].shop == s.orders[i].shop
         && entries[0].kind == Debit && entries[0].amount == s.orders[i].finalAmount
       else entries == []
  }

  ghost predicate AllSettled(s: Shopfront) {
    && |s.orders| == |s.payments|
    && (forall i :: 0 <= i < |s.orders| ==> Settled(s, i))
    && (forall i: nat :: i >= |s.orders| ==> EntriesFor(s.book.ledger, i) == [])
  }

  /** No credit request from elsewhere names an order. */
  predicate NamesNoOrder(e: DeskRequest) {
    e.CreditStep? && e.request.DebitCredit? ==> e.request.order.None?
  }

  lemma CreditStepLeavesOrders(b: Book, e: Request, i: nat)
    requires e.DebitCredit? ==> e.order.None?
    ensures EntriesFor(Apply(b, e).0.ledger, i) == EntriesFor(b.ledger, i)
  {
    var ledger := Apply(b, e).0.ledger;
    if ledger != b.ledger {
      EntriesForSnoc(b.ledger, ledger[|b.ledger|], i);
      assert ledger == b.ledger + [ledger[|b.ledger|]];
    }
  }

  lemma CreditStepKeepsSettled(s: Shopfront, e: Request)
    requires AllSettled(s) && (e.DebitCredit? ==> e.order.None?)
    ensures AllSettled(s.(book := Apply(s.book, e).0))
  {
    hide Apply, EntriesFor, ItemTotal;
    forall i: nat
      ensures EntriesFor(Apply(s.book, e).0.ledger, i) == EntriesFor(s.book.ledger, i)
    {
      CreditStepLeavesOrders(s.book, e, i);
    }
    forall i | 0 <= i < |s.orders|
      ensures Settled(s.(book := Apply(s.book, e).0), i)
    {
      assert Settled(s, i);
    }
  }

  /** The order and the payment that are committed, before any debit. */
  lemma CommittedRows(s: Shopfront, shop: nat, lines: seq<Line>, mode: PayMode)
    requires PreCheck(s, shop, lines, mode) == Done
    ensures var s' := PlaceOrder(s, shop, lines, mode).0;
            var order := NewOrder(s, shop, lines, mode);
            && s'.orders == s.orders + [order]
            && s'.payments == s.payments + [Payment(|s.orders|, order.finalAmount, mode)]
            && order.shop == shop && order.mode == mode
            && order.subtotal == Build(s.products, lines).subtotal
            && order.finalAmount == ItemTotal(order.items) + order.gst
  {
    CartAddsUp(s.products, lines);
    hide PreCheck, Build, Debited, Gst, ItemTotal;
  }

  lemma DebitedEntry(s: Shopfront, shop: nat, lines: seq<Line>)
    requires PreCheck(s, shop, lines, CreditMode) == Done && Build(s.products, lines).subtotal > 0
    ensures var ledger := PlaceOrder(s, shop, lines, CreditMode).0.book.ledger;
            && |ledger| == |s.book.ledger| + 1
            && ledger == s.book.ledger + [ledger[|s.book.ledger|]]
  {
    CreditOrderIsDebitedInFull(s, shop, lines);
    hide PreCheck, Build, NewOrder;
  }

  lemma StrandedLeavesBook(s: Shopfront, shop: nat, lines: seq<Line>)
    requires PreCheck(s, shop, lines, CreditMode) == Done && Build(s.products, lines).subtotal <= 0
    ensures PlaceOrder(s, shop, lines, CreditMode).0.book == s.book
  {
    StrandedIffNotPositive(s, shop, lines, CreditMode);
    hide PreCheck, Build, NewOrder;
  }

  /** What one order adds, whatever becomes of its debit. */
  lemma PlacedOrder(s: Shopfront, shop: nat, lines: seq<Line>, mode: PayMode)
    requires PreCheck(s, shop, lines, mode) == Done
    ensures var s' := PlaceOrder(s, shop, lines, mode).0;
            var order := NewOrder(s, shop, lines, mode);
            && s'.orders == s.orders + [order]
            && s'.payments == s.payments + [Payment(|s.orders|, order.finalAmount, mode)]
            && order.shop == shop && order.mode == mode
            && order.finalAmount == ItemTotal(order.items) + order.gst
            && if mode == CreditMode && order.subtotal > 0 then
                 && |s'.book.ledger| == |s.book.ledger| + 1
                 && var e := s'.book.ledger[|s.book.ledger|];
                    s'.book.ledger == s.book.ledger + [e] && e.shop == shop && e.kind == Debit
                    && e.amount == order.finalAmount && e.order == Some(|s.orders|)
               else s'.book == s.book
  {
    assert Build(s.products, lines).Cart?;
    hide PreCheck, PlaceOrder, NewOrder, Build, ItemTotal;
    CommittedRows(s, shop, lines, mode);
    if mode != CreditMode {
      OtherModesLeaveCredit(s, shop, lines, mode);
    } else if Build(s.products, lines).subtotal > 0 {
      CreditOrderIsDebitedInFull(s, shop, lines);
      DebitedEntry(s, shop, lines);
    } else {
      StrandedLeavesBook(s, shop, lines);
    }
  }

  /** Entries of older orders are the same after a new one; the new order has the one debit, if any. */
  lemma EntriesAfter(s: Shopfront, shop: nat, lines: seq<Line>, mode: PayMode, i: nat)
    requires PreCheck(s, shop, lines, mode) == Done
    ensures var s', order := PlaceOrder(s, shop, lines, mode).0, NewOrder(s, shop, lines, mode);
            var was, now := EntriesFor(s.book.ledger, i), EntriesFor(s'.book.ledger, i);
            if i == |s.orders| && mode == CreditMode && order.subtotal > 0 then
              && |now| == |was| + 1 && now[..|was|] == was
              && now[|was|].shop == shop && now[|was|].kind == Debit && now[|was|].amount == order.finalAmount
            else now == was
  {
    PlacedOrder(s, shop, lines, mode);
    var s', order := PlaceOrder(s, shop, lines, mode).0, NewOrder(s, shop, lines, mode);
    hide *;
    if mode == CreditMode && order.subtotal > 0 {
      EntriesForSnoc(s.book.ledger, s'.book.ledger[|s.book.ledger|], i);
    }
  }

  lemma PlaceKeepsSettled(s: Shopfront, shop: nat, lines: seq<Line>, mode: PayMode)
    requires AllSettled(s)
    ensures AllSettled(PlaceOrder(s, shop, lines, mode).0)
  {
    RefusedBeforeCommit(s, shop, lines, mode);
    if PreCheck(s, shop, lines, mode) == Done {
      PlacedOrder(s, shop, lines, mode);
      var s' := PlaceOrder(s, shop, lines, mode).0;
      hide PreCheck, PlaceOrder, NewOrder, Build, ItemTotal, EntriesFor;
      forall i | 0 <= i < |s'.orders|
        ensures Settled(s', i)
      {
        EntriesAfter(s, shop, lines, mode, i);
        if i < |s.orders| {
          assert Settled(s, i);
        }
      }
      hide Settled;
      forall i: nat | i >= |s'.orders|
        ensures EntriesFor(s'.book.ledger, i) == []
      {
        EntriesAfter(s, shop, lines, mode, i);
      }
    }
  }

  /**
   Over any run of orders and credit requests: every order has its own payment of its own total,
   which its items and tax make up, and the ledger holds exactly one debit of that total for each
   positive credit order and none for any other.
   */
  lemma {:induction false} OrdersMatchLedger(s: Shopfront, es: seq<DeskRequest>)
    requires s.orders == [] && s.payments == [] && s.book.ledger == []
    requires forall e :: e in es ==> NamesNoOrder(e)
    ensures AllSettled(ServeAll(s, es))
  {
    hide PlaceOrder, Apply, Settled;
    if es == [] {
      assert forall i: nat :: EntriesFor(s.book.ledger, i) == [];
    } else {
      var e := es[|es| - 1];
      assert e in es;
      OrdersMatchLedger(s, es[..|es| - 1]);
      var before := ServeAll(s, es[..|es| - 1]);
      match e
      case Place(shop, lines, mode) => PlaceKeepsSettled(before, shop, lines, mode);
      case CreditStep(request) => CreditStepKeepsSettled(before, request);
    }
  }

  // ---- the code itself ----

  class RetailerDesk {
    const credit: CreditDesk
    const approval: map<nat, string>
    const products: map<nat, Product>
    const razorpayConfigured: bool
    var orders: seq<Order>
    var payments: seq<Payment>

    constructor (credit: CreditDesk, approval: map<nat, string>, products: map<nat, Product>, razorpayConfigured: bool)
      ensures this.credit == credit
      ensures Contents() == Shopfront(credit.Contents(), approval, products, razorpayConfigured, [], [])
    {
      this.credit, this.approval, this.products := credit, approval, products;
      this.razorpayConfigured := razorpayConfigured;
      orders, payments := [], [];
    }

    function Contents(): Shopfront
      reads this, credit
    {
      Shopfront(credit.Contents(), approval, products, razorpayConfigured, orders, payments)
    }

    method BuildCart(lines: seq<Line>) returns (cart: Cart)
      ensures cart == Build(products, lines)
      ensures cart.Cart? ==> AddsUp(products, lines, cart)
    {
      var subtotal := 0;
      var built: seq<Item> := [];
      for i := 0 to |lines|
        invariant Build(products, lines[..i]) == Cart(built, subtotal)
      {
        var line := lines[i];
        assert lines[..i + 1][..i] == lines[..i];
        if line.product !in products || !products[line.product].active {
          FirstErrorStands(products, lines, i + 1);
          return Bad(NotFound);
        }
        if line.qty < MinQty(products[line.product]) {
          FirstErrorStands(products, lines, i + 1);
          return Bad(BadRequest);
        }
        var unit := ShopUnitPrice(products[line.product]);
        subtotal := subtotal + unit * line.qty;
        built := built + [Item(line.product, line.qty, unit, unit * line.qty)];
      }
      assert lines[..|lines|] == lines;
      cart := Cart(built, subtotal);
      CartAddsUp(products, lines);
    }

    method CreateBulkOrder(shop: nat, lines: seq<Line>, mode: PayMode) returns (outcome: Outcome)
      modifies this, credit
      ensures (Contents(), outcome) == PlaceOrder(old(Contents()), shop, lines, mode)
    {
      hide AddsUp;
      if lines == [] || shop !in credit.profiles {
        return Refused(BadRequest);
      }
      var profile := credit.profiles[shop];
      if shop in approval && approval[shop] != "" && approval[shop] != "approved" {
        return Refused(Forbidden);
      }
      if profile.blocked {
        return Refused(Forbidden);
      }
      var cart := BuildCart(lines);
      if cart.Bad? {
        return Refused(cart.error);
      }
      hide Build, Gst, Debited;
      var gst := Gst(cart.subtotal);
      var total := cart.subtotal + gst;
      if mode == CreditMode {
        if !profile.allowed || profile.outstanding + total > profile.creditLimit {
          return Refused(BadRequest);
        }
      } else if mode == Razorpay && !razorpayConfigured {
        return Refused(Unavailable);
      }
      var id := |orders|;
      orders := orders + [Order(shop, mode, cart.subtotal, gst, total, cart.items)];
      payments := payments + [Payment(id, total, mode)];
      outcome := Done;
      if mode == CreditMode {
        outcome := credit.Debit(shop, total, Some(id));
      }
    }
  }

  lemma {:induction false} FirstErrorStands(products: map<nat, Product>, lines: seq<Line>, n: nat)
    requires n <= |lines| && Build(products, lines[..n]).Bad?
    ensures Build(products, lines) == Build(products, lines[..n])
  {
    if n == |lines| {
      assert lines[..n] == lines;
    } else {
      var shorter := lines[..|lines| - 1];
      assert shorter[..n] == lines[..n];
      FirstErrorStands(products, shorter, n);
    }
  }
}
