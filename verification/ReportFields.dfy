/** The report's figures in the fields of orders and items themselves. */
module ReportFields {
  import opened Wrappers
  import opened Sums
  import opened Reports

  // ---- which orders count ----

  /** Paid, or a shop's own order that has been delivered. */
  predicate Counts(o: Order) {
    o.paymentStatus == "paid" || (o.orderType == "b2b_shop_order" && o.status == "delivered")
  }

  /** The type starts with b, 2, b. */
  predicate ForShop(o: Order) {
    |o.orderType| >= 3 && o.orderType[0] == 'b' && o.orderType[1] == '2' && o.orderType[2] == 'b'
  }

  predicate Delivered(o: Order, rider: nat) {
    o.status == "delivered" && o.rider == Some(rider) && rider != 0
  }

  function PaidAmount(): Order -> int {
    (o: Order) => if o.paymentStatus == "paid" then o.finalAmount else 0
  }

  function DeliveredShopAmount(): Order -> int {
    (o: Order) =>
      if o.paymentStatus != "paid" && o.orderType == "b2b_shop_order" && o.status == "delivered"
      then o.finalAmount else 0
  }

  function CountedFee(): Order -> int {
    (o: Order) => if Counts(o) then o.deliveryFee else 0
  }

  function CountedAmount(): Order -> int {
    (o: Order) => if Counts(o) then o.finalAmount else 0
  }

  function RiderPay(d: Data): Order -> int {
    (o: Order) =>
      if o.status == "delivered" && o.rider.Some? && o.rider.value != 0
      then if o.rider.value in d.tripCost then d.tripCost[o.rider.value] else 4000
      else 0
  }

  lemma {:induction false} SumSame<T>(xs: seq<T>, f: T -> int, g: T -> int)
    requires forall i :: 0 <= i < |xs| ==> f(xs[i]) == g(xs[i])
    ensures Sum(xs, f) == Sum(xs, g)
  {
    if xs != [] {
      SumSame(xs[..|xs| - 1], f, g);
    }
  }

  /** Summing what a filter keeps is summing everything with zero for the rest. */
  lemma {:induction false} SumFilter<T>(xs: seq<T>, p: T -> bool, f: T -> int, g: T -> int)
    requires forall i :: 0 <= i < |xs| ==> g(xs[i]) == if p(xs[i]) then f(xs[i]) else 0
    ensures Sum(Filter(xs, p), f) == Sum(xs, g)
  {
    if xs != [] {
      var front, last := xs[..|xs| - 1], xs[|xs| - 1];
      SumFilter(front, p, f, g);
      if p(last) {
        SumSnoc(Filter(front, p), last, f);
      }
    }
  }

  lemma SumOverPaid(d: Data, f: Order -> int, g: Order -> int)
    requires forall o :: g(o) == if Counts(o) then f(o) else 0
    ensures Sum(PaidOrders(d), f) == Sum(d.orders, g)
  {
    SumFilter(d.orders, (o: Order) => IsPaid(o), f, g);
  }

  /**
   Sales are the amounts of the orders with payment status "paid" and of the delivered shop orders
   with another one; delivery revenue has the fees of the same orders.
   */
  lemma SalesAre(d: Data)
    ensures ReportOf(d).salesTotal == Sum(d.orders, PaidAmount()) + Sum(d.orders, DeliveredShopAmount())
    ensures ReportOf(d).deliveryRevenue == Sum(d.orders, CountedFee())
  {
    SumOverPaid(d, Final(), CountedAmount());
    SumOverPaid(d, Fee(), CountedFee());
    hide PaidOrders, Sum;
    SumSplit(d.orders, PaidAmount(), DeliveredShopAmount(), CountedAmount());
  }

  /** Riders are paid for delivered orders: their own rate, or 40 rupees for a rider not on file. */
  lemma RiderCostIs(d: Data)
    ensures ReportOf(d).riderCost == Sum(d.orders, RiderPay(d))
  {
    SumSame(d.orders, Trip(d), RiderPay(d));
    hide Sum;
  }

  /** Gross is margin and fees, net is that less the riders. */
  lemma ProfitIs(d: Data)
    ensures ReportOf(d).grossProfit == ReportOf(d).itemMargin + ReportOf(d).deliveryRevenue
    ensures ReportOf(d).netProfit == ReportOf(d).grossProfit - ReportOf(d).riderCost
  {
    hide Sum, PaidOrders, Buckets, SortDown;
  }

  // ---- items ----

  /** An order's items are those of the data that name it, each as often as it is there. */
  lemma {:induction false} ItemsOfAre(items: seq<Item>, order: nat, it: Item)
    ensures multiset(Filter(items, InOrder(order)))[it] == if it.order == order then multiset(items)[it] else 0
  {
    if items != [] {
      var front, last := items[..|items| - 1], items[|items| - 1];
      ItemsOfAre(front, order, it);
      assert items == front + [last];
    }
  }

  /** What an item costs and earns: its own unit cost if positive, else the product's, else nothing. */
  lemma ItemFigures(d: Data, it: Item)
    ensures it.unitCost > 0 ==> LineCogs(d)(it) == it.unitCost * it.quantity
    ensures it.unitCost <= 0 && it.product in d.purchaseCost ==>
              LineCogs(d)(it) == d.purchaseCost[it.product] * it.quantity
    ensures it.unitCost <= 0 && it.product !in d.purchaseCost ==> LineCogs(d)(it) == 0
    ensures LineMargin(d)(it) == it.totalPrice - LineCogs(d)(it)
    ensures RiderLineMargin()(it) == it.totalPrice - it.unitCost * it.quantity
  {
  }

  // ---- rows ----

  /** The row of a key, and an empty one where there is none. */
  function RowOf(rows: seq<Bucket>, key: nat): Bucket {
    if Find(rows, key).Some? then rows[Find(rows, key).value] else Bucket(key, 0, 0, 0, 0)
  }

  lemma {:induction false} NoneTaken(orders: seq<Order>, l: Loop, key: nat, f: Order -> int)
    requires forall o :: o in orders ==> l.key(o) != Some(key)
    ensures Sum(orders, Of(l, key, f)) == 0
  {
    SumZero(orders, Of(l, key, f));
  }

  /** Rows in any order tell the sums of their own orders, key by key. */
  lemma RowsTell(orders: seq<Order>, l: Loop, rows: seq<Bucket>, key: nat)
    requires multiset(rows) == multiset(Buckets(orders, l))
    ensures HoldsItsOrders(orders, l, RowOf(rows, key)) && RowOf(rows, key).key == key
  {
    BucketsGroup(orders, l);
    var bs := Buckets(orders, l);
    var at := Find(rows, key);
    hide Buckets, HoldsItsOrders, Sum;
    if at.Some? {
      assert rows[at.value] in multiset(rows) && rows[at.value] in bs;
    } else {
      forall b | b in bs
        ensures b.key != key
      {
        assert b in multiset(rows) && b in rows;
      }
      NoneTaken(orders, l, key, Count());
      NoneTaken(orders, l, key, l.cost);
      NoneTaken(orders, l, key, l.revenue);
      NoneTaken(orders, l, key, l.margin);
      EmptyBucketHolds(orders, l, RowOf(rows, key));
    }
  }

  function OrdersOf(user: nat, shop: bool): Order -> int {
    (o: Order) => if Counts(o) && ForShop(o) == shop && o.user == user then 1 else 0
  }

  function AmountOf(user: nat, shop: bool): Order -> int {
    (o: Order) => if Counts(o) && ForShop(o) == shop && o.user == user then o.finalAmount else 0
  }

  function MarginOf(d: Data, user: nat, shop: bool): Order -> int {
    (o: Order) => if Counts(o) && ForShop(o) == shop && o.user == user then OfItems(d, LineMargin(d))(o) else 0
  }

  lemma ForShopIs(o: Order)
    ensures ForShop(o) <==> IsB2b(o)
  {
  }

  lemma PaidSums(d: Data, user: nat, shop: bool)
    ensures var l := UserLoop(d, shop);
            && Sum(PaidOrders(d), Of(l, user, Count())) == Sum(d.orders, OrdersOf(user, shop))
            && Sum(PaidOrders(d), Of(l, user, l.revenue)) == Sum(d.orders, AmountOf(user, shop))
            && Sum(PaidOrders(d), Of(l, user, l.margin)) == Sum(d.orders, MarginOf(d, user, shop))
  {
    var l := UserLoop(d, shop);
    forall o: Order
      ensures ForShop(o) <==> IsB2b(o)
    {
      ForShopIs(o);
    }
    hide ForShop, IsB2b, Sum, Counts, OfItems, PaidOrders;
    SumOverPaid(d, Of(l, user, Count()), OrdersOf(user, shop));
    SumOverPaid(d, Of(l, user, l.revenue), AmountOf(user, shop));
    SumOverPaid(d, Of(l, user, l.margin), MarginOf(d, user, shop));
  }

  /** A shop's row has number, amounts and margin of its counted orders, and every shop with one has a row. */
  lemma RetailerRow(d: Data, user: nat)
    ensures var row := RowOf(ReportOf(d).byRetailer, user);
            && row.count == Sum(d.orders, OrdersOf(user, true))
            && row.revenue == Sum(d.orders, AmountOf(user, true))
            && row.margin == Sum(d.orders, MarginOf(d, user, true))
  {
    var bs := Buckets(PaidOrders(d), UserLoop(d, true));
    SortDownSorts(bs, MarginKey());
    RowsTell(PaidOrders(d), UserLoop(d, true), SortDown(bs, MarginKey()), user);
    PaidSums(d, user, true);
    hide Sum, PaidOrders, Buckets, SortDown;
  }

  /** The same for customers, before the cut; each row after it is one of these. */
  lemma CustomerRow(d: Data, user: nat)
    ensures var all := SortDown(Buckets(PaidOrders(d), UserLoop(d, false)), MarginKey());
            var row := RowOf(all, user);
            && row.count == Sum(d.orders, OrdersOf(user, false))
            && row.revenue == Sum(d.orders, AmountOf(user, false))
            && row.margin == Sum(d.orders, MarginOf(d, user, false))
            && ReportOf(d).byCustomer <= all
  {
    var bs := Buckets(PaidOrders(d), UserLoop(d, false));
    SortDownSorts(bs, MarginKey());
    RowsTell(PaidOrders(d), UserLoop(d, false), SortDown(bs, MarginKey()), user);
    PaidSums(d, user, false);
    hide Sum, PaidOrders, Buckets, SortDown;
  }

  function TripsOf(rider: nat): Order -> int {
    (o: Order) => if Delivered(o, rider) then 1 else 0
  }

  function PayOf(d: Data, rider: nat): Order -> int {
    (o: Order) => if Delivered(o, rider) then if rider in d.tripCost then d.tripCost[rider] else 4000 else 0
  }

  function CarriedBy(rider: nat): Order -> int {
    (o: Order) => if Delivered(o, rider) then o.finalAmount else 0
  }

  /** A rider's row has its trips, its pay and the amounts it carried. */
  lemma RiderRow(d: Data, rider: nat)
    ensures var row := RowOf(ReportOf(d).byRider, rider);
            && row.count == Sum(d.orders, TripsOf(rider))
            && row.cost == Sum(d.orders, PayOf(d, rider))
            && row.revenue == Sum(d.orders, CarriedBy(rider))
  {
    var l := TripLoop(d);
    var bs := Buckets(d.orders, l);
    SortDownSorts(bs, ContributionKey());
    RowsTell(d.orders, l, SortDown(bs, ContributionKey()), rider);
    SumSame(d.orders, Of(l, rider, Count()), TripsOf(rider));
    SumSame(d.orders, Of(l, rider, l.cost), PayOf(d, rider));
    SumSame(d.orders, Of(l, rider, l.revenue), CarriedBy(rider));
    hide Sum, Buckets, SortDown;
  }

  /** Shops are listed by margin and riders by what they contribute, highest first. */
  lemma RowsDescend(d: Data, i: nat, j: nat)
    ensures i < j < |ReportOf(d).byRetailer| ==> ReportOf(d).byRetailer[i].margin >= ReportOf(d).byRetailer[j].margin
    ensures i < j < |ReportOf(d).byRider| ==>
              ReportOf(d).byRider[i].margin - ReportOf(d).byRider[i].cost
              >= ReportOf(d).byRider[j].margin - ReportOf(d).byRider[j].cost
  {
    var shops := SortDown(Buckets(PaidOrders(d), UserLoop(d, true)), MarginKey());
    var riders := SortDown(Buckets(d.orders, TripLoop(d)), ContributionKey());
    SortDownSorts(Buckets(PaidOrders(d), UserLoop(d, true)), MarginKey());
    SortDownSorts(Buckets(d.orders, TripLoop(d)), ContributionKey());
    hide Sum, PaidOrders, Buckets, SortDown;
    if i < j < |shops| {
      assert MarginKey()(shops[i]) >= MarginKey()(shops[j]);
    }
    if i < j < |riders| {
      assert ContributionKey()(riders[i]) >= ContributionKey()(riders[j]);
    }
  }

  // ---- one order is delivered ----

  /** The data after one order has been set to delivered. */
  function WithDelivered(d: Data, i: nat): Data
    requires i < |d.orders|
  {
    d.(orders := d.orders[i := d.orders[i].(status := "delivered")])
  }

  lemma DeliveredAmounts(o: Order, user: nat)
    requires o.orderType == "b2b_shop_order" && o.status != "delivered"
    ensures var after := o.(status := "delivered");
            var amount := if o.paymentStatus == "paid" then 0 else o.finalAmount;
            && PaidAmount()(after) + DeliveredShopAmount()(after)
               == PaidAmount()(o) + DeliveredShopAmount()(o) + amount
            && AmountOf(user, true)(after) == AmountOf(user, true)(o) + (if o.user == user then amount else 0)
            && OrdersOf(user, true)(after)
               == OrdersOf(user, true)(o) + (if o.user == user && o.paymentStatus != "paid" then 1 else 0)
  {
  }

  /**
   Delivering a shop order that is not paid raises sales by its amount, and its shop's row by one
   order and that amount; delivering a paid one changes neither, nor any other shop's row.
   */
  lemma DeliveryCounts(d: Data, i: nat, user: nat)
    requires i < |d.orders| && d.orders[i].orderType == "b2b_shop_order" && d.orders[i].status != "delivered"
    ensures var o := d.orders[i];
            var before, after := ReportOf(d), ReportOf(WithDelivered(d, i));
            var was, now := RowOf(before.byRetailer, user), RowOf(after.byRetailer, user);
            if o.paymentStatus == "paid" then
              after.salesTotal == before.salesTotal && now.count == was.count && now.revenue == was.revenue
            else
              && after.salesTotal == before.salesTotal + o.finalAmount
              && now.count == was.count + (if o.user == user then 1 else 0)
              && now.revenue == was.revenue + (if o.user == user then o.finalAmount else 0)
  {
    var t, o := WithDelivered(d, i), d.orders[i].(status := "delivered");
    SalesAre(d);
    SalesAre(t);
    RetailerRow(d, user);
    RetailerRow(t, user);
    DeliveredAmounts(d.orders[i], user);
    hide ReportOf, Sum, PaidAmount, DeliveredShopAmount, AmountOf, OrdersOf, RowOf;
    SumUpdate(d.orders, i, o, PaidAmount());
    SumUpdate(d.orders, i, o, DeliveredShopAmount());
    SumUpdate(d.orders, i, o, AmountOf(user, true));
    SumUpdate(d.orders, i, o, OrdersOf(user, true));
  }
}
