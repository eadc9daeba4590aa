/**
 The profit report of misc.py: the same money counted by several independent group-by loops.
 Dicts are kept in insertion order, as Python's are; all data is in whole paise.
 */
module Reports {
  import opened Wrappers
  import opened Sums

  const TOP_CUSTOMERS: nat := 40
  const DEFAULT_TRIP: int := 4000

  datatype Order = Order(id: nat, user: nat, orderType: string, status: string, paymentStatus: string,
                         finalAmount: int, deliveryFee: int, rider: Option<nat>)

  datatype Item = Item(order: nat, product: nat, quantity: int, totalPrice: int, unitCost: int)

  /** `purchaseCost` has the products that exist, a missing cost as 0; `tripCost` the riders that exist. */
  datatype Data = Data(orders: seq<Order>, items: seq<Item>, purchaseCost: map<nat, int>, tripCost: map<nat, int>)

  /** One row of by_customer, by_retailer or by_rider; only riders have a trip cost. */
  datatype Bucket = Bucket(key: nat, count: int, cost: int, revenue: int, margin: int) {
    function Contribution(): int { margin - cost }
  }

  /** What a group-by loop reads from each order; orders without a key are skipped. */
  datatype Loop = Loop(key: Order -> Option<nat>, cost: Order -> int, revenue: Order -> int, margin: Order -> int)

  datatype Report = Report(salesTotal: int, deliveryRevenue: int, cogs: int, itemMargin: int, riderCost: int,
                           grossProfit: int, netProfit: int,
                           byCustomer: seq<Bucket>, byRetailer: seq<Bucket>, byRider: seq<Bucket>)

  // ---- classifying rows ----

  predicate IsPaid(o: Order) {
    o.paymentStatus == "paid" || (o.orderType == "b2b_shop_order" && o.status == "delivered")
  }

  predicate IsB2b(o: Order) {
    "b2b" <= o.orderType
  }

  /** Delivered by somebody: `not o.delivery_person_id` also holds for id 0. */
  predicate IsTrip(o: Order) {
    o.status == "delivered" && o.rider.Some? && o.rider.value != 0
  }

  function Filter<T>(xs: seq<T>, p: T -> bool): seq<T> {
    if xs == [] then []
    else
      var front := Filter(xs[..|xs| - 1], p);
      if p(xs[|xs| - 1]) then front + [xs[|xs| - 1]] else front
  }

  lemma FilterSnoc<T>(xs: seq<T>, i: nat, p: T -> bool)
    requires i < |xs|
    ensures Filter(xs[..i + 1], p) == Filter(xs[..i], p) + if p(xs[i]) then [xs[i]] else []
  {
    assert xs[..i + 1][..i] == xs[..i];
  }

  function PaidOrders(d: Data): seq<Order> {
    Filter(d.orders, (o: Order) => IsPaid(o))
  }

  function InOrder(order: nat): Item -> bool {
    (it: Item) => it.order == order
  }

  function ItemsOf(d: Data, order: nat): seq<Item> {
    Filter(d.items, InOrder(order))
  }

  // ---- per-row amounts ----

  /** The item's own cost, or the product's when the item has none. */
  function Cost(d: Data, it: Item): int {
    if it.unitCost > 0 then it.unitCost
    else if it.product in d.purchaseCost then d.purchaseCost[it.product] else 0
  }

  function LineCogs(d: Data): Item -> int {
    (it: Item) => Cost(d, it) * it.quantity
  }

  function LineRevenue(): Item -> int {
    (it: Item) => it.totalPrice
  }

  function LineMargin(d: Data): Item -> int {
    (it: Item) => it.totalPrice - Cost(d, it) * it.quantity
  }

  /** The rider loop reads the item's own cost only. */
  function RiderLineMargin(): Item -> int {
    (it: Item) => it.totalPrice - it.unitCost * it.quantity
  }

  function OfItems(d: Data, f: Item -> int): Order -> int {
    (o: Order) => Sum(ItemsOf(d, o.id), f)
  }

  function Final(): Order -> int { (o: Order) => o.finalAmount }

  function Fee(): Order -> int { (o: Order) => o.deliveryFee }

  function TripCost(d: Data, rider: nat): int {
    if rider in d.tripCost then d.tripCost[rider] else DEFAULT_TRIP
  }

  function Trip(d: Data): Order -> int {
    (o: Order) => if IsTrip(o) then TripCost(d, o.rider.value) else 0
  }

  // ---- buckets ----

  function Find(bs: seq<Bucket>, key: nat): (r: Option<nat>)
    ensures r.Some? ==> r.value < |bs| && bs[r.value].key == key
    ensures r.None? ==> forall i :: 0 <= i < |bs| ==> bs[i].key != key
  {
    if bs == [] then None
    else if bs[|bs| - 1].key == key then Some(|bs| - 1)
    else Find(bs[..|bs| - 1], key)
  }

  /** setdefault, then the updates of the bucket in place. */
  function Credit(bs: seq<Bucket>, key: nat, cost: int, revenue: int, margin: int): seq<Bucket> {
    var at := Find(bs, key);
    if at.None? then bs + [Bucket(key, 1, cost, revenue, margin)]
    else
      var b := bs[at.value];
      bs[at.value := Bucket(key, b.count + 1, b.cost + cost, b.revenue + revenue, b.margin + margin)]
  }

  function Buckets(orders: seq<Order>, l: Loop): seq<Bucket> {
    if orders == [] then []
    else
      var before := Buckets(orders[..|orders| - 1], l);
      var o := orders[|orders| - 1];
      if l.key(o).Some? then Credit(before, l.key(o).value, l.cost(o), l.revenue(o), l.margin(o)) else before
  }

  function Zero(): Order -> int { (o: Order) => 0 }

  /** The by-customer loop (b2b false) and the by-retailer one (b2b true), over paid orders. */
  function UserLoop(d: Data, b2b: bool): Loop {
    Loop((o: Order) => if IsB2b(o) == b2b then Some(o.user) else None, Zero(), Final(), OfItems(d, LineMargin(d)))
  }

  /** The by-rider loop, over all orders of the period. */
  function TripLoop(d: Data): Loop {
    Loop((o: Order) => if IsTrip(o) then o.rider else None, Trip(d), Final(), OfItems(d, RiderLineMargin()))
  }

  // ---- sorted(..., reverse=True) ----

  /** Insert behind every entry with at least the same key: equal keys keep their order. */
  function Insert<T>(x: T, xs: seq<T>, key: T -> int): seq<T> {
    if xs == [] || key(xs[|xs| - 1]) >= key(x) then xs + [x]
    else Insert(x, xs[..|xs| - 1], key) + [xs[|xs| - 1]]
  }

  function SortDown<T>(xs: seq<T>, key: T -> int): seq<T> {
    if xs == [] then [] else Insert(xs[|xs| - 1], SortDown(xs[..|xs| - 1], key), key)
  }

  ghost predicate Descending<T>(xs: seq<T>, key: T -> int) {
    forall i, j :: 0 <= i < j < |xs| ==> key(xs[i]) >= key(xs[j])
  }

  lemma {:induction false} InsertBound<T>(x: T, xs: seq<T>, key: T -> int, bound: int)
    requires key(x) >= bound && forall i :: 0 <= i < |xs| ==> key(xs[i]) >= bound
    ensures forall i :: 0 <= i < |Insert(x, xs, key)| ==> key(Insert(x, xs, key)[i]) >= bound
  {
    if xs != [] && key(xs[|xs| - 1]) < key(x) {
      InsertBound(x, xs[..|xs| - 1], key, bound);
    }
  }

  lemma {:induction false} InsertIsSorted<T>(x: T, xs: seq<T>, key: T -> int)
    requires Descending(xs, key)
    ensures Descending(Insert(x, xs, key), key)
  {
    if xs != [] && key(xs[|xs| - 1]) < key(x) {
      var front, last := xs[..|xs| - 1], xs[|xs| - 1];
      InsertIsSorted(x, front, key);
      InsertBound(x, front, key, key(last));
    }
  }

  lemma {:induction false} InsertAdds<T>(x: T, xs: seq<T>, key: T -> int)
    ensures multiset(Insert(x, xs, key)) == multiset(xs) + multiset{x}
  {
    if xs != [] && key(xs[|xs| - 1]) < key(x) {
      var front, last := xs[..|xs| - 1], xs[|xs| - 1];
      assert xs == front + [last];
      InsertAdds(x, front, key);
    }
  }

  /** Sorting reorders: descending by key, same entries. */
  lemma {:induction false} SortDownSorts<T>(xs: seq<T>, key: T -> int)
    ensures Descending(SortDown(xs, key), key)
    ensures multiset(SortDown(xs, key)) == multiset(xs)
  {
    if xs != [] {
      var front, last := xs[..|xs| - 1], xs[|xs| - 1];
      assert xs == front + [last];
      SortDownSorts(front, key);
      InsertIsSorted(last, SortDown(front, key), key);
      InsertAdds(last, SortDown(front, key), key);
    }
  }

  lemma {:induction false} InsertIsStable<T>(x: T, xs: seq<T>, key: T -> int, k: int)
    requires Descending(xs, key)
    ensures Filter(Insert(x, xs, key), (y: T) => key(y) == k) ==
            Filter(xs, (y: T) => key(y) == k) + if key(x) == k then [x] else []
  {
    var p := (y: T) => key(y) == k;
    if xs == [] || key(xs[|xs| - 1]) >= key(x) {
      assert (xs + [x])[..|xs|] == xs;
    } else {
      var front, last := xs[..|xs| - 1], xs[|xs| - 1];
      InsertIsStable(x, front, key, k);
      var ys := Insert(x, front, key);
      assert (ys + [last])[..|ys|] == ys;
      if key(x) == k {
        assert key(last) != k;
      }
    }
  }

  /** Entries with the same key keep the order they had. */
  lemma {:induction false} SortDownIsStable<T>(xs: seq<T>, key: T -> int, k: int)
    ensures Filter(SortDown(xs, key), (y: T) => key(y) == k) == Filter(xs, (y: T) => key(y) == k)
  {
    if xs != [] {
      SortDownIsStable(xs[..|xs| - 1], key, k);
      SortDownSorts(xs[..|xs| - 1], key);
      InsertIsStable(xs[|xs| - 1], SortDown(xs[..|xs| - 1], key), key, k);
    }
  }

  lemma {:induction false} InsertSum<T>(x: T, xs: seq<T>, key: T -> int, f: T -> int)
    ensures Sum(Insert(x, xs, key), f) == Sum(xs, f) + f(x)
  {
    if xs == [] || key(xs[|xs| - 1]) >= key(x) {
      SumSnoc(xs, x, f);
    } else {
      var front, last := xs[..|xs| - 1], xs[|xs| - 1];
      InsertSum(x, front, key, f);
      SumSnoc(Insert(x, front, key), last, f);
    }
  }

  lemma {:induction false} SortDownSum<T>(xs: seq<T>, key: T -> int, f: T -> int)
    ensures Sum(SortDown(xs, key), f) == Sum(xs, f)
  {
    if xs != [] {
      SortDownSum(xs[..|xs| - 1], key, f);
      InsertSum(xs[|xs| - 1], SortDown(xs[..|xs| - 1], key), key, f);
    }
  }

  function CountKey(): Bucket -> int { (b: Bucket) => b.count }

  function CostKey(): Bucket -> int { (b: Bucket) => b.cost }

  function RevenueKey(): Bucket -> int { (b: Bucket) => b.revenue }

  function MarginKey(): Bucket -> int { (b: Bucket) => b.margin }

  function ContributionKey(): Bucket -> int { (b: Bucket) => b.Contribution() }

  function Top<T>(xs: seq<T>, n: nat): seq<T> {
    if |xs| <= n then xs else xs[..n]
  }

  // ---- what the buckets hold ----

  function Count(): Order -> int { (o: Order) => 1 }

  /** `f` of the orders with one key, 0 for the rest. */
  function Of(l: Loop, key: nat, f: Order -> int): Order -> int {
    (o: Order) => if l.key(o) == Some(key) then f(o) else 0
  }

  /** `f` of the orders the loop takes, 0 for those it skips. */
  function Taken(l: Loop, f: Order -> int): Order -> int {
    (o: Order) => if l.key(o).Some? then f(o) else 0
  }

  ghost predicate DistinctKeys(bs: seq<Bucket>) {
    forall i, j :: 0 <= i < j < |bs| ==> bs[i].key != bs[j].key
  }

  /** A bucket holds exactly the amounts of the orders with its key. */
  predicate HoldsItsOrders(orders: seq<Order>, l: Loop, b: Bucket) {
    && b.count == Sum(orders, Of(l, b.key, Count()))
    && b.cost == Sum(orders, Of(l, b.key, l.cost))
    && b.revenue == Sum(orders, Of(l, b.key, l.revenue))
    && b.margin == Sum(orders, Of(l, b.key, l.margin))
  }

  /** Every order the loop takes has a bucket. */
  ghost predicate Covers(orders: seq<Order>, l: Loop, bs: seq<Bucket>) {
    forall o :: o in orders && l.key(o).Some? ==> Find(bs, l.key(o).value).Some?
  }

  /** One bucket per key, holding exactly the amounts of the orders with that key. */
  ghost predicate Groups(orders: seq<Order>, l: Loop, bs: seq<Bucket>) {
    && DistinctKeys(bs)
    && (forall i :: 0 <= i < |bs| ==> HoldsItsOrders(orders, l, bs[i]))
    && Covers(orders, l, bs)
  }

  lemma FindKept(bs: seq<Bucket>, bs': seq<Bucket>, key: nat)
    requires |bs| <= |bs'| && Find(bs, key).Some?
    requires forall i :: 0 <= i < |bs| ==> bs'[i].key == bs[i].key
    ensures Find(bs', key).Some?
  {
    var i := Find(bs, key).value;
    assert bs'[i].key == key;
  }

  lemma OfSnoc(orders: seq<Order>, o: Order, l: Loop, key: nat)
    ensures Sum(orders + [o], Of(l, key, Count())) == Sum(orders, Of(l, key, Count())) + Of(l, key, Count())(o)
    ensures Sum(orders + [o], Of(l, key, l.cost)) == Sum(orders, Of(l, key, l.cost)) + Of(l, key, l.cost)(o)
    ensures Sum(orders + [o], Of(l, key, l.revenue)) == Sum(orders, Of(l, key, l.revenue)) + Of(l, key, l.revenue)(o)
    ensures Sum(orders + [o], Of(l, key, l.margin)) == Sum(orders, Of(l, key, l.margin)) + Of(l, key, l.margin)(o)
  {
    SumSnoc(orders, o, Of(l, key, Count()));
    SumSnoc(orders, o, Of(l, key, l.cost));
    SumSnoc(orders, o, Of(l, key, l.revenue));
    SumSnoc(orders, o, Of(l, key, l.margin));
  }

  lemma SkipGroups(orders: seq<Order>, o: Order, l: Loop, bs: seq<Bucket>)
    requires Groups(orders, l, bs) && l.key(o).None?
    ensures Groups(orders + [o], l, bs)
  {
    hide HoldsItsOrders;
    forall i | 0 <= i < |bs|
      ensures HoldsItsOrders(orders + [o], l, bs[i])
    {
      OtherBucketHolds(orders, o, l, bs[i]);
    }
  }

  /** Nothing with a key that has no bucket. */
  lemma NoBucketNoOrders(orders: seq<Order>, l: Loop, bs: seq<Bucket>, key: nat)
    requires Groups(orders, l, bs) && Find(bs, key).None?
    ensures Sum(orders, Of(l, key, Count())) == 0 && Sum(orders, Of(l, key, l.cost)) == 0
    ensures Sum(orders, Of(l, key, l.revenue)) == 0 && Sum(orders, Of(l, key, l.margin)) == 0
  {
    assert forall x :: x in orders ==> l.key(x) != Some(key);
    hide Groups, Find;
    SumZero(orders, Of(l, key, Count()));
    SumZero(orders, Of(l, key, l.cost));
    SumZero(orders, Of(l, key, l.revenue));
    SumZero(orders, Of(l, key, l.margin));
  }

  lemma CreditKeys(bs: seq<Bucket>, key: nat, cost: int, revenue: int, margin: int)
    ensures var bs' := Credit(bs, key, cost, revenue, margin);
            && |bs| <= |bs'| && (forall i :: 0 <= i < |bs| ==> bs'[i].key == bs[i].key)
            && Find(bs', key).Some?
  {
    var bs' := Credit(bs, key, cost, revenue, margin);
    var at := Find(bs, key);
    assert bs'[if at.Some? then at.value else |bs|].key == key;
  }

  lemma CreditFinds(orders: seq<Order>, o: Order, l: Loop, bs: seq<Bucket>)
    requires Covers(orders, l, bs) && l.key(o).Some?
    ensures Covers(orders + [o], l, Credit(bs, l.key(o).value, l.cost(o), l.revenue(o), l.margin(o)))
  {
    var bs' := Credit(bs, l.key(o).value, l.cost(o), l.revenue(o), l.margin(o));
    CreditKeys(bs, l.key(o).value, l.cost(o), l.revenue(o), l.margin(o));
    hide Credit, Find;
    forall x | x in orders + [o] && l.key(x).Some?
      ensures Find(bs', l.key(x).value).Some?
    {
      if x in orders {
        FindKept(bs, bs', l.key(x).value);
      }
    }
  }

  lemma OtherBucketHolds(orders: seq<Order>, o: Order, l: Loop, b: Bucket)
    requires HoldsItsOrders(orders, l, b) && l.key(o) != Some(b.key)
    ensures HoldsItsOrders(orders + [o], l, b)
  {
    OfSnoc(orders, o, l, b.key);
    hide Sum;
  }

  lemma OwnBucketHolds(orders: seq<Order>, o: Order, l: Loop, b: Bucket)
    requires HoldsItsOrders(orders, l, b) && l.key(o) == Some(b.key)
    ensures HoldsItsOrders(orders + [o], l,
                           Bucket(b.key, b.count + 1, b.cost + l.cost(o), b.revenue + l.revenue(o),
                                  b.margin + l.margin(o)))
  {
    OfSnoc(orders, o, l, b.key);
    hide Sum;
  }

  lemma CreditGroups(orders: seq<Order>, o: Order, l: Loop, bs: seq<Bucket>)
    requires Groups(orders, l, bs) && l.key(o).Some?
    ensures Groups(orders + [o], l, Credit(bs, l.key(o).value, l.cost(o), l.revenue(o), l.margin(o)))
  {
    var key := l.key(o).value;
    var bs' := Credit(bs, key, l.cost(o), l.revenue(o), l.margin(o));
    var at := Find(bs, key);
    CreditFinds(orders, o, l, bs);
    hide Sum, HoldsItsOrders;
    forall i | 0 <= i < |bs'|
      ensures HoldsItsOrders(orders + [o], l, bs'[i])
    {
      if at.None? && i == |bs| {
        var empty := Bucket(key, 0, 0, 0, 0);
        NoBucketNoOrders(orders, l, bs, key);
        EmptyBucketHolds(orders, l, empty);
        OwnBucketHolds(orders, o, l, empty);
      } else {
        assert HoldsItsOrders(orders, l, bs[i]);
        if at == Some(i) {
          OwnBucketHolds(orders, o, l, bs[i]);
        } else {
          OtherBucketHolds(orders, o, l, bs[i]);
        }
      }
    }
  }

  lemma EmptyBucketHolds(orders: seq<Order>, l: Loop, b: Bucket)
    requires b.count == b.cost == b.revenue == b.margin == 0
    requires Sum(orders, Of(l, b.key, Count())) == 0 && Sum(orders, Of(l, b.key, l.cost)) == 0
    requires Sum(orders, Of(l, b.key, l.revenue)) == 0 && Sum(orders, Of(l, b.key, l.margin)) == 0
    ensures HoldsItsOrders(orders, l, b)
  {
  }

  /** Each loop groups: for any key and amounts, a bucket is the sum over its own orders. */
  lemma {:induction false} BucketsGroup(orders: seq<Order>, l: Loop)
    ensures Groups(orders, l, Buckets(orders, l))
  {
    if orders != [] {
      var before, o := orders[..|orders| - 1], orders[|orders| - 1];
      BucketsGroup(before, l);
      assert orders == before + [o];
      if l.key(o).Some? {
        CreditGroups(before, o, l, Buckets(before, l));
      } else {
        SkipGroups(before, o, l, Buckets(before, l));
      }
    }
  }

  lemma CreditSums(bs: seq<Bucket>, key: nat, cost: int, revenue: int, margin: int)
    ensures var bs' := Credit(bs, key, cost, revenue, margin);
            && Sum(bs', CountKey()) == Sum(bs, CountKey()) + 1
            && Sum(bs', CostKey()) == Sum(bs, CostKey()) + cost
            && Sum(bs', RevenueKey()) == Sum(bs, RevenueKey()) + revenue
            && Sum(bs', MarginKey()) == Sum(bs, MarginKey()) + margin
  {
    var at := Find(bs, key);
    var bs' := Credit(bs, key, cost, revenue, margin);
    if at.None? {
      var b := Bucket(key, 1, cost, revenue, margin);
      SumSnoc(bs, b, CountKey());
      SumSnoc(bs, b, CostKey());
      SumSnoc(bs, b, RevenueKey());
      SumSnoc(bs, b, MarginKey());
    } else {
      var b := bs'[at.value];
      SumUpdate(bs, at.value, b, CountKey());
      SumUpdate(bs, at.value, b, CostKey());
      SumUpdate(bs, at.value, b, RevenueKey());
      SumUpdate(bs, at.value, b, MarginKey());
    }
  }

  /** Nothing is lost or counted twice by the grouping. */
  lemma {:induction false} BucketTotals(orders: seq<Order>, l: Loop)
    ensures var bs := Buckets(orders, l);
            && Sum(bs, CountKey()) == Sum(orders, Taken(l, Count()))
            && Sum(bs, CostKey()) == Sum(orders, Taken(l, l.cost))
            && Sum(bs, RevenueKey()) == Sum(orders, Taken(l, l.revenue))
            && Sum(bs, MarginKey()) == Sum(orders, Taken(l, l.margin))
  {
    if orders != [] {
      var before, o := orders[..|orders| - 1], orders[|orders| - 1];
      BucketTotals(before, l);
      if l.key(o).Some? {
        CreditSums(Buckets(before, l), l.key(o).value, l.cost(o), l.revenue(o), l.margin(o));
      }
    }
  }

  /** Sorting keeps the totals. */
  lemma SortedTotals(bs: seq<Bucket>, key: Bucket -> int)
    ensures Sum(SortDown(bs, key), CountKey()) == Sum(bs, CountKey())
    ensures Sum(SortDown(bs, key), CostKey()) == Sum(bs, CostKey())
    ensures Sum(SortDown(bs, key), RevenueKey()) == Sum(bs, RevenueKey())
    ensures Sum(SortDown(bs, key), MarginKey()) == Sum(bs, MarginKey())
  {
    SortDownSum(bs, key, CountKey());
    SortDownSum(bs, key, CostKey());
    SortDownSum(bs, key, RevenueKey());
    SortDownSum(bs, key, MarginKey());
  }

  // ---- the report ----

  function ReportOf(d: Data): Report {
    var paid := PaidOrders(d);
    var margin := Sum(paid, OfItems(d, LineMargin(d)));
    var delivery := Sum(paid, Fee());
    var riders := Sum(d.orders, Trip(d));
    Report(Sum(paid, Final()), delivery, Sum(paid, OfItems(d, LineCogs(d))), margin, riders,
           margin + delivery, margin + delivery - riders,
           Top(SortDown(Buckets(paid, UserLoop(d, false)), MarginKey()), TOP_CUSTOMERS),
           SortDown(Buckets(paid, UserLoop(d, true)), MarginKey()),
           SortDown(Buckets(d.orders, TripLoop(d)), ContributionKey()))
  }

  lemma ItemSplit(d: Data, orders: seq<Order>)
    ensures Sum(orders, OfItems(d, LineCogs(d))) + Sum(orders, OfItems(d, LineMargin(d)))
            == Sum(orders, OfItems(d, LineRevenue()))
  {
    forall i | 0 <= i < |orders|
      ensures OfItems(d, LineCogs(d))(orders[i]) + OfItems(d, LineMargin(d))(orders[i])
              == OfItems(d, LineRevenue())(orders[i])
    {
      SumSplit(ItemsOf(d, orders[i].id), LineCogs(d), LineMargin(d), LineRevenue());
    }
    SumSplit(orders, OfItems(d, LineCogs(d)), OfItems(d, LineMargin(d)), OfItems(d, LineRevenue()));
  }

  /**
   Conservation, for any orders, items, products and riders: costs and margin make up the paid
   line totals, and the net profit is what is left of them; the customer buckets before the cut
   and the retailer buckets together hold all paid orders, sales and margin.
   */
  lemma ReportConserves(d: Data)
    ensures var r := ReportOf(d);
            var paid := PaidOrders(d);
            var customers := SortDown(Buckets(paid, UserLoop(d, false)), MarginKey());
            && r.cogs + r.itemMargin == Sum(paid, OfItems(d, LineRevenue()))
            && r.netProfit == Sum(paid, OfItems(d, LineRevenue())) + r.deliveryRevenue - r.cogs - r.riderCost
            && Sum(customers, CountKey()) + Sum(r.byRetailer, CountKey()) == |paid|
            && Sum(customers, RevenueKey()) + Sum(r.byRetailer, RevenueKey()) == r.salesTotal
            && Sum(customers, MarginKey()) + Sum(r.byRetailer, MarginKey()) == r.itemMargin
  {
    var paid := PaidOrders(d);
    var c, t := UserLoop(d, false), UserLoop(d, true);
    ItemSplit(d, paid);
    BucketTotals(paid, c);
    BucketTotals(paid, t);
    SumSplit(paid, Taken(c, Count()), Taken(t, Count()), Count());
    SumSplit(paid, Taken(c, c.revenue), Taken(t, t.revenue), Final());
    SumSplit(paid, Taken(c, c.margin), Taken(t, t.margin), OfItems(d, LineMargin(d)));
    SumOfOnes(paid);
    SortedTotals(Buckets(paid, c), MarginKey());
    SortedTotals(Buckets(paid, t), MarginKey());
  }

  /** The rider buckets hold every trip, its cost, its order's amount and its items' margin. */
  lemma RidersConserve(d: Data)
    ensures var r := ReportOf(d);
            var l := TripLoop(d);
            && Sum(r.byRider, CountKey()) == Sum(d.orders, Taken(l, Count()))
            && Sum(r.byRider, CostKey()) == r.riderCost
            && Sum(r.byRider, RevenueKey()) == Sum(d.orders, Taken(l, Final()))
            && Sum(r.byRider, MarginKey()) == Sum(d.orders, Taken(l, OfItems(d, RiderLineMargin())))
  {
    var l := TripLoop(d);
    BucketTotals(d.orders, l);
    SortedTotals(Buckets(d.orders, l), ContributionKey());
    SumZero(d.orders, Zero());
    SumSplit(d.orders, Taken(l, l.cost), Zero(), Trip(d));
  }

  /** What the rider loop leaves out: the product's cost of items that carry none of their own. */
  function Fallback(d: Data): Item -> int {
    (it: Item) => if it.unitCost > 0 then 0 else (Cost(d, it) - it.unitCost) * it.quantity
  }

  lemma FallbackOfItem(d: Data, it: Item)
    ensures LineMargin(d)(it) + Fallback(d)(it) == RiderLineMargin()(it)
  {
    var c, u, q := Cost(d, it), it.unitCost, it.quantity;
    assert (c - u) * q == c * q - u * q;
  }

  lemma FallbackOfOrder(d: Data, o: Order)
    ensures OfItems(d, LineMargin(d))(o) + OfItems(d, Fallback(d))(o) == OfItems(d, RiderLineMargin())(o)
  {
    forall i | 0 <= i < |ItemsOf(d, o.id)|
      ensures LineMargin(d)(ItemsOf(d, o.id)[i]) + Fallback(d)(ItemsOf(d, o.id)[i])
              == RiderLineMargin()(ItemsOf(d, o.id)[i])
    {
      FallbackOfItem(d, ItemsOf(d, o.id)[i]);
    }
    hide LineMargin, Fallback, RiderLineMargin, ItemsOf, Sum;
    SumSplit(ItemsOf(d, o.id), LineMargin(d), Fallback(d), RiderLineMargin());
  }

  /**
   The rider buckets do not use the margin of the rest of the report: over the same trips theirs is
   higher by exactly the product costs of items without a cost of their own.
   */
  lemma RiderMarginGap(d: Data)
    ensures var l := TripLoop(d);
            Sum(ReportOf(d).byRider, MarginKey()) ==
            Sum(d.orders, Taken(l, OfItems(d, LineMargin(d)))) + Sum(d.orders, Taken(l, OfItems(d, Fallback(d))))
  {
    var l := TripLoop(d);
    RidersConserve(d);
    forall i | 0 <= i < |d.orders|
      ensures Taken(l, OfItems(d, LineMargin(d)))(d.orders[i]) + Taken(l, OfItems(d, Fallback(d)))(d.orders[i])
           == Taken(l, OfItems(d, RiderLineMargin()))(d.orders[i])
    {
      FallbackOfOrder(d, d.orders[i]);
    }
    hide ReportOf, OfItems, Sum, TripLoop;
    SumSplit(d.orders, Taken(l, OfItems(d, LineMargin(d))), Taken(l, OfItems(d, Fallback(d))),
             Taken(l, OfItems(d, RiderLineMargin())));
  }

  lemma {:induction false} SumOfOnes(orders: seq<Order>)
    ensures Sum(orders, Count()) == |orders|
  {
    if orders != [] {
      SumOfOnes(orders[..|orders| - 1]);
    }
  }

  /** The cut keeps at most forty customers, none with less margin than one it drops. */
  lemma CutKeepsTheBest(d: Data)
    ensures var all := Buckets(PaidOrders(d), UserLoop(d, false));
            var sorted := SortDown(all, MarginKey());
            var kept := ReportOf(d).byCustomer;
            && multiset(sorted) == multiset(all) && |kept| <= 40 && kept <= sorted
            && (|kept| < 40 ==> kept == sorted)
            && forall i, j :: 0 <= i < |kept| <= j < |sorted| ==> kept[i].margin >= sorted[j].margin
  {
    SortDownSorts(Buckets(PaidOrders(d), UserLoop(d, false)), MarginKey());
    var sorted := SortDown(Buckets(PaidOrders(d), UserLoop(d, false)), MarginKey());
    var kept := ReportOf(d).byCustomer;
    forall i, j | 0 <= i < |kept| <= j < |sorted|
      ensures kept[i].margin >= sorted[j].margin
    {
      assert MarginKey()(sorted[i]) >= MarginKey()(sorted[j]);
    }
  }

  // ---- the code itself ----

  lemma PrefixSum<T>(xs: seq<T>, i: nat, f: T -> int)
    requires i < |xs|
    ensures Sum(xs[..i + 1], f) == Sum(xs[..i], f) + f(xs[i])
  {
    assert xs[..i + 1] == xs[..i] + [xs[i]];
    SumSnoc(xs[..i], xs[i], f);
  }

  function Group(groups: map<nat, seq<Item>>, order: nat): seq<Item> {
    if order in groups then groups[order] else []
  }

  method GroupItems(d: Data) returns (groups: map<nat, seq<Item>>)
    ensures forall o :: o in d.orders ==> Group(groups, o.id) == ItemsOf(d, o.id)
  {
    groups := map[];
    var ids := set o | o in d.orders :: o.id;
    for i := 0 to |d.items|
      invariant forall id :: id in ids ==> Group(groups, id) == Filter(d.items[..i], InOrder(id))
    {
      var item := d.items[i];
      var before, after := d.items[..i], d.items[..i + 1];
      forall id
        ensures Filter(after, InOrder(id)) == Filter(before, InOrder(id)) + if item.order == id then [item] else []
      {
        FilterSnoc(d.items, i, InOrder(id));
      }
      if item.order in ids {
        groups := groups[item.order := Group(groups, item.order) + [item]];
      }
    }
    assert d.items[..|d.items|] == d.items;
    forall o | o in d.orders
      ensures o.id in ids
    {
    }
  }

  method SelectPaid(d: Data) returns (paid: seq<Order>)
    ensures paid == PaidOrders(d)
    ensures forall o :: o in paid <==>
              && o in d.orders
              && (o.paymentStatus == "paid" || (o.orderType == "b2b_shop_order" && o.status == "delivered"))
  {
    paid := [];
    var p := (o: Order) => IsPaid(o);
    for i := 0 to |d.orders|
      invariant paid == Filter(d.orders[..i], p)
      invariant forall o :: o in paid <==> o in d.orders[..i] && IsPaid(o)
    {
      FilterSnoc(d.orders, i, p);
      if IsPaid(d.orders[i]) {
        paid := paid + [d.orders[i]];
      }
    }
    assert d.orders[..|d.orders|] == d.orders;
  }

  /** The cost-of-goods loop over one order's items. */
  method CostLoop(d: Data, items: seq<Item>, cogs0: int, margin0: int) returns (cogs: int, margin: int)
    ensures cogs == cogs0 + Sum(items, LineCogs(d)) && margin == margin0 + Sum(items, LineMargin(d))
  {
    cogs, margin := cogs0, margin0;
    for i := 0 to |items|
      invariant cogs == cogs0 + Sum(items[..i], LineCogs(d))
      invariant margin == margin0 + Sum(items[..i], LineMargin(d))
    {
      PrefixSum(items, i, LineCogs(d));
      PrefixSum(items, i, LineMargin(d));
      var cost := items[i].unitCost;
      if cost <= 0 {
        cost := if items[i].product in d.purchaseCost then d.purchaseCost[items[i].product] else 0;
      }
      var lineCogs := cost * items[i].quantity;
      cogs := cogs + lineCogs;
      margin := margin + (items[i].totalPrice - lineCogs);
    }
    assert items[..|items|] == items;
  }

  method Totals(d: Data, paid: seq<Order>, groups: map<nat, seq<Item>>)
    returns (sales: int, delivery: int, cogs: int, margin: int)
    requires forall o :: o in paid ==> Group(groups, o.id) == ItemsOf(d, o.id)
    ensures sales == Sum(paid, Final()) && delivery == Sum(paid, Fee())
    ensures cogs == Sum(paid, OfItems(d, LineCogs(d))) && margin == Sum(paid, OfItems(d, LineMargin(d)))
  {
    sales, delivery, cogs, margin := 0, 0, 0, 0;
    for i := 0 to |paid|
      invariant sales == Sum(paid[..i], Final()) && delivery == Sum(paid[..i], Fee())
      invariant cogs == Sum(paid[..i], OfItems(d, LineCogs(d))) && margin == Sum(paid[..i], OfItems(d, LineMargin(d)))
    {
      PrefixSum(paid, i, Final());
      PrefixSum(paid, i, Fee());
      PrefixSum(paid, i, OfItems(d, LineCogs(d)));
      PrefixSum(paid, i, OfItems(d, LineMargin(d)));
      sales := sales + paid[i].finalAmount;
      delivery := delivery + paid[i].deliveryFee;
      cogs, margin := CostLoop(d, Group(groups, paid[i].id), cogs, margin);
    }
    assert paid[..|paid|] == paid;
  }

  /** The by-customer and by-retailer loop. */
  method CustomerLoop(d: Data, paid: seq<Order>, groups: map<nat, seq<Item>>)
    returns (customers: seq<Bucket>, retailers: seq<Bucket>)
    requires forall o :: o in paid ==> Group(groups, o.id) == ItemsOf(d, o.id)
    ensures customers == Buckets(paid, UserLoop(d, false)) && retailers == Buckets(paid, UserLoop(d, true))
  {
    customers, retailers := [], [];
    for i := 0 to |paid|
      invariant customers == Buckets(paid[..i], UserLoop(d, false))
      invariant retailers == Buckets(paid[..i], UserLoop(d, true))
    {
      var o := paid[i];
      assert paid[..i + 1][..i] == paid[..i];
      var _, margin := CostLoop(d, Group(groups, o.id), 0, 0);
      if IsB2b(o) {
        retailers := Credit(retailers, o.user, 0, o.finalAmount, margin);
      } else {
        customers := Credit(customers, o.user, 0, o.finalAmount, margin);
      }
    }
    assert paid[..|paid|] == paid;
  }

  method RiderLoop(d: Data, groups: map<nat, seq<Item>>) returns (riderCost: int, buckets: seq<Bucket>)
    requires forall o :: o in d.orders ==> Group(groups, o.id) == ItemsOf(d, o.id)
    ensures riderCost == Sum(d.orders, Trip(d)) && buckets == Buckets(d.orders, TripLoop(d))
  {
    riderCost, buckets := 0, [];
    for i := 0 to |d.orders|
      invariant riderCost == Sum(d.orders[..i], Trip(d)) && buckets == Buckets(d.orders[..i], TripLoop(d))
    {
      var o := d.orders[i];
      assert d.orders[..i + 1][..i] == d.orders[..i];
      PrefixSum(d.orders, i, Trip(d));
      if o.status == "delivered" && o.rider.Some? && o.rider.value != 0 {
        var trip := TripCost(d, o.rider.value);
        riderCost := riderCost + trip;
        var items, margin := Group(groups, o.id), 0;
        for k := 0 to |items|
          invariant margin == Sum(items[..k], RiderLineMargin())
        {
          PrefixSum(items, k, RiderLineMargin());
          margin := margin + items[k].totalPrice - items[k].unitCost * items[k].quantity;
        }
        assert items[..|items|] == items;
        buckets := Credit(buckets, o.rider.value, trip, o.finalAmount, margin);
      }
    }
    assert d.orders[..|d.orders|] == d.orders;
  }

  method MakeReport(d: Data) returns (r: Report)
    ensures r == ReportOf(d)
  {
    var groups := GroupItems(d);
    var paid := SelectPaid(d);
    var sales, delivery, cogs, margin := Totals(d, paid, groups);
    var riderCost, riders := RiderLoop(d, groups);
    var customers, retailers := CustomerLoop(d, paid, groups);
    var gross := margin + delivery;
    r := Report(sales, delivery, cogs, margin, riderCost, gross, gross - riderCost,
                Top(SortDown(customers, MarginKey()), TOP_CUSTOMERS),
                SortDown(retailers, MarginKey()),
                SortDown(riders, ContributionKey()));
  }
}
