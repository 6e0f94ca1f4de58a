/** The sales report: totals over the orders created in an inclusive date
    range, per-product and per-category tallies, and the ten customers with
    the highest lifetime value. The report changes no stored state. */
module Reporting {
  import opened Wrappers
  import opened Domain
  import opened Store
  import opened Inventory
  import opened Customers

  datatype Report = Report(total_sales: real, total_orders: int, cancelled_orders: int,
                           products_sold: map<string, int>, revenue_by_category: map<string, real>,
                           top_customers: seq<(string, real)>)

  // ---------------------------------------------------------------------
  // Specification: the order totals

  /** The date filter, inclusive at both ends. */
  predicate InRange(order: Order, start_date: int, end_date: int)
  {
    start_date <= order.created_at <= end_date
  }

  /** Whether the order at key `k` contributes to the sales figures. */
  predicate Counted(orders: map<int, Order>, k: int, start_date: int, end_date: int)
    reads orders.Values`status
  {
    k in orders && InRange(orders[k], start_date, end_date) && orders[k].status != Cancelled
  }

  /** Whether the order at key `k` is an in-range cancellation. */
  predicate CountedCancelled(orders: map<int, Order>, k: int, start_date: int, end_date: int)
    reads orders.Values`status
  {
    k in orders && InRange(orders[k], start_date, end_date) && orders[k].status == Cancelled
  }

  function SalesTotal(keys: seq<int>, orders: map<int, Order>, start_date: int, end_date: int): real
    reads orders.Values`status, orders.Values`total_price
    decreases |keys|
  {
    if keys == [] then 0.0
    else
      var k := keys[|keys| - 1];
      SalesTotal(keys[..|keys| - 1], orders, start_date, end_date)
        + (if Counted(orders, k, start_date, end_date) then orders[k].total_price else 0.0)
  }

  function OrderCount(keys: seq<int>, orders: map<int, Order>, start_date: int, end_date: int): int
    reads orders.Values`status
    decreases |keys|
  {
    if keys == [] then 0
    else
      OrderCount(keys[..|keys| - 1], orders, start_date, end_date)
        + (if Counted(orders, keys[|keys| - 1], start_date, end_date) then 1 else 0)
  }

  function CancelledCount(keys: seq<int>, orders: map<int, Order>, start_date: int, end_date: int): int
    reads orders.Values`status
    decreases |keys|
  {
    if keys == [] then 0
    else
      CancelledCount(keys[..|keys| - 1], orders, start_date, end_date)
        + (if CountedCancelled(orders, keys[|keys| - 1], start_date, end_date) then 1 else 0)
  }

  /** The number of stored orders created in the range. */
  function InRangeCount(keys: seq<int>, orders: map<int, Order>, start_date: int, end_date: int): int
    decreases |keys|
  {
    if keys == [] then 0
    else
      var k := keys[|keys| - 1];
      InRangeCount(keys[..|keys| - 1], orders, start_date, end_date)
        + (if k in orders && InRange(orders[k], start_date, end_date) then 1 else 0)
  }

  /** Every in-range order is counted exactly once: as a sale or as a
      cancellation. */
  lemma {:induction false} CountsPartition(keys: seq<int>, orders: map<int, Order>, start_date: int, end_date: int)
    ensures OrderCount(keys, orders, start_date, end_date) + CancelledCount(keys, orders, start_date, end_date)
            == InRangeCount(keys, orders, start_date, end_date)
    ensures 0 <= OrderCount(keys, orders, start_date, end_date) && 0 <= CancelledCount(keys, orders, start_date, end_date)
    decreases |keys|
  {
    if keys != [] {
      CountsPartition(keys[..|keys| - 1], orders, start_date, end_date);
    }
  }

  // ---------------------------------------------------------------------
  // Specification: the tallies

  /** A tally's value for a key, 0 when absent. */
  function CountOf(m: map<string, int>, k: string): int
  {
    if k in m then m[k] else 0
  }

  function AmountOf(m: map<string, real>, k: string): real
  {
    if k in m then m[k] else 0.0
  }

  /** The products-sold tally after one order's lines: each line of a
      catalogue product adds its quantity under the product's id. */
  function SoldItems(sold: map<string, int>, items: seq<OrderItem>, products: map<string, Product>): map<string, int>
    decreases |items|
  {
    if items == [] then sold
    else
      var prev := SoldItems(sold, items[..|items| - 1], products);
      var item := items[|items| - 1];
      if item.product_id in products then prev[item.product_id := CountOf(prev, item.product_id) + item.quantity]
      else prev
  }

  /** The revenue tally after one order's lines: each line of a catalogue
      product adds quantity × unit price under the product's category. */
  function RevenueItems(revenue: map<string, real>, items: seq<OrderItem>, products: map<string, Product>): map<string, real>
    decreases |items|
  {
    if items == [] then revenue
    else
      var prev := RevenueItems(revenue, items[..|items| - 1], products);
      var item := items[|items| - 1];
      if item.product_id in products then
        var category := products[item.product_id].category;
        prev[category := AmountOf(prev, category) + item.quantity as real * item.unit_price]
      else prev
  }

  /** One unfolding of `RevenueItems` at a catalogue line. */
  lemma RevenueItemsStep(revenue: map<string, real>, items: seq<OrderItem>, products: map<string, Product>)
    requires items != [] && items[|items| - 1].product_id in products
    ensures var init, item := items[..|items| - 1], items[|items| - 1];
            var category := products[item.product_id].category;
            RevenueItems(revenue, items, products)
            == RevenueItems(revenue, init, products)[category := AmountOf(RevenueItems(revenue, init, products), category)
                                                                 + item.quantity as real * item.unit_price]
  {
  }

  /** One more catalogue line adds its amount under its product's category. */
  lemma RevenueItemsSnoc(revenue: map<string, real>, init: seq<OrderItem>, item: OrderItem,
                         products: map<string, Product>)
    requires item.product_id in products
    ensures var prev, category := RevenueItems(revenue, init, products), products[item.product_id].category;
            RevenueItems(revenue, init + [item], products)
            == prev[category := AmountOf(prev, category) + item.quantity as real * item.unit_price]
  {
    var items := init + [item];
    assert items[..|items| - 1] == init && items[|items| - 1] == item;
    RevenueItemsStep(revenue, items, products);
    assert items[|items| - 1].quantity as real * items[|items| - 1].unit_price
           == item.quantity as real * item.unit_price;
  }

  function ProductsSold(keys: seq<int>, orders: map<int, Order>, products: map<string, Product>,
                        start_date: int, end_date: int): map<string, int>
    reads orders.Values`status
    decreases |keys|
  {
    if keys == [] then map[]
    else
      var prev := ProductsSold(keys[..|keys| - 1], orders, products, start_date, end_date);
      var k := keys[|keys| - 1];
      if Counted(orders, k, start_date, end_date) then SoldItems(prev, orders[k].items, products) else prev
  }

  function RevenueByCategory(keys: seq<int>, orders: map<int, Order>, products: map<string, Product>,
                             start_date: int, end_date: int): map<string, real>
    reads orders.Values`status
    decreases |keys|
  {
    if keys == [] then map[]
    else
      var prev := RevenueByCategory(keys[..|keys| - 1], orders, products, start_date, end_date);
      var k := keys[|keys| - 1];
      if Counted(orders, k, start_date, end_date) then RevenueItems(prev, orders[k].items, products) else prev
  }

  /** One order's lines add, for each catalogue product, the total quantity
      its lines request; other products are not tallied. */
  lemma {:induction false} SoldItemsAt(sold: map<string, int>, items: seq<OrderItem>, products: map<string, Product>, pid: string)
    ensures CountOf(SoldItems(sold, items, products), pid)
            == CountOf(sold, pid) + (if pid in products then QuantityOf(items, pid) else 0)
    ensures pid in SoldItems(sold, items, products) ==> pid in sold || pid in products
    decreases |items|
  {
    if items != [] {
      SoldItemsAt(sold, items[..|items| - 1], products, pid);
    }
  }

  /** Only catalogue products appear in the products-sold tally. */
  lemma {:induction false} ProductsSoldKeys(keys: seq<int>, orders: map<int, Order>, products: map<string, Product>,
                                           start_date: int, end_date: int, pid: string)
    requires pid in ProductsSold(keys, orders, products, start_date, end_date)
    ensures pid in products
    decreases |keys|
  {
    if keys != [] {
      var init := keys[..|keys| - 1];
      var k := keys[|keys| - 1];
      if Counted(orders, k, start_date, end_date) {
        SoldItemsAt(ProductsSold(init, orders, products, start_date, end_date), orders[k].items, products, pid);
        if pid in ProductsSold(init, orders, products, start_date, end_date) {
          ProductsSoldKeys(init, orders, products, start_date, end_date, pid);
        }
      } else {
        ProductsSoldKeys(init, orders, products, start_date, end_date, pid);
      }
    }
  }

  /** Only categories of catalogue products appear in the revenue tally. */
  lemma {:induction false} RevenueItemsKeys(revenue: map<string, real>, items: seq<OrderItem>, products: map<string, Product>, c: string)
    requires c in RevenueItems(revenue, items, products)
    ensures c in revenue || exists p :: p in products && products[p].category == c
    decreases |items|
  {
    if items != [] {
      var init := items[..|items| - 1];
      var item := items[|items| - 1];
      if c in RevenueItems(revenue, init, products) {
        RevenueItemsKeys(revenue, init, products, c);
      } else {
        assert item.product_id in products && products[item.product_id].category == c;
      }
    }
  }

  /** Over the whole report, only categories of catalogue products appear
      in the revenue tally. */
  lemma {:induction false} RevenueByCategoryKeys(keys: seq<int>, orders: map<int, Order>, products: map<string, Product>,
                                                start_date: int, end_date: int, c: string)
    requires c in RevenueByCategory(keys, orders, products, start_date, end_date)
    ensures exists p :: p in products && products[p].category == c
    decreases |keys|
  {
    if keys != [] {
      var init := keys[..|keys| - 1];
      var k := keys[|keys| - 1];
      var prev := RevenueByCategory(init, orders, products, start_date, end_date);
      if Counted(orders, k, start_date, end_date) {
        RevenueItemsKeys(prev, orders[k].items, products, c);
        if c in prev {
          RevenueByCategoryKeys(init, orders, products, start_date, end_date, c);
        }
      } else {
        RevenueByCategoryKeys(init, orders, products, start_date, end_date, c);
      }
    }
  }

  // ---------------------------------------------------------------------
  // Specification: the top customers

  /** The (customer id, lifetime value) pairs, in customer insertion order. */
  function Spending(keys: seq<string>, customers: map<string, Customer>, orders: map<int, Order>): (r: seq<(string, real)>)
    reads customers.Values`order_history, orders.Values`status, orders.Values`total_price
    ensures |r| == |keys|
    ensures forall i :: 0 <= i < |keys| ==> r[i] == (keys[i], LifetimeValue(customers, orders, keys[i]))
    decreases |keys|
  {
    if keys == [] then []
    else
      var k := keys[|keys| - 1];
      Spending(keys[..|keys| - 1], customers, orders) + [(k, LifetimeValue(customers, orders, k))]
  }

  predicate SortedDesc(s: seq<(string, real)>)
  {
    forall i, j :: 0 <= i < j < |s| ==> s[i].1 >= s[j].1
  }

  /** Inserts a pair before the first strictly smaller value, that is, after
      every pair of equal value: the step of a stable descending sort. */
  function InsertDesc(p: (string, real), s: seq<(string, real)>): (r: seq<(string, real)>)
    ensures |r| == |s| + 1
    decreases |s|
  {
    if s == [] then [p]
    else if s[0].1 < p.1 then [p] + s
    else [s[0]] + InsertDesc(p, s[1..])
  }

  /** Insertion adds the pair and loses nothing. */
  lemma {:induction false} InsertDescPermutation(p: (string, real), s: seq<(string, real)>)
    ensures multiset(InsertDesc(p, s)) == multiset(s) + multiset{p}
    decreases |s|
  {
    if s != [] && !(s[0].1 < p.1) {
      InsertDescPermutation(p, s[1..]);
      assert s == [s[0]] + s[1..];
    }
  }

  /** Every value in `s` is at most `bound`. */
  predicate AtMost(s: seq<(string, real)>, bound: real)
  {
    forall i :: 0 <= i < |s| ==> s[i].1 <= bound
  }

  /** Insertion keeps a common upper bound. */
  lemma {:induction false} InsertDescAtMost(p: (string, real), s: seq<(string, real)>, bound: real)
    requires AtMost(s, bound) && p.1 <= bound
    ensures AtMost(InsertDesc(p, s), bound)
    decreases |s|
  {
    if s != [] && !(s[0].1 < p.1) {
      InsertDescAtMost(p, s[1..], bound);
    }
  }

  /** Insertion into a descending sequence keeps it descending. */
  lemma {:induction false} InsertDescSorted(p: (string, real), s: seq<(string, real)>)
    requires SortedDesc(s)
    ensures SortedDesc(InsertDesc(p, s))
    decreases |s|
  {
    if s != [] && !(s[0].1 < p.1) {
      var rest := InsertDesc(p, s[1..]);
      InsertDescSorted(p, s[1..]);
      InsertDescAtMost(p, s[1..], s[0].1);
      var r := [s[0]] + rest;
      forall i, j | 0 <= i < j < |r|
        ensures r[i].1 >= r[j].1
      {
        assert r[j] == rest[j - 1];
        if i > 0 {
          assert r[i] == rest[i - 1];
        }
      }
    }
  }

  /** `sorted(..., key=value, reverse=True)`: descending by value, stable. */
  function SortDesc(s: seq<(string, real)>): (r: seq<(string, real)>)
    ensures |r| == |s|
    decreases |s|
  {
    if s == [] then [] else InsertDesc(s[|s| - 1], SortDesc(s[..|s| - 1]))
  }

  /** The sorted sequence is descending and a permutation of its input. */
  lemma {:induction false} SortDescSpec(s: seq<(string, real)>)
    ensures multiset(SortDesc(s)) == multiset(s)
    ensures SortedDesc(SortDesc(s))
    decreases |s|
  {
    if s != [] {
      var init := s[..|s| - 1];
      SortDescSpec(init);
      InsertDescPermutation(s[|s| - 1], SortDesc(init));
      InsertDescSorted(s[|s| - 1], SortDesc(init));
      assert s == init + [s[|s| - 1]];
    }
  }

  /** The pairs of `s` whose value is `v`, in their order in `s`. */
  function WithValue(s: seq<(string, real)>, v: real): seq<(string, real)>
    decreases |s|
  {
    if s == [] then [] else (if s[0].1 == v then [s[0]] else []) + WithValue(s[1..], v)
  }

  lemma {:induction false} WithValueAppend(a: seq<(string, real)>, b: seq<(string, real)>, v: real)
    ensures WithValue(a + b, v) == WithValue(a, v) + WithValue(b, v)
    decreases |a|
  {
    if a != [] {
      assert (a + b)[1..] == a[1..] + b;
      WithValueAppend(a[1..], b, v);
    } else {
      assert a + b == b;
    }
  }

  /** No pair of `s` reaches `v`, so none has value `v`. */
  lemma {:induction false} WithValueBelow(s: seq<(string, real)>, v: real)
    requires forall i :: 0 <= i < |s| ==> s[i].1 < v
    ensures WithValue(s, v) == []
    decreases |s|
  {
    if s != [] {
      WithValueBelow(s[1..], v);
    }
  }

  /** In a descending sequence the new pair goes after every pair of its
      value, so it joins the end of its value's run. */
  lemma {:induction false} InsertDescStable(p: (string, real), s: seq<(string, real)>, v: real)
    requires SortedDesc(s)
    ensures WithValue(InsertDesc(p, s), v) == WithValue(s, v) + (if p.1 == v then [p] else [])
    decreases |s|
  {
    if s == [] {
      assert WithValue([p], v) == (if p.1 == v then [p] else []) + WithValue([], v);
    } else if s[0].1 < p.1 {
      assert ([p] + s)[1..] == s;
      if p.1 == v {
        WithValueBelow(s, v);
      }
    } else {
      InsertDescStable(p, s[1..], v);
      assert ([s[0]] + InsertDesc(p, s[1..]))[1..] == InsertDesc(p, s[1..]);
    }
  }

  /** The sort is stable: for every value, the pairs of that value appear in
      the sorted sequence in their input order. */
  lemma {:induction false} SortDescStable(s: seq<(string, real)>, v: real)
    ensures WithValue(SortDesc(s), v) == WithValue(s, v)
    decreases |s|
  {
    if s != [] {
      var init, last := s[..|s| - 1], s[|s| - 1];
      SortDescStable(init, v);
      SortDescSpec(init);
      InsertDescStable(last, SortDesc(init), v);
      assert s == init + [last];
      WithValueAppend(init, [last], v);
      assert WithValue([last], v) == (if last.1 == v then [last] else []) + WithValue([], v);
    }
  }

  /** The first ten of the sorted pairs. */
  function TopCustomers(spending: seq<(string, real)>): seq<(string, real)>
  {
    var sorted := SortDesc(spending);
    if |sorted| <= 10 then sorted else sorted[..10]
  }

  /** The top list is sorted by value, holds min(10, n) of the pairs, and
      no pair left out has a larger value than any pair listed. */
  lemma TopCustomersSpec(spending: seq<(string, real)>)
    ensures var top := TopCustomers(spending);
            && SortedDesc(top)
            && |top| == (if |spending| <= 10 then |spending| else 10)
            && multiset(top) <= multiset(spending)
            && forall x, y :: x in spending && x !in top && y in top ==> y.1 >= x.1
  {
    var sorted := SortDesc(spending);
    var top := TopCustomers(spending);
    SortDescSpec(spending);
    if |sorted| > 10 {
      assert sorted == top + sorted[10..];
      assert multiset(sorted) == multiset(top) + multiset(sorted[10..]);
      forall x, y | x in spending && x !in top && y in top
        ensures y.1 >= x.1
      {
        assert x in multiset(sorted);
        var i :| 0 <= i < |sorted| && sorted[i] == x;
        var j :| 0 <= j < |top| && top[j] == y;
        assert i >= 10;
      }
    } else {
      forall x | x in spending
        ensures x in top
      {
        assert x in multiset(sorted);
      }
    }
  }

  // ---------------------------------------------------------------------
  // The report

  /** The whole report as a function of the store's contents. */
  function SalesReport(order_keys: seq<int>, orders: map<int, Order>, products: map<string, Product>,
                       customer_keys: seq<string>, customers: map<string, Customer>,
                       start_date: int, end_date: int): Report
    reads orders.Values`status, orders.Values`total_price, customers.Values`order_history
  {
    Report(SalesTotal(order_keys, orders, start_date, end_date),
           OrderCount(order_keys, orders, start_date, end_date),
           CancelledCount(order_keys, orders, start_date, end_date),
           ProductsSold(order_keys, orders, products, start_date, end_date),
           RevenueByCategory(order_keys, orders, products, start_date, end_date),
           TopCustomers(Spending(customer_keys, customers, orders)))
  }

  /** An empty store gives the all-zero report. */
  lemma EmptyStoreReport(orders: map<int, Order>, products: map<string, Product>, customers: map<string, Customer>,
                         start_date: int, end_date: int)
    ensures SalesReport([], orders, products, [], customers, start_date, end_date) == Report(0.0, 0, 0, map[], map[], [])
  {
  }

  /** One order's lines: the inner tally loop. */
  method TallyOrder(store: DataStore, items: seq<OrderItem>, sold0: map<string, int>, revenue0: map<string, real>)
    returns (sold: map<string, int>, revenue: map<string, real>)
    requires store.Valid()
    ensures sold == SoldItems(sold0, items, store.products)
    ensures revenue == RevenueItems(revenue0, items, store.products)
  {
    sold, revenue := sold0, revenue0;
    var j := 0;
    while j < |items|
      invariant 0 <= j <= |items|
      invariant sold == SoldItems(sold0, items[..j], store.products)
      invariant revenue == RevenueItems(revenue0, items[..j], store.products)
    {
      var item := items[j];
      assert items[..j + 1][..j] == items[..j];
      var product := store.GetProduct(item.product_id);
      if product.Some? {
        var p := product.value;
        assert p == store.products[item.product_id] && p.product_id == item.product_id;
        assert items[..j + 1] == items[..j] + [item];
        sold := sold[p.product_id := CountOf(sold, p.product_id) + item.quantity];
        RevenueItemsSnoc(revenue0, items[..j], item, store.products);
        revenue := revenue[p.category := AmountOf(revenue, p.category) + item.quantity as real * item.unit_price];
      }
      j := j + 1;
    }
    assert items[..j] == items;
  }

  /** The order half of the report: one pass over the orders in insertion
      order. */
  method OrderFigures(store: DataStore, start_date: int, end_date: int)
    returns (total_sales: real, total_orders: int, cancelled_orders: int,
             products_sold: map<string, int>, revenue_by_category: map<string, real>)
    requires store.Valid()
    ensures total_sales == SalesTotal(store.order_keys, store.orders, start_date, end_date)
    ensures total_orders == OrderCount(store.order_keys, store.orders, start_date, end_date)
    ensures cancelled_orders == CancelledCount(store.order_keys, store.orders, start_date, end_date)
    ensures products_sold == ProductsSold(store.order_keys, store.orders, store.products, start_date, end_date)
    ensures revenue_by_category == RevenueByCategory(store.order_keys, store.orders, store.products, start_date, end_date)
  {
    total_sales, total_orders, cancelled_orders := 0.0, 0, 0;
    products_sold, revenue_by_category := map[], map[];
    var keys := store.order_keys;
    var i := 0;
    while i < |keys|
      invariant 0 <= i <= |keys|
      invariant total_sales == SalesTotal(keys[..i], store.orders, start_date, end_date)
      invariant total_orders == OrderCount(keys[..i], store.orders, start_date, end_date)
      invariant cancelled_orders == CancelledCount(keys[..i], store.orders, start_date, end_date)
      invariant products_sold == ProductsSold(keys[..i], store.orders, store.products, start_date, end_date)
      invariant revenue_by_category == RevenueByCategory(keys[..i], store.orders, store.products, start_date, end_date)
    {
      assert keys[..i + 1][..i] == keys[..i];
      assert keys[i] in store.orders;
      var order := store.orders[keys[i]];
      if start_date <= order.created_at <= end_date {
        if order.status != Cancelled {
          total_sales := total_sales + order.total_price;
          total_orders := total_orders + 1;
          products_sold, revenue_by_category := TallyOrder(store, order.items, products_sold, revenue_by_category);
        } else {
          cancelled_orders := cancelled_orders + 1;
        }
      }
      i := i + 1;
    }
    assert keys[..i] == keys;
  }

  /** Every customer's lifetime value, in customer insertion order. */
  method CustomerSpending(store: DataStore) returns (spending: seq<(string, real)>)
    requires store.Valid()
    ensures spending == Spending(store.customer_keys, store.customers, store.orders)
  {
    spending := [];
    var keys := store.customer_keys;
    var c := 0;
    while c < |keys|
      invariant 0 <= c <= |keys|
      invariant spending == Spending(keys[..c], store.customers, store.orders)
    {
      assert keys[..c + 1][..c] == keys[..c];
      var ltv := GetCustomerLifetimeValue(store, keys[c]);
      spending := spending + [(keys[c], ltv)];
      c := c + 1;
    }
    assert keys[..c] == keys;
  }

  /** `generate_sales_report`: read-only; the report equals `SalesReport` of
      the store. */
  method GenerateSalesReport(store: DataStore, start_date: int, end_date: int) returns (report: Report)
    requires store.Valid()
    ensures report == SalesReport(store.order_keys, store.orders, store.products,
                                  store.customer_keys, store.customers, start_date, end_date)
  {
    var total_sales, total_orders, cancelled_orders, products_sold, revenue_by_category :=
      OrderFigures(store, start_date, end_date);
    var customer_spending := CustomerSpending(store);
    var sorted_customers := SortDesc(customer_spending);
    var top := if |sorted_customers| <= 10 then sorted_customers else sorted_customers[..10];
    report := Report(total_sales, total_orders, cancelled_orders, products_sold, revenue_by_category, top);
  }
}
