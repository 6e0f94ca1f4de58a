/** The inventory ledger: the availability pre-check, stock deduction and
    restoration with their audit entries, restocking with the supplier
    guard, and the two low-stock scans. Each method is proved against a
    function of the store's stock map, and stock conservation is proved
    about those functions. */
module Inventory {
  import opened Wrappers
  import opened Text
  import opened Domain
  import opened Store

  // ---------------------------------------------------------------------
  // Specification functions

  /** The total quantity the lines request of one product. */
  function QuantityOf(lines: seq<OrderItem>, product_id: string): int
    decreases |lines|
  {
    if lines == [] then 0
    else
      var last := lines[|lines| - 1];
      QuantityOf(lines[..|lines| - 1], product_id) + (if last.product_id == product_id then last.quantity else 0)
  }

  /** One line's effect on the stock map: `sign` × quantity on its product,
      nothing when the product is not in the catalogue. */
  function ApplyLine(stock: map<string, int>, line: OrderItem, sign: int): map<string, int>
  {
    if line.product_id in stock then stock[line.product_id := stock[line.product_id] + sign * line.quantity]
    else stock
  }

  /** The stock map after applying the lines one after another. */
  function Shifted(stock: map<string, int>, lines: seq<OrderItem>, sign: int): (r: map<string, int>)
    ensures r.Keys == stock.Keys
    decreases |lines|
  {
    if lines == [] then stock
    else ApplyLine(Shifted(stock, lines[..|lines| - 1], sign), lines[|lines| - 1], sign)
  }

  /** The stock after `deduct_stock_and_log`. */
  function Deducted(stock: map<string, int>, lines: seq<OrderItem>): map<string, int>
  {
    Shifted(stock, lines, -1)
  }

  /** The stock after `restore_stock` of an order with these lines. */
  function Restored(stock: map<string, int>, lines: seq<OrderItem>): map<string, int>
  {
    Shifted(stock, lines, 1)
  }

  /** Applying the lines moves a catalogue product by `sign` times the
      total the lines request of it. */
  lemma {:induction false} ShiftedAt(stock: map<string, int>, lines: seq<OrderItem>, sign: int, k: string)
    requires k in stock
    ensures Shifted(stock, lines, sign)[k] == stock[k] + sign * QuantityOf(lines, k)
    decreases |lines|
  {
    if lines != [] {
      var init := lines[..|lines| - 1];
      ShiftedAt(stock, init, sign, k);
      assert sign * QuantityOf(lines, k) == sign * QuantityOf(init, k)
        + sign * (if lines[|lines| - 1].product_id == k then lines[|lines| - 1].quantity else 0);
    }
  }

  /** Stock conservation: restoring the lines that were deducted gives back
      every product's stock exactly, and so does the reverse order. */
  lemma StockConservation(stock: map<string, int>, lines: seq<OrderItem>)
    ensures Restored(Deducted(stock, lines), lines) == stock
    ensures Deducted(Restored(stock, lines), lines) == stock
  {
    forall k | k in stock
      ensures Restored(Deducted(stock, lines), lines)[k] == stock[k]
      ensures Deducted(Restored(stock, lines), lines)[k] == stock[k]
    {
      ShiftedAt(stock, lines, -1, k);
      ShiftedAt(Deducted(stock, lines), lines, 1, k);
      ShiftedAt(stock, lines, 1, k);
      ShiftedAt(Restored(stock, lines), lines, -1, k);
    }
  }

  /** The audit entries the line loop appends: one per resolvable line. */
  function LineLogs(catalog: set<string>, lines: seq<OrderItem>, sign: int, reason: string, now: int): seq<LogEntry>
    decreases |lines|
  {
    if lines == [] then []
    else
      var last := lines[|lines| - 1];
      LineLogs(catalog, lines[..|lines| - 1], sign, reason, now)
        + (if last.product_id in catalog then [LogEntry(last.product_id, sign * last.quantity, reason, now)] else [])
  }

  /** The net change the entries record for one product. */
  function LoggedChange(entries: seq<LogEntry>, product_id: string): int
    decreases |entries|
  {
    if entries == [] then 0
    else
      var last := entries[|entries| - 1];
      LoggedChange(entries[..|entries| - 1], product_id) + (if last.product_id == product_id then last.quantity_change else 0)
  }

  lemma {:induction false} LoggedChangeAppend(a: seq<LogEntry>, b: seq<LogEntry>, product_id: string)
    ensures LoggedChange(a + b, product_id) == LoggedChange(a, product_id) + LoggedChange(b, product_id)
    decreases |b|
  {
    if b == [] {
      assert a + b == a;
    } else {
      assert (a + b)[..|a + b| - 1] == a + b[..|b| - 1];
      assert (a + b)[|a + b| - 1] == b[|b| - 1];
      LoggedChangeAppend(a, b[..|b| - 1], product_id);
    }
  }

  /** Every appended entry carries the reason and the time, and names a
      catalogue product. */
  lemma {:induction false} LineLogsShape(catalog: set<string>, lines: seq<OrderItem>, sign: int, reason: string, now: int)
    ensures forall e :: e in LineLogs(catalog, lines, sign, reason, now) ==>
              e.reason == reason && e.timestamp == now && e.product_id in catalog
    decreases |lines|
  {
    if lines != [] {
      LineLogsShape(catalog, lines[..|lines| - 1], sign, reason, now);
    }
  }

  /** The audit trail accounts for the stock movement: for every catalogue
      product the appended entries sum to the change `Shifted` makes. */
  lemma {:induction false} LineLogsAccount(catalog: set<string>, lines: seq<OrderItem>, sign: int, reason: string, now: int, k: string)
    requires k in catalog
    ensures LoggedChange(LineLogs(catalog, lines, sign, reason, now), k) == sign * QuantityOf(lines, k)
    decreases |lines|
  {
    if lines != [] {
      var init := lines[..|lines| - 1];
      var last := lines[|lines| - 1];
      LineLogsAccount(catalog, init, sign, reason, now, k);
      var tail := if last.product_id in catalog then [LogEntry(last.product_id, sign * last.quantity, reason, now)] else [];
      var q := if last.product_id == k then last.quantity else 0;
      LoggedChangeAppend(LineLogs(catalog, init, sign, reason, now), tail, k);
      if tail != [] {
        assert tail[..0] == [];
        assert LoggedChange(tail, k) == (if last.product_id == k then sign * last.quantity else 0);
      }
      assert LoggedChange(tail, k) == sign * q;
      Distribute(sign, QuantityOf(init, k), q);
    }
  }

  lemma Distribute(s: int, a: int, b: int)
    ensures s * (a + b) == s * a + s * b
  {
  }

  /** `check_stock_availability` as a predicate: every line's product exists
      and has at least the requested quantity. Each line is compared with
      the current stock on its own; two lines of one product are not added. */
  predicate Available(stock: map<string, int>, lines: seq<OrderItem>)
  {
    forall i :: 0 <= i < |lines| ==> lines[i].product_id in stock && lines[i].quantity <= stock[lines[i].product_id]
  }

  /** No two lines name the same product. */
  predicate DistinctProducts(lines: seq<OrderItem>)
  {
    forall i, j :: 0 <= i < j < |lines| ==> lines[i].product_id != lines[j].product_id
  }

  lemma {:induction false} QuantityOfDistinct(lines: seq<OrderItem>, k: string)
    requires DistinctProducts(lines)
    ensures (forall i :: 0 <= i < |lines| ==> lines[i].product_id != k) ==> QuantityOf(lines, k) == 0
    ensures forall i :: 0 <= i < |lines| && lines[i].product_id == k ==> QuantityOf(lines, k) == lines[i].quantity
    decreases |lines|
  {
    if lines != [] {
      var init := lines[..|lines| - 1];
      assert DistinctProducts(init);
      QuantityOfDistinct(init, k);
      forall i | 0 <= i < |lines| && lines[i].product_id == k
        ensures QuantityOf(lines, k) == lines[i].quantity
      {
        if i < |lines| - 1 {
          assert init[i] == lines[i];
        } else {
          assert forall j :: 0 <= j < |init| ==> init[j].product_id != k;
        }
      }
    }
  }

  /** With distinct products per line, passing the availability check means
      the deduction drives no product below zero. */
  lemma DeductAfterCheckNonNegative(stock: map<string, int>, lines: seq<OrderItem>)
    requires DistinctProducts(lines) && Available(stock, lines)
    ensures forall k :: k in stock && stock[k] >= 0 ==> Deducted(stock, lines)[k] >= 0
  {
    forall k | k in stock && stock[k] >= 0
      ensures Deducted(stock, lines)[k] >= 0
    {
      ShiftedAt(stock, lines, -1, k);
      QuantityOfDistinct(lines, k);
    }
  }

  /** Without distinct products the check is not enough: stock 3 and two
      lines of 2 pass the check, and the deduction leaves -1. */
  lemma DuplicateLinesOverdraw()
    ensures var stock := map["P1" := 3];
            var lines := [NewOrderItem("P1", 2, 25.0), NewOrderItem("P1", 2, 25.0)];
            Available(stock, lines) && Deducted(stock, lines)["P1"] == -1
  {
    var stock := map["P1" := 3];
    var line := NewOrderItem("P1", 2, 25.0);
    var lines := [line, line];
    assert lines[..1] == [line];
    assert [line][..0] == [];
    assert Shifted(stock, [], -1) == stock;
    assert Shifted(stock, [line], -1) == ApplyLine(stock, line, -1);
    assert Shifted(stock, [line], -1) == map["P1" := 1];
  }

  /** The products `check_and_notify_low_stock` reports, line by line: those
      whose stock is now below 5. */
  function LowStockNotices(stock: map<string, int>, lines: seq<OrderItem>): seq<string>
    decreases |lines|
  {
    if lines == [] then []
    else
      var last := lines[|lines| - 1];
      LowStockNotices(stock, lines[..|lines| - 1])
        + (if last.product_id in stock && stock[last.product_id] < 5 then [last.product_id] else [])
  }

  lemma {:induction false} LowStockNoticesSpec(stock: map<string, int>, lines: seq<OrderItem>)
    ensures forall k :: k in LowStockNotices(stock, lines) <==>
              k in stock && stock[k] < 5 && exists i :: 0 <= i < |lines| && lines[i].product_id == k
    decreases |lines|
  {
    if lines != [] {
      var init := lines[..|lines| - 1];
      LowStockNoticesSpec(stock, init);
      forall k | k in stock && stock[k] < 5 && (exists i :: 0 <= i < |lines| && lines[i].product_id == k)
        ensures k in LowStockNotices(stock, lines)
      {
        var i :| 0 <= i < |lines| && lines[i].product_id == k;
        if i < |lines| - 1 {
          assert init[i] == lines[i];
        }
      }
      forall k | k in LowStockNotices(stock, init)
        ensures exists i :: 0 <= i < |lines| && lines[i].product_id == k
      {
        var i :| 0 <= i < |init| && init[i].product_id == k;
        assert lines[i] == init[i];
      }
    }
  }

  /** The ids, in catalogue order, of the products at or below `threshold`. */
  function LowStockIds(keys: seq<string>, stock: map<string, int>, threshold: int): (r: seq<string>)
    ensures forall k :: k in r ==> k in keys
    ensures forall i :: 0 <= i < |r| ==> r[i] in keys
    decreases |keys|
  {
    if keys == [] then []
    else
      var last := keys[|keys| - 1];
      LowStockIds(keys[..|keys| - 1], stock, threshold)
        + (if last in stock && stock[last] <= threshold then [last] else [])
  }

  /** The threshold is inclusive: exactly the listed products with stock
      ≤ threshold are reported. */
  lemma {:induction false} LowStockIdsSpec(keys: seq<string>, stock: map<string, int>, threshold: int)
    ensures forall k :: k in LowStockIds(keys, stock, threshold) <==> k in keys && k in stock && stock[k] <= threshold
    decreases |keys|
  {
    if keys != [] {
      var init := keys[..|keys| - 1];
      LowStockIdsSpec(init, stock, threshold);
      assert keys == init + [keys[|keys| - 1]];
    }
  }

  // ---------------------------------------------------------------------
  // The service

  /** `check_stock_availability`: read-only, stops at the first line whose
      product is missing or short. */
  method CheckStockAvailability(store: DataStore, order_items: seq<OrderItem>) returns (ok: bool)
    ensures ok == Available(store.Stock(), order_items)
    ensures store.Stock() == old(store.Stock()) && store.Tiers() == old(store.Tiers())
  {
    var i := 0;
    while i < |order_items|
      invariant 0 <= i <= |order_items|
      invariant Available(store.Stock(), order_items[..i])
    {
      var item := order_items[i];
      var product := store.GetProduct(item.product_id);
      if product.None? {
        return false;
      }
      if product.value.quantity_available < item.quantity {
        return false;
      }
      assert order_items[..i + 1] == order_items[..i] + [item];
      i := i + 1;
    }
    assert order_items[..i] == order_items;
    return true;
  }

  /** Adds `delta` to one catalogue product's stock. */
  method ShiftProduct(store: DataStore, product: Product, delta: int)
    requires store.Valid() && product.product_id in store.products && store.products[product.product_id] == product
    modifies product`quantity_available
    ensures store.Stock() == old(store.Stock())[product.product_id := old(store.Stock())[product.product_id] + delta]
  {
    product.quantity_available := product.quantity_available + delta;
    forall k | k in store.products && k != product.product_id
      ensures store.products[k] != product
    {
      assert store.products[k].product_id == k;
    }
  }

  /** One line of the shared loop: a catalogue product's stock moves by
      `sign` × quantity and one entry is logged; an unknown product is
      skipped. */
  method ShiftLine(store: DataStore, item: OrderItem, sign: int, reason: string, now: int)
    requires store.Valid()
    modifies store`inventory_logs, store.products.Values`quantity_available
    ensures store.Valid() && store.products == old(store.products)
    ensures store.Stock() == ApplyLine(old(store.Stock()), item, sign)
    ensures store.inventory_logs == old(store.inventory_logs)
              + (if item.product_id in store.products then [LogEntry(item.product_id, sign * item.quantity, reason, now)] else [])
  {
    var product := store.GetProduct(item.product_id);
    if product.Some? {
      ghost var stock1 := store.Stock();
      store.LogInventoryChange(item.product_id, sign * item.quantity, reason, now);
      assert store.Stock() == stock1 && store.Valid();
      ShiftProduct(store, product.value, sign * item.quantity);
    }
  }

  /** Applies the lines' quantities with `sign` and logs each resolvable
      line: the loop shared by deduction and restoration. */
  method ShiftLines(store: DataStore, lines: seq<OrderItem>, sign: int, reason: string, now: int)
    requires store.Valid()
    modifies store`inventory_logs, store.products.Values`quantity_available
    ensures store.Valid()
    ensures store.Stock() == Shifted(old(store.Stock()), lines, sign)
    ensures store.inventory_logs == old(store.inventory_logs) + LineLogs(store.products.Keys, lines, sign, reason, now)
  {
    ghost var stock0 := store.Stock();
    ghost var logs0 := store.inventory_logs;
    var i := 0;
    while i < |lines|
      invariant 0 <= i <= |lines|
      invariant store.Valid()
      invariant store.Stock() == Shifted(stock0, lines[..i], sign)
      invariant store.inventory_logs == logs0 + LineLogs(store.products.Keys, lines[..i], sign, reason, now)
    {
      assert lines[..i + 1][..i] == lines[..i];
      ShiftLine(store, lines[i], sign, reason, now);
      i := i + 1;
    }
    assert lines[..i] == lines;
  }

  /** `deduct_stock_and_log`: each resolvable line's quantity comes off its
      product and is logged as (product, -quantity, "order_<id>"); lines of
      unknown products are skipped. There is no availability re-check. */
  method DeductStockAndLog(store: DataStore, order_items: seq<OrderItem>, order: Order, now: int)
    requires store.Valid()
    modifies store`inventory_logs, store.products.Values`quantity_available
    ensures store.Valid()
    ensures store.Stock() == Deducted(old(store.Stock()), order_items)
    ensures store.inventory_logs == old(store.inventory_logs)
              + LineLogs(store.products.Keys, order_items, -1, "order_" + IntToString(order.order_id), now)
  {
    ShiftLines(store, order_items, -1, "order_" + IntToString(order.order_id), now);
  }

  /** `restore_stock`: each resolvable line of the order goes back to its
      product, logged as (product, +quantity, "cancel_order_<id>"). */
  method RestoreStock(store: DataStore, order: Order, now: int)
    requires store.Valid()
    modifies store`inventory_logs, store.products.Values`quantity_available
    ensures store.Valid()
    ensures store.Stock() == Restored(old(store.Stock()), order.items)
    ensures store.inventory_logs == old(store.inventory_logs)
              + LineLogs(store.products.Keys, order.items, 1, "cancel_order_" + IntToString(order.order_id), now)
    ensures store.Statuses() == old(store.Statuses())
  {
    ShiftLines(store, order.items, 1, "cancel_order_" + IntToString(order.order_id), now);
  }

  /** `check_and_notify_low_stock`: the products whose suppliers are told to
      reorder, one per line whose product now has fewer than 5 units. */
  method CheckAndNotifyLowStock(store: DataStore, order_items: seq<OrderItem>) returns (notified: seq<string>)
    ensures notified == LowStockNotices(store.Stock(), order_items)
  {
    notified := [];
    var i := 0;
    while i < |order_items|
      invariant 0 <= i <= |order_items|
      invariant notified == LowStockNotices(store.Stock(), order_items[..i])
    {
      var item := order_items[i];
      assert order_items[..i + 1][..i] == order_items[..i];
      var product := store.GetProduct(item.product_id);
      if product.Some? && product.value.quantity_available < 5 {
        notified := notified + [item.product_id];
      }
      i := i + 1;
    }
    assert order_items[..i] == order_items;
  }

  /** Whether `restock_product` accepts: the product exists, and a supplier
      id that is given and non-empty matches the product's supplier. */
  predicate RestockAccepted(products: map<string, Product>, product_id: string, supplier_id: Option<string>)
  {
    product_id in products
    && (supplier_id.None? || supplier_id.value == "" || products[product_id].supplier_id == supplier_id.value)
  }

  /** `restock_product`: when accepted, raises the stock by `quantity` and
      appends one "restock" entry; otherwise changes nothing. */
  method RestockProduct(store: DataStore, product_id: string, quantity: int, supplier_id: Option<string>, now: int)
    returns (ok: bool)
    requires store.Valid()
    modifies store`inventory_logs, store.products.Values`quantity_available
    ensures ok == RestockAccepted(store.products, product_id, supplier_id)
    ensures ok ==> store.Stock() == old(store.Stock())[product_id := old(store.Stock())[product_id] + quantity]
                   && store.inventory_logs == old(store.inventory_logs) + [LogEntry(product_id, quantity, "restock", now)]
    ensures !ok ==> store.Stock() == old(store.Stock()) && store.inventory_logs == old(store.inventory_logs)
  {
    var product := store.GetProduct(product_id);
    if product.None? {
      return false;
    }
    if supplier_id.Some? && supplier_id.value != "" && product.value.supplier_id != supplier_id.value {
      return false;
    }
    ShiftProduct(store, product.value, quantity);
    store.LogInventoryChange(product_id, quantity, "restock", now);
    return true;
  }

  /** `get_low_stock_products`: in catalogue order, the products whose stock
      is at most `threshold` (10 by default); read-only. */
  method GetLowStockProducts(store: DataStore, threshold: int := 10) returns (low_stock: seq<Product>)
    requires store.Valid()
    ensures var ids := LowStockIds(store.product_keys, store.Stock(), threshold);
            |low_stock| == |ids| && forall i :: 0 <= i < |ids| ==> low_stock[i] == store.products[ids[i]]
  {
    ghost var ids: seq<string> := [];
    low_stock := [];
    var i := 0;
    while i < |store.product_keys|
      invariant 0 <= i <= |store.product_keys|
      invariant ids == LowStockIds(store.product_keys[..i], store.Stock(), threshold)
      invariant forall k :: k in ids ==> k in store.products
      invariant |low_stock| == |ids| && forall j :: 0 <= j < |ids| ==> low_stock[j] == store.products[ids[j]]
    {
      var key := store.product_keys[i];
      assert store.product_keys[..i + 1][..i] == store.product_keys[..i];
      var product := store.products[key];
      if product.quantity_available <= threshold {
        low_stock := low_stock + [product];
        ids := ids + [key];
      }
      i := i + 1;
    }
    assert store.product_keys[..i] == store.product_keys;
  }
}
