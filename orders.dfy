/** The order lifecycle over Pending / Shipped / Delivered / Cancelled: id
    allocation, lookup, status updates with shipment creation, the
    pending-only price adjustment and cancellation. */
module Orders {
  import opened Wrappers
  import opened Domain
  import opened Store
  import opened Inventory
  import opened Shipping
  import opened Customers

  /** `create_order`: takes the next order id, raises the counter by one and
      stores a Pending order with the given fields and payment method. */
  method CreateOrder(store: DataStore, customer_id: string, order_items: seq<OrderItem>, total_price: real,
                     shipping_cost: real, payment_method: string, now: int)
    returns (order: Order)
    requires store.Valid()
    modifies store`orders, store`order_keys, store`next_order_id
    ensures fresh(order) && store.Valid()
    ensures order.order_id == old(store.next_order_id) && store.next_order_id == old(store.next_order_id) + 1
    ensures order.order_id !in old(store.orders)
    ensures store.orders == old(store.orders)[order.order_id := order]
    ensures store.order_keys == old(store.order_keys) + [order.order_id]
    ensures order.customer_id == customer_id && order.items == order_items && order.created_at == now
    ensures order.status == Pending && order.total_price == total_price && order.shipping_cost == shipping_cost
    ensures order.tracking_number == None && order.payment_method == Some(payment_method)
  {
    var order_id := store.next_order_id;
    store.next_order_id := store.next_order_id + 1;
    order := new Order(order_id, customer_id, order_items, Pending, now, total_price, shipping_cost);
    order.payment_method := Some(payment_method);
    store.order_keys := store.order_keys + [order_id];
    store.orders := store.orders[order_id := order];
  }

  /** Two orders created one after the other get consecutive, hence
      distinct and increasing, ids. */
  method CreateTwoOrders(store: DataStore, customer_id: string, now: int) returns (first: Order, second: Order)
    requires store.Valid()
    modifies store`orders, store`order_keys, store`next_order_id
    ensures second.order_id == first.order_id + 1
    ensures first != second && first.order_id in store.orders && second.order_id in store.orders
    ensures store.orders[first.order_id] == first && store.orders[second.order_id] == second
  {
    first := CreateOrder(store, customer_id, [], 0.0, 0.0, "unknown", now);
    second := CreateOrder(store, customer_id, [], 0.0, 0.0, "unknown", now);
  }

  /** `get_order`. */
  function GetOrder(store: DataStore, order_id: int): (r: Option<Order>)
    reads store`orders
    ensures r.Some? <==> order_id in store.orders
    ensures r.Some? ==> r.value == store.orders[order_id]
  {
    if order_id in store.orders then Some(store.orders[order_id]) else None
  }

  /** Python truthiness of the optional tracking number. */
  predicate HasTracking(tracking_number: Option<string>)
  {
    tracking_number.Some? && tracking_number.value != ""
  }

  /** Sets one stored order's status. */
  method SetStatus(store: DataStore, order: Order, status: OrderStatus)
    requires store.Valid() && order.order_id in store.orders && store.orders[order.order_id] == order
    modifies order`status
    ensures store.Statuses() == old(store.Statuses())[order.order_id := status]
    ensures store.Trackings() == old(store.Trackings()) && store.Stock() == old(store.Stock())
  {
    order.status := status;
    forall k | k in store.orders && k != order.order_id
      ensures store.orders[k] != order
    {
      assert store.orders[k].order_id == k;
    }
  }

  /** Sets one stored order's tracking number. */
  method SetTracking(store: DataStore, order: Order, tracking_number: string)
    requires store.Valid() && order.order_id in store.orders && store.orders[order.order_id] == order
    modifies order`tracking_number
    ensures store.Trackings() == old(store.Trackings())[order.order_id := Some(tracking_number)]
    ensures store.Statuses() == old(store.Statuses())
  {
    order.tracking_number := Some(tracking_number);
    forall k | k in store.orders && k != order.order_id
      ensures store.orders[k] != order
    {
      assert store.orders[k].order_id == k;
    }
  }

  /** `update_order_status`. The status is overwritten first, to any target.
      A move to Shipped of an order without a tracking number then creates
      a shipment; `shipment_fails` stands for that call raising, in which
      case the result is None although the new status stays. */
  method UpdateOrderStatus(store: DataStore, order_id: int, new_status: OrderStatus,
                           shipment_fails: bool, draw: int, now: int)
    returns (r: Option<Order>)
    requires store.Valid()
    modifies store.orders.Values`status, store.orders.Values`tracking_number, store`shipments, store`next_shipment_id
    ensures store.Valid()
    ensures order_id !in store.orders ==>
              r.None? && store.Statuses() == old(store.Statuses()) && store.Trackings() == old(store.Trackings())
              && store.shipments == old(store.shipments) && store.next_shipment_id == old(store.next_shipment_id)
    ensures order_id in store.orders ==>
              var ship := new_status == Shipped && !HasTracking(old(store.orders[order_id].tracking_number));
              && store.Statuses() == old(store.Statuses())[order_id := new_status]
              && (ship && !shipment_fails ==>
                    r == Some(store.orders[order_id])
                    && store.Trackings() == old(store.Trackings())[order_id := Some(TrackingNumber(order_id, draw))]
                    && store.next_shipment_id == old(store.next_shipment_id) + 1
                    && store.shipments == old(store.shipments)[old(store.next_shipment_id) :=
                         Shipment(old(store.next_shipment_id), order_id, TrackingNumber(order_id, draw), now, "in_transit")])
              && (ship && shipment_fails ==>
                    r.None? && store.Trackings() == old(store.Trackings())
                    && store.shipments == old(store.shipments) && store.next_shipment_id == old(store.next_shipment_id))
              && (!ship ==>
                    r == Some(store.orders[order_id]) && store.Trackings() == old(store.Trackings())
                    && store.shipments == old(store.shipments) && store.next_shipment_id == old(store.next_shipment_id))
  {
    var order := GetOrder(store, order_id);
    if order.None? {
      return None;
    }
    var o := order.value;
    SetStatus(store, o, new_status);
    if new_status == Shipped && !HasTracking(o.tracking_number) {
      if shipment_fails {
        return None;
      }
      var tracking_number := CreateShipmentForOrder(store, o, draw, now);
      SetTracking(store, o, tracking_number);
    }
    return Some(o);
  }

  /** `apply_additional_discount`: only a Pending order's total changes, to
      total × (1 − percent / 100); any other status or an unknown id gives
      None and changes nothing. */
  method ApplyAdditionalDiscount(store: DataStore, order_id: int, discount_percent: real, reason: string)
    returns (r: Option<Order>)
    requires store.Valid()
    modifies store.orders.Values`total_price
    ensures r.Some? <==> order_id in store.orders && store.orders[order_id].status == Pending
    ensures r.Some? ==>
              && r.value == store.orders[order_id]
              && store.Totals() == old(store.Totals())[order_id := old(store.orders[order_id].total_price) * (1.0 - discount_percent / 100.0)]
    ensures r.None? ==> store.Totals() == old(store.Totals())
  {
    var order := GetOrder(store, order_id);
    if order.None? {
      return None;
    }
    var o := order.value;
    if o.status != Pending {
      return None;
    }
    ghost var totals := store.Totals();
    ghost var discounted := o.total_price * (1.0 - discount_percent / 100.0);
    assert discounted == old(store.orders[order_id].total_price) * (1.0 - discount_percent / 100.0);
    o.total_price := o.total_price * (1.0 - discount_percent / 100.0);
    forall k | k in store.orders && k != order_id
      ensures store.orders[k] != o
    {
      assert store.orders[k].order_id == k;
    }
    assert store.Totals() == totals[order_id := discounted];
    return Some(o);
  }

  /** `cancel_order`. An unknown id, or a Shipped or Delivered order, gives
      false and changes nothing; an already Cancelled order gives true and
      changes nothing; a Pending order has its lines' stock restored (with
      audit entries), becomes Cancelled and gives true, whether or not its
      customer still exists. */
  method CancelOrder(store: DataStore, order_id: int, reason: string, now: int) returns (ok: bool)
    requires store.Valid()
    modifies store.orders.Values`status, store`inventory_logs, store.products.Values`quantity_available
    ensures ok <==> order_id in store.orders && old(store.orders[order_id].status) in {Pending, Cancelled}
    ensures (order_id in store.orders && old(store.orders[order_id].status) == Pending) ==>
              var o := store.orders[order_id];
              && store.Statuses() == old(store.Statuses())[order_id := Cancelled]
              && store.Stock() == Restored(old(store.Stock()), o.items)
              && store.inventory_logs == old(store.inventory_logs)
                   + LineLogs(store.products.Keys, o.items, 1, "cancel_order_" + Text.IntToString(order_id), now)
    ensures !(order_id in store.orders && old(store.orders[order_id].status) == Pending) ==>
              store.Statuses() == old(store.Statuses()) && store.Stock() == old(store.Stock())
              && store.inventory_logs == old(store.inventory_logs)
  {
    var order := GetOrder(store, order_id);
    if order.None? {
      return false;
    }
    var o := order.value;
    if o.status == Shipped || o.status == Delivered {
      return false;
    }
    if o.status == Cancelled {
      return true;
    }
    CancelPending(store, o, now);
    return true;
  }

  /** The Pending case of `cancel_order`: restore the lines' stock, mark the
      order Cancelled, and hand it to the (empty) loyalty refund when its
      customer still exists. */
  method CancelPending(store: DataStore, order: Order, now: int)
    requires store.Valid() && order.order_id in store.orders && store.orders[order.order_id] == order
    modifies store.orders.Values`status, store`inventory_logs, store.products.Values`quantity_available
    ensures store.Statuses() == old(store.Statuses())[order.order_id := Cancelled]
    ensures store.Stock() == Restored(old(store.Stock()), order.items)
    ensures store.inventory_logs == old(store.inventory_logs)
              + LineLogs(store.products.Keys, order.items, 1, "cancel_order_" + Text.IntToString(order.order_id), now)
  {
    RestoreStock(store, order, now);
    SetStatus(store, order, Cancelled);
    var customer := store.GetCustomer(order.customer_id);
    if customer.Some? {
      RefundLoyaltyPointsForOrder(customer.value, order);
    }
  }

  /** Cancelling twice restores the stock once: the second call finds the
      order Cancelled and returns true without touching stock or log. */
  method CancelTwice(store: DataStore, order_id: int, now: int) returns (first: bool, second: bool)
    requires store.Valid() && order_id in store.orders && store.orders[order_id].status == Pending
    modifies store.orders.Values`status, store`inventory_logs, store.products.Values`quantity_available
    ensures first && second
    ensures store.Stock() == Restored(old(store.Stock()), store.orders[order_id].items)
    ensures store.Statuses() == old(store.Statuses())[order_id := Cancelled]
  {
    first := CancelOrder(store, order_id, "Customer request", now);
    second := CancelOrder(store, order_id, "Customer request", now);
  }

  /** The stored orders of one customer, in creation order. */
  function OrdersOf(keys: seq<int>, orders: map<int, Order>, customer_id: string): (r: seq<Order>)
    decreases |keys|
  {
    if keys == [] then []
    else
      var k := keys[|keys| - 1];
      OrdersOf(keys[..|keys| - 1], orders, customer_id)
        + (if k in orders && orders[k].customer_id == customer_id then [orders[k]] else [])
  }

  /** Exactly the stored orders whose customer id matches are listed. */
  lemma {:induction false} OrdersOfSpec(keys: seq<int>, orders: map<int, Order>, customer_id: string)
    ensures forall o :: o in OrdersOf(keys, orders, customer_id) <==>
              o.customer_id == customer_id && exists k :: k in keys && k in orders && orders[k] == o
    decreases |keys|
  {
    if keys != [] {
      var init := keys[..|keys| - 1];
      OrdersOfSpec(init, orders, customer_id);
      assert keys == init + [keys[|keys| - 1]];
    }
  }

  /** `get_customer_orders`: read-only scan of the stored orders. */
  method GetCustomerOrders(store: DataStore, customer_id: string) returns (customer_orders: seq<Order>)
    requires store.Valid()
    ensures customer_orders == OrdersOf(store.order_keys, store.orders, customer_id)
  {
    customer_orders := [];
    var keys := store.order_keys;
    var i := 0;
    while i < |keys|
      invariant 0 <= i <= |keys|
      invariant customer_orders == OrdersOf(keys[..i], store.orders, customer_id)
    {
      assert keys[..i + 1][..i] == keys[..i];
      var order := store.orders[keys[i]];
      if order.customer_id == customer_id {
        customer_orders := customer_orders + [order];
      }
      i := i + 1;
    }
    assert keys[..i] == keys;
  }
}
