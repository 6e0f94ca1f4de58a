/** The customer account: loyalty earning, lifetime value, the one-way tier
    upgrade and the marketing segments. */
module Customers {
  import opened Wrappers
  import opened Money
  import opened Membership
  import opened Domain
  import opened Store
  import opened Seqs

  /** `finalize_customer_order_updates`: the order id joins the history and
      the integer part of the subtotal is added to the points. */
  method FinalizeCustomerOrderUpdates(customer: Customer, order_id: int, subtotal: real)
    modifies customer`order_history, customer`loyalty_points
    ensures customer.order_history == old(customer.order_history) + [order_id]
    ensures customer.loyalty_points == old(customer.loyalty_points) + Trunc(subtotal)
  {
    customer.order_history := customer.order_history + [order_id];
    customer.loyalty_points := customer.loyalty_points + Trunc(subtotal);
  }

  /** `refund_loyalty_points_for_order` only prints; it may change nothing. */
  method RefundLoyaltyPointsForOrder(customer: Customer, order: Order)
  {
  }

  // ---------------------------------------------------------------------
  // Lifetime value

  /** The lifetime-value sum as the source computes it: the comparison of
      the status enum with the string 'cancelled' never holds, so every
      resolvable order counts, cancelled or not. */
  function HistoryValueAsWritten(history: seq<int>, orders: map<int, Order>): real
    reads orders.Values`total_price
    decreases |history|
  {
    if history == [] then 0.0
    else
      var id := history[|history| - 1];
      HistoryValueAsWritten(history[..|history| - 1], orders) + (if id in orders then orders[id].total_price else 0.0)
  }

  /** The intended lifetime-value sum: the totals of the resolvable,
      non-cancelled orders of the history; ids that do not resolve are
      skipped. */
  function HistoryValue(history: seq<int>, orders: map<int, Order>): real
    reads orders.Values`status, orders.Values`total_price
    decreases |history|
  {
    if history == [] then 0.0
    else
      var id := history[|history| - 1];
      HistoryValue(history[..|history| - 1], orders)
        + (if id in orders && orders[id].status != Cancelled then orders[id].total_price else 0.0)
  }

  /** The discrepancy: a cancelled order adds its total to the value as
      written and nothing to the intended value. */
  lemma CancelledOrderCountsAsWritten(history: seq<int>, orders: map<int, Order>, id: int)
    requires id in orders && orders[id].status == Cancelled
    ensures HistoryValueAsWritten(history + [id], orders) == HistoryValueAsWritten(history, orders) + orders[id].total_price
    ensures HistoryValue(history + [id], orders) == HistoryValue(history, orders)
  {
    assert (history + [id])[..|history|] == history;
  }

  /** Without cancelled orders in the history the two sums agree. */
  lemma {:induction false} AsWrittenAgreesWithoutCancelled(history: seq<int>, orders: map<int, Order>)
    requires forall i :: 0 <= i < |history| && history[i] in orders ==> orders[history[i]].status != Cancelled
    ensures HistoryValueAsWritten(history, orders) == HistoryValue(history, orders)
    decreases |history|
  {
    if history != [] {
      var init := history[..|history| - 1];
      assert forall i :: 0 <= i < |init| ==> init[i] == history[i];
      AsWrittenAgreesWithoutCancelled(init, orders);
    }
  }

  /** With non-negative totals the intended value never exceeds the value as
      written. */
  lemma {:induction false} AsWrittenOvercounts(history: seq<int>, orders: map<int, Order>)
    requires forall k :: k in orders ==> orders[k].total_price >= 0.0
    ensures 0.0 <= HistoryValue(history, orders) <= HistoryValueAsWritten(history, orders)
    decreases |history|
  {
    if history != [] {
      AsWrittenOvercounts(history[..|history| - 1], orders);
    }
  }

  /** `get_customer_lifetime_value`, corrected: 0.0 for an unknown customer. */
  function LifetimeValue(customers: map<string, Customer>, orders: map<int, Order>, customer_id: string): real
    reads customers.Values`order_history, orders.Values`status, orders.Values`total_price
  {
    if customer_id in customers then HistoryValue(customers[customer_id].order_history, orders) else 0.0
  }

  /** The lifetime-value loop over the customer's history. */
  method GetCustomerLifetimeValue(store: DataStore, customer_id: string) returns (total_value: real)
    ensures total_value == LifetimeValue(store.customers, store.orders, customer_id)
  {
    var customer := store.GetCustomer(customer_id);
    if customer.None? {
      return 0.0;
    }
    var history := customer.value.order_history;
    total_value := 0.0;
    var i := 0;
    while i < |history|
      invariant 0 <= i <= |history|
      invariant total_value == HistoryValue(history[..i], store.orders)
    {
      var order_id := history[i];
      assert history[..i + 1][..i] == history[..i];
      if order_id in store.orders && store.orders[order_id].status != Cancelled {
        total_value := total_value + store.orders[order_id].total_price;
      }
      i := i + 1;
    }
    assert history[..i] == history;
  }

  // ---------------------------------------------------------------------
  // Membership upgrade

  /** The upgrade rule: a Suspended customer is never upgraded; a lifetime
      value of 1000 or more lifts any other non-Gold tier to Gold; otherwise
      500 or more lifts Bronze to Silver; else nothing changes. */
  function UpgradedTier(tier: MembershipTier, lifetime_value: real): (r: Option<MembershipTier>)
    ensures r.Some? ==> tier.Rank() < r.value.Rank()
    ensures tier == Suspended || tier == Gold ==> r.None?
    ensures r == Some(Gold) <==> (tier == Bronze || tier == Silver) && lifetime_value >= 1000.0
    ensures r == Some(Silver) <==> tier == Bronze && 500.0 <= lifetime_value < 1000.0
    ensures r.Some? ==> r.value == Gold || r.value == Silver
  {
    if tier.Name() == "suspended" then None
    else if lifetime_value >= 1000.0 && tier.Name() != "gold" then Some(Gold)
    else if lifetime_value >= 500.0 && tier.Name() == "bronze" then Some(Silver)
    else None
  }

  /** Applying the rule again after an upgrade, with the same value,
      changes nothing more. */
  lemma UpgradeSettles(tier: MembershipTier, lifetime_value: real)
    requires UpgradedTier(tier, lifetime_value).Some?
    ensures UpgradedTier(UpgradedTier(tier, lifetime_value).value, lifetime_value).None?
  {
  }

  /** Sets one stored customer's tier. */
  method SetTier(store: DataStore, customer: Customer, tier: MembershipTier)
    requires store.Valid() && customer.customer_id in store.customers && store.customers[customer.customer_id] == customer
    modifies customer`membership_tier
    ensures store.Tiers() == old(store.Tiers())[customer.customer_id := tier]
  {
    customer.membership_tier := tier;
    forall k | k in store.customers && k != customer.customer_id
      ensures store.customers[k] != customer
    {
      assert store.customers[k].customer_id == k;
    }
  }

  /** `check_and_upgrade_membership`: applies the upgrade rule to a stored
      customer's tier with the lifetime value; returns whether it upgraded. */
  method CheckAndUpgradeMembership(store: DataStore, customer_id: string) returns (upgraded: bool)
    requires store.Valid()
    modifies store.customers.Values`membership_tier
    ensures customer_id !in store.customers ==> !upgraded && store.Tiers() == old(store.Tiers())
    ensures customer_id in store.customers ==>
              var u := UpgradedTier(old(store.customers[customer_id].membership_tier),
                                    LifetimeValue(store.customers, store.orders, customer_id));
              upgraded == u.Some?
              && store.Tiers() == (if u.Some? then old(store.Tiers())[customer_id := u.value] else old(store.Tiers()))
  {
    var customer := store.GetCustomer(customer_id);
    if customer.None? {
      return false;
    }
    var c := customer.value;
    if c.membership_tier.Name() == "suspended" {
      return false;
    }
    var lifetime_value := GetCustomerLifetimeValue(store, customer_id);
    var new_tier: Option<MembershipTier> := None;
    if lifetime_value >= 1000.0 && c.membership_tier.Name() != "gold" {
      new_tier := Some(Gold);
    } else if lifetime_value >= 500.0 && c.membership_tier.Name() == "bronze" {
      new_tier := Some(Silver);
    }
    if new_tier.Some? {
      SetTier(store, c, new_tier.value);
      return true;
    }
    return false;
  }

  // ---------------------------------------------------------------------
  // Segments

  /** Ninety days, in seconds. */
  const InactiveWindow: int := 90 * 24 * 60 * 60

  /** Some resolvable order of the history was created strictly after the
      cutoff. */
  predicate HasRecentOrder(history: seq<int>, orders: map<int, Order>, cutoff: int)
  {
    exists i :: 0 <= i < |history| && history[i] in orders && orders[history[i]].created_at > cutoff
  }

  /** Whether a customer belongs to a segment: 'all' takes everyone, 'gold'
      the Gold tier, 'inactive' those without a recent order; any other
      segment takes nobody. */
  predicate InSegment(customer: Customer, segment: string, orders: map<int, Order>, now: int)
    reads customer
  {
    || segment == "all"
    || (segment == "gold" && customer.membership_tier.Name() == "gold")
    || (segment == "inactive" && !HasRecentOrder(customer.order_history, orders, now - InactiveWindow))
  }

  /** The ids, in insertion order, of the customers in the segment. */
  function SegmentIds(keys: seq<string>, customers: map<string, Customer>, orders: map<int, Order>,
                      segment: string, now: int): (r: seq<string>)
    reads customers.Values
    ensures forall k :: k in r ==> k in keys && k in customers
    decreases |keys|
  {
    if keys == [] then []
    else
      var k := keys[|keys| - 1];
      SegmentIds(keys[..|keys| - 1], customers, orders, segment, now)
        + (if k in customers && InSegment(customers[k], segment, orders, now) then [k] else [])
  }

  /** Exactly the stored customers of the segment are selected. */
  lemma {:induction false} SegmentIdsSpec(keys: seq<string>, customers: map<string, Customer>, orders: map<int, Order>,
                                         segment: string, now: int)
    ensures forall k :: k in SegmentIds(keys, customers, orders, segment, now) <==>
              k in keys && k in customers && InSegment(customers[k], segment, orders, now)
    decreases |keys|
  {
    if keys != [] {
      SegmentIdsSpec(keys[..|keys| - 1], customers, orders, segment, now);
      assert keys == keys[..|keys| - 1] + [keys[|keys| - 1]];
    }
  }

  /** 'all' selects every stored customer, in insertion order. */
  lemma {:induction false} SegmentAll(keys: seq<string>, customers: map<string, Customer>, orders: map<int, Order>, now: int)
    requires forall k :: k in keys ==> k in customers
    ensures SegmentIds(keys, customers, orders, "all", now) == keys
    decreases |keys|
  {
    if keys != [] {
      var init := keys[..|keys| - 1];
      SegmentAll(init, customers, orders, now);
      assert SegmentIds(keys, customers, orders, "all", now) == init + [keys[|keys| - 1]];
      InitLast(keys);
    }
  }

  /** A segment other than 'all', 'gold' and 'inactive' selects nobody. */
  lemma {:induction false} SegmentUnknown(keys: seq<string>, customers: map<string, Customer>, orders: map<int, Order>,
                                         segment: string, now: int)
    requires segment != "all" && segment != "gold" && segment != "inactive"
    ensures SegmentIds(keys, customers, orders, segment, now) == []
    decreases |keys|
  {
    if keys != [] {
      SegmentUnknown(keys[..|keys| - 1], customers, orders, segment, now);
    }
  }

  /** The inner loop of the 'inactive' segment: stops at the first
      resolvable order created after the cutoff. */
  method FindRecentOrder(store: DataStore, history: seq<int>, cutoff: int) returns (has_recent_order: bool)
    ensures has_recent_order == HasRecentOrder(history, store.orders, cutoff)
  {
    has_recent_order := false;
    var i := 0;
    while i < |history|
      invariant 0 <= i <= |history|
      invariant !has_recent_order
      invariant forall j :: 0 <= j < i ==> !(history[j] in store.orders && store.orders[history[j]].created_at > cutoff)
    {
      var order_id := history[i];
      if order_id in store.orders && store.orders[order_id].created_at > cutoff {
        has_recent_order := true;
        break;
      }
      i := i + 1;
    }
  }

  /** The test the segment loop applies to one customer; only the
      'inactive' segment scans the order history. */
  method Selects(store: DataStore, customer: Customer, segment: string, now: int) returns (selected: bool)
    ensures selected == InSegment(customer, segment, store.orders, now)
  {
    if segment == "all" {
      selected := true;
    } else if segment == "gold" && customer.membership_tier.Name() == "gold" {
      selected := true;
    } else if segment == "inactive" {
      var has_recent_order := FindRecentOrder(store, customer.order_history, now - InactiveWindow);
      selected := !has_recent_order;
    } else {
      selected := false;
    }
  }

  /** `get_customers_for_segment`: the selected customers in insertion order;
      read-only. */
  method GetCustomersForSegment(store: DataStore, segment: string, now: int) returns (targeted: seq<Customer>)
    requires store.Valid()
    ensures var ids := SegmentIds(store.customer_keys, store.customers, store.orders, segment, now);
            |targeted| == |ids| && forall i :: 0 <= i < |ids| ==> targeted[i] == store.customers[ids[i]]
  {
    ghost var ids: seq<string> := [];
    targeted := [];
    var keys := store.customer_keys;
    var i := 0;
    while i < |keys|
      invariant 0 <= i <= |keys|
      invariant ids == SegmentIds(keys[..i], store.customers, store.orders, segment, now)
      invariant |targeted| == |ids| && forall j :: 0 <= j < |ids| ==> targeted[j] == store.customers[ids[j]]
    {
      var key := keys[i];
      assert keys[..i + 1][..i] == keys[..i];
      var customer := store.customers[key];
      var selected := Selects(store, customer, segment, now);
      if selected {
        targeted := targeted + [customer];
        ids := ids + [key];
      }
      i := i + 1;
    }
    assert keys[..i] == keys;
  }
}
