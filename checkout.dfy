/** The checkout facade: it looks up the customer and the products, checks
    stock, runs the four pricing stages, adds tax and shipping, validates
    the payment and, only then, records the order, deducts its stock,
    credits the customer and reconsiders the customer's tier. The service
    container's tier list is `DefaultBulkDiscounts`. */
module Checkout {
  import opened Wrappers
  import opened Text
  import opened Money
  import opened Membership
  import opened Bulk
  import opened Domain
  import opened Store
  import opened Pricing
  import opened Inventory
  import opened Shipping
  import opened Tax
  import opened Payment
  import opened Customers
  import opened Orders

  /** One requested line: a product id and a quantity. */
  datatype ItemRequest = ItemRequest(product_id: string, quantity: int)

  /** The bulk tiers the service container hands to the pricing engine. */
  const DefaultBulkDiscounts: seq<BulkDiscount> := [NoBulkDiscount, FiveItemsDiscount, TenItemsDiscount]

  // ---------------------------------------------------------------------
  // Specification

  /** The order lines built from the requests at the catalogue's current
      prices; None as soon as some request names an unknown product. */
  function RequestedItems(requests: seq<ItemRequest>, products: map<string, Product>): Option<seq<OrderItem>>
    reads products.Values`price
    decreases |requests|
  {
    if requests == [] then Some([])
    else
      var last := requests[|requests| - 1];
      match RequestedItems(requests[..|requests| - 1], products)
      case None => None
      case Some(items) =>
        if last.product_id in products then
          var product := products[last.product_id];
          Some(items + [NewOrderItem(product.product_id, last.quantity, product.price)])
        else None
  }

  /** The lines exist exactly when every request names a catalogue product;
      then there is one line per request, in request order, with the
      requested quantity and the product's price, and no discount. */
  lemma {:induction false} RequestedItemsSpec(requests: seq<ItemRequest>, products: map<string, Product>)
    ensures RequestedItems(requests, products).Some?
            <==> forall i :: 0 <= i < |requests| ==> requests[i].product_id in products
    ensures RequestedItems(requests, products).Some? ==>
              var items := RequestedItems(requests, products).value;
              && |items| == |requests|
              && forall i :: 0 <= i < |requests| ==>
                   var product := products[requests[i].product_id];
                   items[i] == NewOrderItem(product.product_id, requests[i].quantity, product.price)
    decreases |requests|
  {
    if requests != [] {
      var init := requests[..|requests| - 1];
      RequestedItemsSpec(init, products);
      if RequestedItems(init, products).None? {
        var j :| 0 <= j < |init| && init[j].product_id !in products;
        assert requests[j] == init[j];
      }
    }
  }

  /** Σ weight × quantity over the requests. */
  function TotalWeight(requests: seq<ItemRequest>, products: map<string, Product>): real
    decreases |requests|
  {
    if requests == [] then 0.0
    else
      var last := requests[|requests| - 1];
      TotalWeight(requests[..|requests| - 1], products)
        + (if last.product_id in products then products[last.product_id].weight * last.quantity as real else 0.0)
  }

  /** The four pricing stages in checkout order: bulk, membership,
      promotion, loyalty. Yields the discounted subtotal and the customer's
      new point balance; None when no bulk tier qualifies. */
  function Discounted(items: seq<OrderItem>, products: map<string, Product>, promotions: map<string, Promotion>,
                      tier: MembershipTier, points: int, promo_code: Option<string>, now: int): Option<(real, int)>
  {
    match SelectBulkDiscount(DefaultBulkDiscounts, TotalItems(items))
    case None => None
    case Some(bulk) =>
      var after_bulk := RateStage(Subtotal(items, products.Keys), bulk.discount);
      var after_membership := RateStage(after_bulk, tier.Discount());
      var promo := ApplicablePromotion(promo_code, promotions, now, after_membership, items, products);
      var after_promotion := if promo.Some? then PromotionStage(after_membership, promo.value.discount_percent)
                             else after_membership;
      Some(LoyaltyStage(after_promotion, points))
  }

  /** The promotion the promotion stage applies (and counts a use of). */
  function AppliedPromotion(items: seq<OrderItem>, products: map<string, Product>, promotions: map<string, Promotion>,
                            tier: MembershipTier, promo_code: Option<string>, now: int): Option<Promotion>
  {
    match SelectBulkDiscount(DefaultBulkDiscounts, TotalItems(items))
    case None => None
    case Some(bulk) =>
      var after_membership := RateStage(RateStage(Subtotal(items, products.Keys), bulk.discount), tier.Discount());
      ApplicablePromotion(promo_code, promotions, now, after_membership, items, products)
  }

  /** Discounted subtotal + tax + shipping; a Failure for an unknown
      shipping method. */
  function OrderTotal(discounted: real, customer: Customer, shipping_method: string, total_weight: real,
                      tier: MembershipTier): (r: Result<(real, real), string>)
    ensures r.Failure? <==> ShippingCost(shipping_method, total_weight, tier, discounted).Failure?
  {
    match ShippingCost(shipping_method, total_weight, tier, discounted)
    case Failure(e) => Failure(e)
    case Success(shipping) => Success((discounted + CalculateTax(discounted, customer) + shipping, shipping))
  }

  /** The checkout's pricing on the example cart: five items worth $1000 in
      total, a Gold customer with 500 points and a 10% promotion for all
      categories. Bulk 2% gives 980, Gold 15% gives 833, the promotion
      gives 749.70, and the points, capped at $5, give 744.70 and are all
      spent. */
  lemma ExampleCart(products: map<string, Product>, promotions: map<string, Promotion>, now: int)
    requires "P1" in products && "SAVE10" in promotions
    requires promotions["SAVE10"].discount_percent == 10.0 && promotions["SAVE10"].min_purchase == 50.0
    requires promotions["SAVE10"].category == "all" && now < promotions["SAVE10"].valid_until
    ensures Discounted([NewOrderItem("P1", 5, 200.0)], products, promotions, Gold, 500, Some("SAVE10"), now)
            == Some((744.7, 0))
  {
    var items := [NewOrderItem("P1", 5, 200.0)];
    assert TotalItems(items) == 5 by {
      assert items[..0] == [];
    }
    DefaultBulkSelection(5);
    assert Subtotal(items, products.Keys) == 1000.0 by {
      assert items[..0] == [];
    }
    assert RateStage(1000.0, 0.02) == 980.0;
    assert RateStage(980.0, 0.15) == 833.0;
    assert PromotionStage(833.0, 10.0) == 749.7;
    assert LoyaltyDiscount(749.7, 500) == 5.0;
    assert Trunc(5.0 * 100.0) == 500;
  }

  // ---------------------------------------------------------------------
  // The steps

  /** Step 2 of the facade: read-only, builds the lines and the weight. */
  method BuildOrderItems(store: DataStore, item_requests: seq<ItemRequest>)
    returns (order_items: Option<seq<OrderItem>>, total_weight: real)
    ensures order_items == RequestedItems(item_requests, store.products)
    ensures total_weight == TotalWeight(item_requests, store.products)
    ensures store.Stock() == old(store.Stock()) && store.Tiers() == old(store.Tiers())
  {
    var items: seq<OrderItem> := [];
    total_weight := 0.0;
    var i := 0;
    while i < |item_requests|
      invariant 0 <= i <= |item_requests|
      invariant RequestedItems(item_requests[..i], store.products) == Some(items)
      invariant total_weight == TotalWeight(item_requests[..i], store.products)
    {
      var request := item_requests[i];
      assert item_requests[..i + 1][..i] == item_requests[..i];
      var product := store.GetProduct(request.product_id);
      if product.None? {
        assert RequestedItems(item_requests[..i + 1], store.products).None?;
        RequestedNoneExtends(item_requests, i + 1, store.products);
        assert item_requests[..|item_requests|] == item_requests;
        return None, TotalWeight(item_requests, store.products);
      }
      items := items + [NewOrderItem(product.value.product_id, request.quantity, product.value.price)];
      total_weight := total_weight + product.value.weight * request.quantity as real;
      i := i + 1;
    }
    assert item_requests[..i] == item_requests;
    order_items := Some(items);
  }

  /** Once a prefix of the requests fails, every longer prefix fails. */
  lemma {:induction false} RequestedNoneExtends(requests: seq<ItemRequest>, n: nat, products: map<string, Product>)
    requires n <= |requests| && RequestedItems(requests[..n], products).None?
    ensures RequestedItems(requests, products).None?
    decreases |requests| - n
  {
    if n < |requests| {
      assert requests[..n + 1][..n] == requests[..n];
      RequestedNoneExtends(requests, n + 1, products);
    } else {
      assert requests[..n] == requests;
    }
  }

  /** Step 4: a fresh pricing engine runs the four stages. On success it
      yields the pre-discount subtotal and the discounted subtotal, the
      customer's points are those `Discounted` leaves, and the applied
      promotion, if any, has one more use; when no bulk tier qualifies
      nothing changes. */
  method PriceCart(store: DataStore, customer: Customer, order_items: seq<OrderItem>,
                   promo_code: Option<string>, now: int)
    returns (priced: Option<(real, real)>)
    requires store.Valid()
    modifies store.promotions.Values`used_count, customer`loyalty_points
    ensures store.Valid()
    ensures store.Stock() == old(store.Stock()) && store.Tiers() == old(store.Tiers())
    ensures var q := Discounted(order_items, old(store.products), old(store.promotions), old(customer.membership_tier),
                                old(customer.loyalty_points), promo_code, now);
            && priced.Some? == q.Some?
            && (q.Some? ==> priced.value == (Subtotal(order_items, old(store.products).Keys), q.value.0)
                            && customer.loyalty_points == q.value.1)
            && (q.None? ==> customer.loyalty_points == old(customer.loyalty_points))
    ensures CountedUse(store, AppliedPromotion(order_items, old(store.products), old(store.promotions),
                                               old(customer.membership_tier), promo_code, now))
  {
    var price_calc := new PricingService(order_items, store);
    var ok := OpenPricing(price_calc, customer);
    if !ok {
      return None;
    }
    var final_price := FinishPricing(price_calc, customer, promo_code, now);
    priced := Some((price_calc.subtotal, final_price));
  }

  /** The first half of step 4: the pricing engine runs the bulk stage with
      the container's tiers and then the membership stage. `ok` is false,
      and nothing is priced, when no bulk tier qualifies. */
  method OpenPricing(price_calc: PricingService, customer: Customer) returns (ok: bool)
    modifies price_calc`discounted_price, price_calc`bulk_discount_amount, price_calc`membership_discount_amount
    ensures price_calc.data_store.Stock() == old(price_calc.data_store.Stock())
    ensures price_calc.data_store.Tiers() == old(price_calc.data_store.Tiers())
    ensures var bulk := SelectBulkDiscount(DefaultBulkDiscounts, TotalItems(price_calc.order_items));
            && ok == bulk.Some?
            && (ok ==> price_calc.discounted_price
                       == RateStage(RateStage(old(price_calc.discounted_price), bulk.value.discount), customer.membership_tier.Discount()))
  {
    ok := price_calc.ApplyBulkDiscount(DefaultBulkDiscounts);
    if ok {
      price_calc.ApplyMembershipDiscount(customer);
    }
  }

  /** The promotion and loyalty stages of step 4, on a running price. */
  method FinishPricing(price_calc: PricingService, customer: Customer, promo_code: Option<string>, now: int)
    returns (final_price: real)
    requires PromotionsByCode(price_calc.data_store.promotions)
    modifies price_calc, price_calc.data_store.promotions.Values`used_count, customer`loyalty_points
    ensures price_calc.data_store.Stock() == old(price_calc.data_store.Stock())
    ensures price_calc.data_store.Tiers() == old(price_calc.data_store.Tiers())
    ensures var p := ApplicablePromotion(promo_code, price_calc.data_store.promotions, now,
                                         old(price_calc.discounted_price), price_calc.order_items,
                                         price_calc.data_store.products);
            var after := if p.Some? then PromotionStage(old(price_calc.discounted_price), p.value.discount_percent)
                         else old(price_calc.discounted_price);
            && (final_price, customer.loyalty_points) == LoyaltyStage(after, old(customer.loyalty_points))
            && CountedUse(price_calc.data_store, p)
  {
    price_calc.ApplyPromotionDiscount(promo_code, now);
    price_calc.ApplyLoyaltyDiscount(customer);
    final_price := price_calc.GetFinalDiscountedPrice();
  }

  /** The payment method recorded on the order: the payment's type, or
      "unknown" when it has none. */
  function PaymentMethodOf(info: PaymentInfo): string
  {
    if info.payment_type.Some? then info.payment_type.value else "unknown"
  }

  /** Step 9 and the first part of step 10: the order is recorded as
      Pending under the next id and its stock is deducted and logged. */
  method RecordOrder(store: DataStore, customer_id: string, order_items: seq<OrderItem>,
                     total_price: real, shipping_cost: real, payment_method: string, now: int)
    returns (order: Order)
    requires store.Valid()
    modifies store`orders, store`order_keys, store`next_order_id, store`inventory_logs
    modifies store.products.Values`quantity_available
    ensures store.Valid() && fresh(order)
    ensures order.order_id == old(store.next_order_id) && store.next_order_id == old(store.next_order_id) + 1
    ensures store.orders == old(store.orders)[order.order_id := order]
    ensures store.order_keys == old(store.order_keys) + [order.order_id]
    ensures order.customer_id == customer_id && order.items == order_items && order.created_at == now
    ensures order.status == Pending && order.total_price == total_price && order.shipping_cost == shipping_cost
    ensures order.tracking_number == None && order.payment_method == Some(payment_method)
    ensures store.Stock() == Deducted(old(store.Stock()), order_items)
    ensures store.inventory_logs == old(store.inventory_logs)
              + LineLogs(store.products.Keys, order_items, -1, "order_" + IntToString(order.order_id), now)
    ensures CountedUse(store, None)
  {
    ghost var stock0 := store.Stock();
    order := CreateOrder(store, customer_id, order_items, total_price, shipping_cost, payment_method, now);
    assert store.Stock() == stock0;
    DeductStockAndLog(store, order_items, order, now);
  }

  /** The rest of step 10: the customer's history gains the order and the
      points gain `int(subtotal)`, low stock is reported, and the tier is
      reconsidered with the new order counted. Stock is not touched. */
  method CreditCustomer(store: DataStore, customer: Customer, customer_id: string, order_id: int,
                        order_items: seq<OrderItem>, subtotal: real)
    requires store.Valid() && customer_id in store.customers && store.customers[customer_id] == customer
    modifies customer`order_history, customer`loyalty_points, store.customers.Values`membership_tier
    ensures store.Stock() == old(store.Stock()) && CountedUse(store, None)
    ensures customer.order_history == old(customer.order_history) + [order_id]
    ensures customer.loyalty_points == old(customer.loyalty_points) + Trunc(subtotal)
    ensures var u := UpgradedTier(old(customer.membership_tier), LifetimeValue(store.customers, store.orders, customer_id));
            store.Tiers() == if u.Some? then old(store.Tiers())[customer_id := u.value] else old(store.Tiers())
  {
    ghost var tiers0 := store.Tiers();
    FinalizeCustomerOrderUpdates(customer, order_id, subtotal);
    var _ := CheckAndNotifyLowStock(store, order_items);
    assert store.Tiers() == tiers0;
    var _ := CheckAndUpgradeMembership(store, customer_id);
  }

  /** Step 9 and step 10 together: record the order and deduct its stock,
      then credit the customer and reconsider the tier. */
  method Commit(store: DataStore, customer: Customer, customer_id: string, order_items: seq<OrderItem>,
                total_price: real, shipping_cost: real, payment_method: string, subtotal: real, now: int)
    returns (order: Order)
    requires store.Valid() && customer_id in store.customers && store.customers[customer_id] == customer
    modifies store`orders, store`order_keys, store`next_order_id, store`inventory_logs
    modifies store.products.Values`quantity_available
    modifies customer`loyalty_points, customer`order_history, store.customers.Values`membership_tier
    ensures store.Valid()
    ensures fresh(order) && order.order_id == old(store.next_order_id)
    ensures store.next_order_id == old(store.next_order_id) + 1
    ensures store.orders == old(store.orders)[order.order_id := order]
    ensures store.order_keys == old(store.order_keys) + [order.order_id]
    ensures order.customer_id == customer_id && order.items == order_items && order.created_at == now
    ensures order.status == Pending && order.total_price == total_price && order.shipping_cost == shipping_cost
    ensures order.tracking_number == None && order.payment_method == Some(payment_method)
    ensures store.Stock() == Deducted(old(store.Stock()), order_items)
    ensures store.inventory_logs == old(store.inventory_logs)
              + LineLogs(store.products.Keys, order_items, -1, "order_" + IntToString(order.order_id), now)
    ensures CountedUse(store, None)
    ensures customer.order_history == old(customer.order_history) + [order.order_id]
    ensures customer.loyalty_points == old(customer.loyalty_points) + Trunc(subtotal)
    ensures var u := UpgradedTier(old(customer.membership_tier), LifetimeValue(store.customers, store.orders, customer_id));
            store.Tiers() == if u.Some? then old(store.Tiers())[customer_id := u.value] else old(store.Tiers())
  {
    ghost var tiers0 := store.Tiers();
    order := RecordOrder(store, customer_id, order_items, total_price, shipping_cost, payment_method, now);
    assert store.Tiers() == tiers0;
    CreditCustomer(store, customer, customer_id, order.order_id, order_items, subtotal);
  }

  /** Steps 5 to 10 once the cart is priced at `discounted` (from
      `subtotal`): add tax and shipping, validate the payment, and record
      and credit the order. An unknown shipping method or a refused payment
      changes nothing. The ghost parameters name the customer's tier and
      points and the store's stock and tiers on entry. */
  method Settle(store: DataStore, customer: Customer, customer_id: string, order_items: seq<OrderItem>,
                total_weight: real, shipping_method: string, payment_info: PaymentInfo,
                subtotal: real, discounted: real, now: int,
                ghost tier0: MembershipTier, ghost points0: int,
                ghost stock0: map<string, int>, ghost tiers0: map<string, MembershipTier>)
    returns (result: Option<Order>)
    requires store.Valid() && customer_id in store.customers && store.customers[customer_id] == customer
    requires customer.membership_tier == tier0 && customer.loyalty_points == points0
    requires store.Stock() == stock0 && store.Tiers() == tiers0
    modifies store`orders, store`order_keys, store`next_order_id, store`inventory_logs
    modifies store.products.Values`quantity_available
    modifies customer`loyalty_points, customer`order_history, store.customers.Values`membership_tier
    ensures store.Valid() && CountedUse(store, None)
    ensures var t := OrderTotal(discounted, customer, shipping_method, total_weight, tier0);
            var paid := t.Success? && ValidatePayment(payment_info, t.value.0).0;
            && (result.Some? <==> paid)
            && (!paid ==> && store.orders == old(store.orders) && store.order_keys == old(store.order_keys)
                          && store.next_order_id == old(store.next_order_id)
                          && store.inventory_logs == old(store.inventory_logs)
                          && store.Stock() == stock0 && store.Tiers() == tiers0
                          && customer.loyalty_points == points0
                          && customer.order_history == old(customer.order_history))
            && (paid ==> var o := result.value;
                         && fresh(o) && o.order_id == old(store.next_order_id)
                         && store.next_order_id == old(store.next_order_id) + 1
                         && store.orders == old(store.orders)[o.order_id := o]
                         && store.order_keys == old(store.order_keys) + [o.order_id]
                         && o.customer_id == customer_id && o.items == order_items && o.created_at == now
                         && o.status == Pending && o.total_price == t.value.0 && o.shipping_cost == t.value.1
                         && o.tracking_number == None && o.payment_method == Some(PaymentMethodOf(payment_info))
                         && store.Stock() == Deducted(stock0, order_items)
                         && store.inventory_logs == old(store.inventory_logs)
                              + LineLogs(store.products.Keys, order_items, -1, "order_" + IntToString(o.order_id), now)
                         && customer.loyalty_points == points0 + Trunc(subtotal)
                         && customer.order_history == old(customer.order_history) + [o.order_id]
                         && var u := UpgradedTier(tier0, LifetimeValue(store.customers, store.orders, customer_id));
                            store.Tiers() == if u.Some? then tiers0[customer_id := u.value] else tiers0)
  {
    var tax := CalculateTax(discounted, customer);
    var shipping := ShippingCost(shipping_method, total_weight, customer.membership_tier, discounted);
    if shipping.Failure? {
      return None;
    }
    var shipping_cost := shipping.value;
    var total_price := discounted + tax + shipping_cost;
    var payment := ValidatePayment(payment_info, total_price);
    if !payment.0 {
      return None;
    }
    var order := Commit(store, customer, customer_id, order_items, total_price, shipping_cost,
                        PaymentMethodOf(payment_info), subtotal, now);
    return Some(order);
  }

  /** Steps 4 to 10 for an admitted cart: price it, add tax and shipping,
      validate the payment, and record and credit the order. An unknown
      shipping method or a refused payment abandons the order, but the
      points the loyalty stage spent and the promotion use it counted stay
      spent. */
  method ProcessAdmitted(store: DataStore, customer: Customer, customer_id: string, order_items: seq<OrderItem>,
                         total_weight: real, shipping_method: string, payment_info: PaymentInfo,
                         promo_code: Option<string>, now: int)
    returns (result: Option<Order>)
    requires store.Valid() && customer_id in store.customers && store.customers[customer_id] == customer
    modifies store`orders, store`order_keys, store`next_order_id, store`inventory_logs
    modifies store.products.Values`quantity_available, store.promotions.Values`used_count
    modifies customer`loyalty_points, customer`order_history, store.customers.Values`membership_tier
    ensures store.Valid()
    ensures CountedUse(store, AppliedPromotion(order_items, old(store.products), old(store.promotions),
                                               old(customer.membership_tier), promo_code, now))
    ensures var q := Discounted(order_items, old(store.products), old(store.promotions), old(customer.membership_tier),
                                old(customer.loyalty_points), promo_code, now);
            var t := if q.Some? then OrderTotal(q.value.0, customer, shipping_method, total_weight, old(customer.membership_tier))
                     else Failure("");
            var paid := q.Some? && t.Success? && ValidatePayment(payment_info, t.value.0).0;
            && (result.Some? <==> paid)
            && (q.None? ==> customer.loyalty_points == old(customer.loyalty_points))
            && (q.Some? && !paid ==> customer.loyalty_points == q.value.1)
            && (!paid ==> && store.orders == old(store.orders) && store.order_keys == old(store.order_keys)
                          && store.next_order_id == old(store.next_order_id)
                          && store.inventory_logs == old(store.inventory_logs)
                          && store.Stock() == old(store.Stock())
                          && customer.order_history == old(customer.order_history)
                          && store.Tiers() == old(store.Tiers()))
            && (paid ==> var o := result.value;
                         && fresh(o) && o.order_id == old(store.next_order_id)
                         && store.next_order_id == old(store.next_order_id) + 1
                         && store.orders == old(store.orders)[o.order_id := o]
                         && store.order_keys == old(store.order_keys) + [o.order_id]
                         && o.customer_id == customer_id && o.items == order_items && o.created_at == now
                         && o.status == Pending && o.total_price == t.value.0 && o.shipping_cost == t.value.1
                         && o.tracking_number == None && o.payment_method == Some(PaymentMethodOf(payment_info))
                         && store.Stock() == Deducted(old(store.Stock()), order_items)
                         && store.inventory_logs == old(store.inventory_logs)
                              + LineLogs(store.products.Keys, order_items, -1, "order_" + IntToString(o.order_id), now)
                         && customer.loyalty_points == q.value.1 + Trunc(Subtotal(order_items, old(store.products).Keys))
                         && customer.order_history == old(customer.order_history) + [o.order_id]
                         && var u := UpgradedTier(old(customer.membership_tier),
                                                  LifetimeValue(store.customers, store.orders, customer_id));
                            store.Tiers() == if u.Some? then old(store.Tiers())[customer_id := u.value] else old(store.Tiers()))
  {
    var priced := PriceCart(store, customer, order_items, promo_code, now);
    if priced.None? {
      return None;
    }
    ghost var q := Discounted(order_items, old(store.products), old(store.promotions), old(customer.membership_tier),
                              old(customer.loyalty_points), promo_code, now);
    result := Settle(store, customer, customer_id, order_items, total_weight, shipping_method, payment_info,
                     priced.value.0, priced.value.1, now,
                     old(customer.membership_tier), q.value.1, old(store.Stock()), old(store.Tiers()));
  }


  /** The customer, the products and the stock all check out, so pricing
      runs. */
  ghost predicate Admitted(store: DataStore, customer_id: string, item_requests: seq<ItemRequest>)
    reads store`products, store`customers, store.products.Values`quantity_available, store.products.Values`price
  {
    && customer_id in store.customers
    && RequestedItems(item_requests, store.products).Some?
    && Available(store.Stock(), RequestedItems(item_requests, store.products).value)
  }

  /** Steps 1 to 3 of the checkout: look the customer up, build the
      lines and check the stock. It changes nothing; on success it yields
      the customer, the lines and their total weight. */
  method Admit(store: DataStore, customer_id: string, item_requests: seq<ItemRequest>)
    returns (admitted: Option<(Customer, seq<OrderItem>, real)>)
    ensures store.Stock() == old(store.Stock()) && store.Tiers() == old(store.Tiers())
    ensures admitted.Some? == old(Admitted(store, customer_id, item_requests))
    ensures admitted.Some? ==>
              admitted.value == old((store.customers[customer_id], RequestedItems(item_requests, store.products).value,
                                     TotalWeight(item_requests, store.products)))
  {
    var customer := store.GetCustomer(customer_id);
    if customer.None? {
      return None;
    }
    var order_items, total_weight := BuildOrderItems(store, item_requests);
    if order_items.None? {
      return None;
    }
    var in_stock := CheckStockAvailability(store, order_items.value);
    if !in_stock {
      return None;
    }
    return Some((customer.value, order_items.value, total_weight));
  }

  /** `place_order_facade`: steps 1 to 3 reject an unknown customer, an
      unknown product or a short stock before anything changes; steps 4 to
      10 are those of `ProcessAdmitted`. */
  method PlaceOrderFacade(store: DataStore, customer_id: string, item_requests: seq<ItemRequest>,
                          shipping_method: string, payment_info: PaymentInfo, promo_code: Option<string>, now: int)
    returns (result: Option<Order>)
    requires store.Valid()
    modifies store`orders, store`order_keys, store`next_order_id, store`inventory_logs
    modifies store.products.Values`quantity_available, store.promotions.Values`used_count
    modifies store.customers.Values`loyalty_points, store.customers.Values`order_history
    modifies store.customers.Values`membership_tier
    ensures store.Valid()
    ensures !old(Admitted(store, customer_id, item_requests)) ==>
              && result.None?
              && unchanged(store) && unchanged(store.products.Values) && unchanged(store.customers.Values)
              && unchanged(store.promotions.Values)
    ensures old(Admitted(store, customer_id, item_requests)) ==>
              var customer := old(store.customers[customer_id]);
              var items := old(RequestedItems(item_requests, store.products)).value;
              var weight := old(TotalWeight(item_requests, store.products));
              && CountedUse(store, AppliedPromotion(items, old(store.products), old(store.promotions), old(customer.membership_tier),
                                                    promo_code, now))
              && (var q := Discounted(items, old(store.products), old(store.promotions), old(customer.membership_tier),
                                      old(customer.loyalty_points), promo_code, now);
                  var t := if q.Some? then OrderTotal(q.value.0, customer, shipping_method, weight, old(customer.membership_tier))
                           else Failure("");
                  var paid := q.Some? && t.Success? && ValidatePayment(payment_info, t.value.0).0;
                  && (result.Some? <==> paid)
                  && (q.None? ==> customer.loyalty_points == old(customer.loyalty_points))
                  && (q.Some? && !paid ==> customer.loyalty_points == q.value.1)
                  && (!paid ==> && store.orders == old(store.orders) && store.order_keys == old(store.order_keys)
                                && store.next_order_id == old(store.next_order_id)
                                && store.inventory_logs == old(store.inventory_logs)
                                && store.Stock() == old(store.Stock())
                                && customer.order_history == old(customer.order_history)
                                && store.Tiers() == old(store.Tiers()))
                  && (paid ==> var o := result.value;
                               && fresh(o) && o.order_id == old(store.next_order_id)
                               && store.next_order_id == old(store.next_order_id) + 1
                               && store.orders == old(store.orders)[o.order_id := o]
                               && store.order_keys == old(store.order_keys) + [o.order_id]
                               && o.customer_id == customer_id && o.items == items && o.created_at == now
                               && o.status == Pending && o.total_price == t.value.0 && o.shipping_cost == t.value.1
                               && o.tracking_number == None && o.payment_method == Some(PaymentMethodOf(payment_info))
                               && store.Stock() == Deducted(old(store.Stock()), items)
                               && store.inventory_logs == old(store.inventory_logs)
                                    + LineLogs(store.products.Keys, items, -1, "order_" + IntToString(o.order_id), now)
                               && customer.loyalty_points == q.value.1 + Trunc(Subtotal(items, old(store.products).Keys))
                               && customer.order_history == old(customer.order_history) + [o.order_id]
                               && var u := UpgradedTier(old(customer.membership_tier),
                                                        LifetimeValue(store.customers, store.orders, customer_id));
                                  store.Tiers() == if u.Some? then old(store.Tiers())[customer_id := u.value]
                                                   else old(store.Tiers())))
  {
    var admitted := Admit(store, customer_id, item_requests);
    if admitted.None? {
      return None;
    }
    var (customer, order_items, total_weight) := admitted.value;
    result := ProcessAdmitted(store, customer, customer_id, order_items, total_weight,
                              shipping_method, payment_info, promo_code, now);
  }
}
