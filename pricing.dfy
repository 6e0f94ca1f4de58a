/** The pricing engine. A running price starts at the cart subtotal and four
    stages shrink it in the order the checkout calls them: bulk, membership,
    promotion, loyalty. The promotion stage counts a use of the promotion and
    the loyalty stage spends the customer's points, both in place. */
module Pricing {
  import opened Wrappers
  import opened Money
  import opened Membership
  import opened Bulk
  import opened Domain
  import opened Store

  // ---------------------------------------------------------------------
  // Specification functions

  /** What one line adds to the subtotal: nothing when its product is not
      in the catalogue. */
  function LineAmount(item: OrderItem, catalog: set<string>): real
  {
    if item.product_id in catalog then item.quantity as real * item.unit_price else 0.0
  }

  /** Σ quantity × unit_price over the lines whose product resolves. */
  function Subtotal(items: seq<OrderItem>, catalog: set<string>): real
    decreases |items|
  {
    if items == [] then 0.0
    else Subtotal(items[..|items| - 1], catalog) + LineAmount(items[|items| - 1], catalog)
  }

  /** The subtotal of a concatenation is the sum of the parts' subtotals. */
  lemma {:induction false} SubtotalAppend(a: seq<OrderItem>, b: seq<OrderItem>, catalog: set<string>)
    ensures Subtotal(a + b, catalog) == Subtotal(a, catalog) + Subtotal(b, catalog)
    decreases |b|
  {
    if b != [] {
      assert (a + b)[..|a + b| - 1] == a + b[..|b| - 1];
      assert (a + b)[|a + b| - 1] == b[|b| - 1];
      SubtotalAppend(a, b[..|b| - 1], catalog);
    } else {
      assert a + b == a;
    }
  }

  /** With non-negative quantities and prices the subtotal is non-negative. */
  lemma {:induction false} SubtotalNonNegative(items: seq<OrderItem>, catalog: set<string>)
    requires forall i :: 0 <= i < |items| ==> items[i].quantity >= 0 && items[i].unit_price >= 0.0
    ensures Subtotal(items, catalog) >= 0.0
    decreases |items|
  {
    if items != [] {
      SubtotalNonNegative(items[..|items| - 1], catalog);
      var last := items[|items| - 1];
      assert last.quantity as real * last.unit_price >= 0.0;
    }
  }

  /** `sum(item.quantity for item in order_items)`. */
  function TotalItems(items: seq<OrderItem>): int
    decreases |items|
  {
    if items == [] then 0 else TotalItems(items[..|items| - 1]) + items[|items| - 1].quantity
  }

  /** The position of the bulk tier chosen for `total_items`: among the
      tiers whose minimum is met, one with the largest minimum, the earliest
      such in the list when several share it (Python's sort is stable, also
      when reversed). None when no tier qualifies: the source then fails
      indexing `[0]`. */
  function BestBulkIndex(available: seq<BulkDiscount>, total_items: int): (r: Option<nat>)
    ensures r.None? <==> forall i :: 0 <= i < |available| ==> available[i].min_quantity > total_items
    ensures r.Some? ==> r.value < |available| && available[r.value].min_quantity <= total_items
    ensures r.Some? ==> forall i :: 0 <= i < |available| && available[i].min_quantity <= total_items
                                    ==> available[i].min_quantity <= available[r.value].min_quantity
    ensures r.Some? ==> forall j :: 0 <= j < r.value && available[j].min_quantity <= total_items
                                    ==> available[j].min_quantity < available[r.value].min_quantity
    decreases |available|
  {
    if available == [] then None
    else
      var rest := BestBulkIndex(available[1..], total_items);
      if available[0].min_quantity > total_items then
        (if rest.Some? then Some(rest.value + 1) else None)
      else if rest.Some? && available[rest.value + 1].min_quantity > available[0].min_quantity then
        Some(rest.value + 1)
      else Some(0)
  }

  /** The tier itself (`sorted(qualified, reverse=True)[0]`). */
  function SelectBulkDiscount(available: seq<BulkDiscount>, total_items: int): (r: Option<BulkDiscount>)
    ensures r.None? <==> forall i :: 0 <= i < |available| ==> available[i].min_quantity > total_items
    ensures r.Some? ==> r.value in available && r.value.min_quantity <= total_items
    ensures r.Some? ==> forall t :: t in available && t.min_quantity <= total_items
                                    ==> t.min_quantity <= r.value.min_quantity
  {
    match BestBulkIndex(available, total_items)
    case None => None
    case Some(i) => Some(available[i])
  }

  /** With the checkout's tier list (none, five items, ten items), a cart
      of 4 items gets no rate, 6 items 2% and 11 items 5%; only a negative
      item count finds no tier. */
  lemma DefaultBulkSelection(total_items: int)
    ensures var r := SelectBulkDiscount([NoBulkDiscount, FiveItemsDiscount, TenItemsDiscount], total_items);
      && (total_items < 0 ==> r.None?)
      && (0 <= total_items < 5 ==> r == Some(NoBulkDiscount))
      && (5 <= total_items < 10 ==> r == Some(FiveItemsDiscount))
      && (10 <= total_items ==> r == Some(TenItemsDiscount))
  {
    var tiers := [NoBulkDiscount, FiveItemsDiscount, TenItemsDiscount];
    assert tiers[1..] == [FiveItemsDiscount, TenItemsDiscount];
    assert tiers[1..][1..] == [TenItemsDiscount];
    assert [TenItemsDiscount][1..] == [];
  }

  /** The bulk and membership stages: a positive rate takes that fraction
      off the running price, any other rate leaves it as it is. */
  function RateStage(price: real, rate: real): real
  {
    if rate > 0.0 then price - price * rate else price
  }

  /** With a rate in [0, 1] the stage keeps a non-negative price within
      [0, price]; a zero rate changes nothing. */
  lemma RateStageBounds(price: real, rate: real)
    requires 0.0 <= price && rate <= 1.0
    ensures 0.0 <= RateStage(price, rate) <= price
    ensures rate == 0.0 ==> RateStage(price, rate) == price
  {
    if rate > 0.0 {
      assert price * rate <= price * 1.0;
    }
  }

  /** One line of the cart belongs to `category`. */
  predicate LineInCategory(item: OrderItem, products: map<string, Product>, category: string)
  {
    item.product_id in products && products[item.product_id].category == category
  }

  /** The promotion the stage applies, if any. It applies only when a
      non-empty code is given, names a stored promotion, has not expired
      (now < valid_until), the running price reaches min_purchase, and its
      category is "all" or the category of some resolvable line. */
  function ApplicablePromotion(code: Option<string>, promotions: map<string, Promotion>, now: int,
                               price: real, items: seq<OrderItem>, products: map<string, Product>)
    : (r: Option<Promotion>)
    ensures r.Some? <==>
      && code.Some? && code.value != "" && code.value in promotions
      && now < promotions[code.value].valid_until
      && price >= promotions[code.value].min_purchase
      && (promotions[code.value].category == "all"
          || exists i :: 0 <= i < |items| && LineInCategory(items[i], products, promotions[code.value].category))
    ensures r.Some? ==> r.value == promotions[code.value]
  {
    if code.None? || code.value == "" then None
    else if code.value !in promotions then None
    else
      var promo := promotions[code.value];
      if now >= promo.valid_until then None
      else if price < promo.min_purchase then None
      else if promo.category == "all" then Some(promo)
      else if exists i :: 0 <= i < |items| && LineInCategory(items[i], products, promo.category) then Some(promo)
      else None
  }

  /** The promotion stage on success: discount_percent per cent off. */
  function PromotionStage(price: real, discount_percent: real): real
  {
    price - price * (discount_percent / 100.0)
  }

  /** With a percentage in [0, 100] the stage keeps the price in [0, price]. */
  lemma PromotionStageBounds(price: real, discount_percent: real)
    requires 0.0 <= price && 0.0 <= discount_percent <= 100.0
    ensures 0.0 <= PromotionStage(price, discount_percent) <= price
  {
    var f := discount_percent / 100.0;
    assert 0.0 <= f <= 1.0;
    assert 0.0 <= price * f <= price * 1.0;
  }

  /** The loyalty discount: 10% of the running price, capped by the value
      of the points at one cent each. */
  function LoyaltyDiscount(price: real, points: int): real
  {
    var from_price := price * 0.1;
    var from_points := points as real * 0.01;
    if from_price <= from_points then from_price else from_points
  }

  /** The loyalty stage: below 100 points nothing happens; otherwise the
      discount comes off the price and `int(discount * 100)` points are
      spent. Yields the new price and the new point balance. */
  function LoyaltyStage(price: real, points: int): (real, int)
  {
    if points >= 100 then
      var d := LoyaltyDiscount(price, points);
      (price - d, points - Trunc(d * 100.0))
    else (price, points)
  }

  /** The loyalty stage never spends more points than the customer has, so
      the balance never goes negative, and with a non-negative price it
      keeps the price within [0.9 × price, price]. */
  lemma LoyaltyStageBounds(price: real, points: int)
    ensures points >= 0 ==> LoyaltyStage(price, points).1 >= 0
    ensures points >= 100 && price >= 0.0 ==>
      && 0.0 <= LoyaltyDiscount(price, points) <= price * 0.1
      && LoyaltyDiscount(price, points) <= points as real * 0.01
      && price * 0.9 <= LoyaltyStage(price, points).0 <= price
      && 0 <= LoyaltyStage(price, points).1 <= points
  {
    if points >= 100 {
      var d := LoyaltyDiscount(price, points);
      assert d <= points as real * 0.01;
      assert d * 100.0 <= points as real;
      var spent := Trunc(d * 100.0);
      assert spent <= points;
    }
  }

  /** 500 points on a $100 price give $5 off and use all 500 points; 1000
      points on $50 are capped at $5 (10% of the price) and use 500. */
  lemma LoyaltyExamples()
    ensures LoyaltyStage(100.0, 500) == (95.0, 0)
    ensures LoyaltyStage(50.0, 1000) == (45.0, 500)
    ensures LoyaltyStage(100.0, 99) == (100.0, 99)
  {
    assert LoyaltyDiscount(100.0, 500) == 5.0;
    assert Trunc(5.0 * 100.0) == 500;
    assert LoyaltyDiscount(50.0, 1000) == 5.0;
  }

  // ---------------------------------------------------------------------
  // The engine

  /** `_calculate_subtotal`: the accumulation loop over the lines. */
  method CalculateSubtotal(order_items: seq<OrderItem>, data_store: DataStore) returns (subtotal: real)
    ensures subtotal == Subtotal(order_items, data_store.products.Keys)
  {
    subtotal := 0.0;
    var i := 0;
    while i < |order_items|
      invariant 0 <= i <= |order_items|
      invariant subtotal == Subtotal(order_items[..i], data_store.products.Keys)
    {
      var item := order_items[i];
      var product := data_store.GetProduct(item.product_id);
      if product.Some? {
        subtotal := subtotal + item.quantity as real * item.unit_price;
      }
      assert order_items[..i + 1][..i] == order_items[..i];
      i := i + 1;
    }
    assert order_items[..i] == order_items;
  }

  /** The use counts of the stored promotions: `applied`, if any, has one
      more use and every other promotion keeps its count. */
  twostate predicate CountedUse(store: DataStore, new applied: Option<Promotion>)
    reads store`promotions, store.promotions.Values`used_count
  {
    && store.promotions == old(store.promotions)
    && forall c :: c in store.promotions ==>
         store.promotions[c].used_count
         == old(store.promotions[c].used_count) + (if applied.Some? && c == applied.value.code then 1 else 0)
  }

  class PricingService {
    const order_items: seq<OrderItem>
    const data_store: DataStore
    const subtotal: real
    var discounted_price: real
    var promotion_discount_amount: real
    var bulk_discount_amount: real
    var membership_discount_amount: real
    var loyalty_discount_amount: real

    /** The running price starts at the subtotal; no discount is recorded. */
    constructor (order_items: seq<OrderItem>, data_store: DataStore)
      ensures this.order_items == order_items && this.data_store == data_store
      ensures subtotal == Subtotal(order_items, data_store.products.Keys)
      ensures discounted_price == subtotal
      ensures promotion_discount_amount == 0.0 && bulk_discount_amount == 0.0
      ensures membership_discount_amount == 0.0 && loyalty_discount_amount == 0.0
    {
      this.order_items := order_items;
      this.data_store := data_store;
      var s := CalculateSubtotal(order_items, data_store);
      subtotal := s;
      discounted_price := s;
      promotion_discount_amount, bulk_discount_amount := 0.0, 0.0;
      membership_discount_amount, loyalty_discount_amount := 0.0, 0.0;
    }

    /** `apply_membership_discount`: the customer's tier rate off the running
        price (Suspended's rate 0 changes nothing). */
    method ApplyMembershipDiscount(customer: Customer)
      modifies this`discounted_price, this`membership_discount_amount
      ensures var rate := customer.membership_tier.Discount();
        && discounted_price == RateStage(old(discounted_price), rate)
        && membership_discount_amount == (if rate > 0.0 then old(discounted_price) * rate
                                          else old(membership_discount_amount))
    {
      var discount_rate := customer.membership_tier.Discount();
      if discount_rate > 0.0 {
        membership_discount_amount := discounted_price * discount_rate;
        discounted_price := discounted_price - membership_discount_amount;
      }
    }

    /** `apply_promotion_discount`: when `ApplicablePromotion` finds a
        promotion, its percentage comes off the running price and its use
        count goes up by exactly one; otherwise nothing changes. No other
        promotion's count changes. */
    method ApplyPromotionDiscount(promotion_code: Option<string>, now: int)
      requires PromotionsByCode(data_store.promotions)
      modifies this`discounted_price, this`promotion_discount_amount, data_store.promotions.Values`used_count
      ensures var p := ApplicablePromotion(promotion_code, data_store.promotions, now, old(discounted_price),
                                           order_items, data_store.products);
        && (p.None? ==> discounted_price == old(discounted_price)
                        && promotion_discount_amount == old(promotion_discount_amount))
        && (p.Some? ==> discounted_price == PromotionStage(old(discounted_price), p.value.discount_percent)
                        && promotion_discount_amount == old(discounted_price) * (p.value.discount_percent / 100.0))
        && CountedUse(data_store, p)
    {
      if promotion_code.None? || promotion_code.value == "" {
        return;
      }
      if promotion_code.value !in data_store.promotions {
        return;
      }
      var promo := data_store.promotions[promotion_code.value];
      if now >= promo.valid_until {
        return;
      }
      if discounted_price < promo.min_purchase {
        return;
      }
      var applicable := false;
      if promo.category == "all" {
        applicable := true;
      } else {
        var i := 0;
        while i < |order_items|
          invariant 0 <= i <= |order_items|
          invariant !applicable
          invariant forall j :: 0 <= j < i ==> !LineInCategory(order_items[j], data_store.products, promo.category)
        {
          var product := data_store.GetProduct(order_items[i].product_id);
          if product.Some? && product.value.category == promo.category {
            applicable := true;
            break;
          }
          i := i + 1;
        }
      }
      if applicable {
        var promo_discount_rate := promo.discount_percent / 100.0;
        promotion_discount_amount := discounted_price * promo_discount_rate;
        discounted_price := discounted_price - promotion_discount_amount;
        promo.used_count := promo.used_count + 1;
      }
    }

    /** `apply_bulk_discount`: the rate of the tier `SelectBulkDiscount`
        picks for the cart's total item count comes off the running price.
        `ok` is false exactly when no tier qualifies (where the source's
        `[0]` raises), and then nothing changes. */
    method ApplyBulkDiscount(available_discounts: seq<BulkDiscount>) returns (ok: bool)
      modifies this`discounted_price, this`bulk_discount_amount
      ensures var best := SelectBulkDiscount(available_discounts, TotalItems(order_items));
        && ok == best.Some?
        && (!ok ==> discounted_price == old(discounted_price) && bulk_discount_amount == old(bulk_discount_amount))
        && (ok ==> discounted_price == RateStage(old(discounted_price), best.value.discount)
                   && bulk_discount_amount == (if best.value.discount > 0.0 then old(discounted_price) * best.value.discount
                                               else old(bulk_discount_amount)))
    {
      var total_items := TotalItems(order_items);
      var best := SelectBulkDiscount(available_discounts, total_items);
      if best.None? {
        return false;
      }
      var bulk_discount_rate := best.value.discount;
      if bulk_discount_rate > 0.0 {
        bulk_discount_amount := discounted_price * bulk_discount_rate;
        discounted_price := discounted_price - bulk_discount_amount;
      }
      return true;
    }

    /** `apply_loyalty_discount`: the running price and the customer's
        points become `LoyaltyStage` of their old values; the recorded
        amount is the discount granted. */
    method ApplyLoyaltyDiscount(customer: Customer)
      modifies this`discounted_price, this`loyalty_discount_amount, customer`loyalty_points
      ensures (discounted_price, customer.loyalty_points) == LoyaltyStage(old(discounted_price), old(customer.loyalty_points))
      ensures loyalty_discount_amount == (if old(customer.loyalty_points) >= 100
                                          then LoyaltyDiscount(old(discounted_price), old(customer.loyalty_points))
                                          else old(loyalty_discount_amount))
    {
      if customer.loyalty_points >= 100 {
        var max_discount_from_price := discounted_price * 0.1;
        var max_discount_from_points := customer.loyalty_points as real * 0.01;
        var loyalty_discount := if max_discount_from_price <= max_discount_from_points
                                then max_discount_from_price else max_discount_from_points;
        loyalty_discount_amount := loyalty_discount;
        discounted_price := discounted_price - loyalty_discount_amount;
        customer.loyalty_points := customer.loyalty_points - Trunc(loyalty_discount * 100.0);
      }
    }

    /** `get_final_discounted_price`: the running price after the stages. */
    function GetFinalDiscountedPrice(): (r: real)
      reads this
      ensures r == discounted_price
    {
      discounted_price
    }
  }
}
