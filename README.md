# Retail checkout, modelled in Dafny

This project models the core of an in-memory retail system. A `DataStore`
holds keyed maps of products, customers, orders, suppliers, promotions and
shipments. It also holds two id counters and an append-only inventory
audit log. Stateless services run over it:

- an inventory ledger: an availability check, stock deduction and
  restoration with audit entries, restocking, and low-stock filters;
- an order lifecycle over Pending / Shipped / Delivered / Cancelled;
- customer accounts: loyalty earning, lifetime value, a one-way tier
  upgrade, and marketing segments;
- rate and validation tables: shipping, tax and payment;
- a product price update;
- a read-only sales report.

A pricing engine starts a running price at the cart subtotal. Four stages
then lower it: bulk, membership, promotion, loyalty. The checkout facade
`place_order_facade` runs the whole pipeline:

1. look up the customer;
2. build the order lines;
3. check the stock;
4. price the cart;
5. add tax;
6. add shipping;
7. take the total;
8. validate the payment;
9. create the order;
10. deduct the stock, credit the customer, and check for an upgrade.

Model layout:

- **Mutable records.** Products, customers, orders and promotions are
  classes. Their reassigned fields are `var`; fields never reassigned are
  `const`. Order lines, suppliers, shipments and audit entries are
  datatypes.
- **The store.** `Store.DataStore` is a class. Python dicts iterate in
  insertion order, so each map the services iterate over carries a key
  list in that order.
- **The indexing invariant.** `Store.DataStore.Valid` states it: every
  record sits under its own id, and every allocated id is below its
  counter.
- **Views.** Functions such as `Stock()`, `Statuses()` and `Tiers()` give
  the fields the services update across the store's records. Methods
  state their effect as an update of these maps.
- **Services.** Each service is a module of methods taking the store.
  `Pricing.PricingService` is a class, because it owns a running price.
- **Loops.** Every loop of the source is a `while` loop. It is proved
  against a recursive specification function, and lemmas state what the
  source promises about that function.
- **Exact arithmetic.** Money is an exact `real`, and times are integer
  seconds. `Money.Trunc` is Python's `int()` of a float. `Money.Round2`
  is `round(x, 2)`.

The clock and the tracking number's random draw are parameters (`now`,
`draw`). So is the possible failure of the shipment call
(`shipment_fails`).

## Model

| member | source | states |
|---|---|---|
| Domain.NewOrderItem | TODO/submission/domain/models/OrderItem.py:5-14 | a new line has the given product, quantity and unit price, and no discount recorded |
| Domain.Product.constructor | TODO/submission/domain/models/Product.py:2-20 | every field is as given, and the product is discount-eligible |
| Domain.TierFromString | TODO/submission/domain/models/Customer.py:36-45 | bronze, silver and gold map to the tier of that name; exactly the other strings give Suspended |
| Domain.TierFromNameRoundTrip | TODO/submission/domain/models/Customer.py:36-45 | reading a tier's own name back gives that tier, Suspended included |
| Domain.Customer.constructor | TODO/submission/domain/models/Customer.py:12-34 | fields as given, the tier read from its string, an empty order history |
| Domain.Order.constructor | TODO/submission/domain/models/Order.py:7-27 | fields as given; no tracking number and no payment method yet |
| Domain.Promotion.constructor | TODO/submission/domain/models/Promotion.py:3-18 | fields as given, use count 0 |
| Membership.TierTable | TODO/submission/services/pricing/strategies/membership_discount.py:20-70 | the four tiers' names and rates: suspended 0, bronze 0.03, silver 0.07, gold 0.15 |
| Membership.DiscountIsRate | TODO/submission/services/pricing/strategies/membership_discount.py:20-70 | every rate lies in [0, 1), and rates grow with the tier order |
| Membership.NameIdentifiesTier | TODO/submission/domain/enums/membership_tier.py:3-7 | distinct tiers have distinct names, so the source's name comparisons decide the tier |
| Bulk.BulkTable | TODO/submission/services/pricing/strategies/bulk_discount.py:15-43 | the three bulk tiers: minimum 0 at 0%, 5 at 2%, 10 at 5% |
| Money.Trunc | TODO/submission/services/customer_service.py:67 | `int(x)` rounds toward zero: the result lies within 1 of x, on x's side of zero |
| Money.Round2 | TODO/submission/services/payment_service.py:49 | `round(x, 2)` lies within half a cent of x |
| Money.Round2Cents | TODO/submission/services/payment_service.py:49 | an amount already in whole cents is left unchanged by rounding |
| Text.NatToString | TODO/submission/services/shipping_service.py:63 | `str(n)` is a non-empty run of digits, with no leading zero from 10 on |
| Text.IntToString | TODO/submission/services/inventory_service.py:56 | `str(i)` is non-empty and starts with '-' exactly when i is negative |
| Text.ParseNatToString | TODO/submission/services/shipping_service.py:63 | reading the decimal rendering back gives the number |
| Text.NatToStringInjective | TODO/submission/services/shipping_service.py:63 | distinct numbers render as distinct strings |
| Text.NatToStringFourDigits | TODO/submission/services/shipping_service.py:63 | a draw from 1000 to 9999 renders in exactly four characters |
| Store.InsertKey | TODO/submission/repositories/in_memory/DataStore.py:50 | after `m[k] = v` the key list still lists each key once: a new key goes last, an existing key keeps its place |
| Store.DataStore.constructor | TODO/submission/repositories/in_memory/DataStore.py:11-22 | a fresh store is valid and empty, with both counters at 1 |
| Store.DataStore.LogInventoryChange | TODO/submission/repositories/in_memory/DataStore.py:24-35 | exactly one entry is appended to the log, and earlier entries are untouched |
| Store.DataStore.AddProduct | TODO/submission/repositories/in_memory/DataStore.py:37-52 | the product is stored under its id, replacing any there; its key order is updated; one "initial_stock" entry is logged; validity is kept |
| Store.DataStore.AddCustomer | TODO/submission/repositories/in_memory/DataStore.py:54-68 | the customer is stored under its id, with its fields and tier as given; validity is kept |
| Store.DataStore.AddSupplier | TODO/submission/repositories/in_memory/DataStore.py:70-79 | the supplier is stored under its id; validity is kept |
| Store.DataStore.AddPromotion | TODO/submission/repositories/in_memory/DataStore.py:81-94 | the promotion is stored under its code (not its promo_id), with use count 0; validity is kept |
| Store.DataStore.GetProduct | TODO/submission/repositories/in_memory/DataStore.py:96-97 | Some exactly when the id is stored, and then the stored product |
| Store.DataStore.GetCustomer | TODO/submission/repositories/in_memory/DataStore.py:99-100 | Some exactly when the id is stored, and then the stored customer |
| Store.DataStore.GetSupplier | TODO/submission/repositories/in_memory/DataStore.py:102-103 | Some exactly when the id is stored, and then the stored supplier |
| Pricing.SubtotalAppend | TODO/submission/services/pricing/PricingService.py:26-33 | the subtotal of two carts joined is the sum of their subtotals |
| Pricing.SubtotalNonNegative | TODO/submission/services/pricing/PricingService.py:26-33 | non-negative quantities and prices give a non-negative subtotal |
| Pricing.CalculateSubtotal | TODO/submission/services/pricing/PricingService.py:26-33 | the loop sums quantity × unit_price over the lines whose product resolves |
| Pricing.BestBulkIndex | TODO/submission/services/pricing/PricingService.py:86-98 | None exactly when no tier's minimum is met; otherwise a qualifying tier with the largest minimum, the first such in the list, as the stable reverse sort picks it |
| Pricing.SelectBulkDiscount | TODO/submission/services/pricing/PricingService.py:86-98 | the tier chosen qualifies, and no qualifying tier has a larger minimum; None exactly when none qualifies |
| Pricing.DefaultBulkSelection | TODO/submission/application/main.py:83 | with the container's tier list: 0-4 items get no rate, 5-9 get 2%, 10 and more get 5%; a negative count finds no tier |
| Pricing.RateStageBounds | TODO/submission/services/pricing/PricingService.py:35-43 | a rate stage keeps a non-negative price within [0, price], and a zero rate changes nothing |
| Pricing.ApplicablePromotion | TODO/submission/services/pricing/PricingService.py:45-72 | a promotion applies exactly when: the code is non-empty and stored; now < valid_until; the running price reaches min_purchase; and the category is "all" or that of some resolvable line |
| Pricing.PromotionStageBounds | TODO/submission/services/pricing/PricingService.py:73-76 | a percentage in [0, 100] keeps a non-negative price within [0, price] |
| Pricing.LoyaltyStageBounds | TODO/submission/services/pricing/PricingService.py:109-120 | the discount is at most 10% of the price and at most the points' value; the price stays within [0.9 × price, price]; points never go negative nor rise |
| Pricing.LoyaltyExamples | TODO/submission/tests/test_services/test_pricing_service.py:80-100 | 500 points on $100 give $5 off and spend all 500 points; 1000 points on $50 are capped at $5; 99 points do nothing |
| Pricing.PricingService.constructor | TODO/submission/services/pricing/PricingService.py:13-24 | the running price starts at the subtotal, and no discount amount is recorded |
| Pricing.PricingService.ApplyMembershipDiscount | TODO/submission/services/pricing/PricingService.py:35-43 | the tier's rate comes off the running price; rate 0 changes nothing |
| Pricing.PricingService.ApplyPromotionDiscount | TODO/submission/services/pricing/PricingService.py:45-82 | if a promotion applies, its percentage comes off the running price and its use count rises by exactly one; otherwise nothing changes; no other promotion's count changes |
| Pricing.PricingService.ApplyBulkDiscount | TODO/submission/services/pricing/PricingService.py:84-107 | the selected tier's rate comes off the running price; when no tier qualifies (the source's `[0]` raises) it fails and changes nothing |
| Pricing.PricingService.ApplyLoyaltyDiscount | TODO/submission/services/pricing/PricingService.py:109-126 | the running price and the points become the loyalty stage of their old values; the recorded amount is the discount granted |
| Pricing.PricingService.GetFinalDiscountedPrice | TODO/submission/services/pricing/PricingService.py:128-130 | the getter returns the running price |
| Tax.TaxRateTable | TODO/submission/services/pricing/strategies/tax_strategy.py:9-27 | the rates are default 8%, CA 7.25%, NY 4%, TX 6.25%; every rate lies in (0, 1) |
| Tax.GetStrategy | TODO/submission/services/tax_service.py:25-40 | no address or an empty one gives the default rate; otherwise the first of CA, NY and TX that occurs as a substring decides; none of them gives the default |
| Tax.CalculateTax | TODO/submission/services/tax_service.py:43-55 | a non-negative subtotal's tax is non-negative and, unless the subtotal is 0, strictly below it |
| Tax.ContainsSuffix | TODO/submission/services/tax_service.py:33-38 | a string contains each of its suffixes, as the substring test sees them |
| Tax.CaliforniaAddress | TODO/submission/tests/test_services/test_tax_service.py:42-51 | an address ending in ", CA" gets the California rate |
| Payment.Validate | TODO/submission/services/pricing/strategies/payment_strategy.py:16-36 | a card number needs 16 or more characters; PayPal needs a non-empty email; the unknown type always fails; a message is empty exactly on success |
| Payment.StrategyFor | TODO/submission/services/payment_service.py:54-60 | credit_card and paypal select their strategy; a missing or other type selects the unknown strategy |
| Payment.ValidatePayment | TODO/submission/services/payment_service.py:39-69 | succeeds exactly when the info is valid, the amount covers the total rounded to cents, and the strategy accepts; the checks run in that order, each failure with its message |
| Payment.PaymentMessages | TODO/submission/services/payment_service.py:45-69 | every outcome carries one of the six messages |
| Payment.RoundedTotalAccepted | TODO/submission/tests/test_services/test_payment_service.py:122-131 | paying 100.00 against a total of 100.001 passes, because the total is rounded first |
| Shipping.StrategyFor | TODO/submission/services/shipping_service.py:41-45 | exactly standard, express and overnight are known, each to its own strategy |
| Shipping.ShippingCost | TODO/submission/services/shipping_service.py:47-60 | an unknown method fails with "Invalid shipping method: " + method, and only then |
| Shipping.ShippingCostTable | TODO/submission/services/shipping_strategy.py:16-49 | express is 25 + 0.5 × weight, halved for Gold; standard is 5 + 0.2 × weight below a $50 subtotal, else free; overnight is 50 + weight |
| Shipping.ShippingCostBounds | TODO/submission/services/shipping_strategy.py:16-49 | for a non-negative weight every cost is non-negative, and Gold never pays more than any other tier |
| Shipping.TrackingNumberDecodes | TODO/submission/services/shipping_service.py:63 | with a four-digit draw the tracking number is "TRACK", the order id's digits, then the draw's four digits, and both read back |
| Shipping.TrackingNumberInjective | TODO/submission/services/shipping_service.py:63 | distinct (order id, draw) pairs never share a tracking number |
| Shipping.CreateShipmentForOrder | TODO/submission/services/shipping_service.py:62-78 | takes the next shipment id, raises the counter by one, and stores an in_transit shipment under the previously unused id; order statuses and tracking numbers are unchanged |
| Inventory.ShiftedAt | TODO/submission/services/inventory_service.py:48-57 | applying the lines moves each catalogue product by sign × the total quantity its lines request |
| Inventory.StockConservation | TODO/submission/services/inventory_service.py:48-78 | restoring the deducted lines gives back the original stock, and so does deducting the restored ones |
| Inventory.LineLogsShape | TODO/submission/services/inventory_service.py:48-78 | every appended audit entry carries the reason and the time, and names a catalogue product |
| Inventory.LineLogsAccount | TODO/submission/services/inventory_service.py:48-78 | for each catalogue product, the entries' net change equals sign × the quantity its lines moved |
| Inventory.QuantityOfDistinct | TODO/submission/services/inventory_service.py:112-119 | with distinct products per line, a product's total quantity is that of its one line, or 0 |
| Inventory.DeductAfterCheckNonNegative | TODO/submission/services/inventory_service.py:112-119 | with distinct products per line, passing the check means deduction leaves no non-negative stock negative |
| Inventory.DuplicateLinesOverdraw | TODO/submission/services/inventory_service.py:112-119 | with stock 3 and two lines of 2 for one product, the check passes and deduction leaves -1 |
| Inventory.LowStockNoticesSpec | TODO/submission/services/inventory_service.py:59-65 | a product is reported exactly when some line names it and its stock is below 5 |
| Inventory.LowStockIds | TODO/submission/services/inventory_service.py:99-106 | the listed ids are catalogue keys |
| Inventory.LowStockIdsSpec | TODO/submission/services/inventory_service.py:99-106 | the threshold is inclusive: exactly the products with stock at or below it are listed |
| Inventory.CheckStockAvailability | TODO/submission/services/inventory_service.py:108-120 | true exactly when every line's product exists with at least the line's quantity; changes nothing |
| Inventory.ShiftProduct | TODO/submission/services/inventory_service.py:52 | exactly one product's stock moves by delta |
| Inventory.ShiftLine | TODO/submission/services/inventory_service.py:49-57 | one line moves its product's stock by sign × quantity and logs one entry when the product exists; otherwise nothing happens |
| Inventory.ShiftLines | TODO/submission/services/inventory_service.py:48-57 | the stock becomes the lines applied in order, and the log gains exactly the lines' entries |
| Inventory.DeductStockAndLog | TODO/submission/services/inventory_service.py:48-57 | each resolvable line's quantity comes off its product, with an "order_<id>" entry logged |
| Inventory.RestoreStock | TODO/submission/services/inventory_service.py:68-78 | each resolvable line's quantity goes back to its product, with a "cancel_order_<id>" entry; statuses are unchanged |
| Inventory.CheckAndNotifyLowStock | TODO/submission/services/inventory_service.py:59-65 | the products notified are the low-stock notices of the lines |
| Inventory.RestockProduct | TODO/submission/services/inventory_service.py:80-97 | accepted exactly when the product exists and any given supplier matches; then its stock rises by the quantity with a "restock" entry; otherwise nothing changes |
| Inventory.GetLowStockProducts | TODO/submission/services/inventory_service.py:99-106 | in catalogue order, the products whose stock is at or below the threshold |
| Orders.CreateOrder | TODO/submission/services/order_service.py:74-98 | takes the next order id (never used before) and raises the counter by one; stores a Pending order with the given fields and payment method, last in key order |
| Orders.CreateTwoOrders | TODO/submission/services/order_service.py:83-84 | two successive orders get consecutive ids and are distinct stored records |
| Orders.GetOrder | TODO/submission/services/order_service.py:100-104 | Some exactly when the id is stored, and then the stored order |
| Orders.SetStatus | TODO/submission/services/order_service.py:111 | exactly one order's status changes |
| Orders.SetTracking | TODO/submission/services/order_service.py:121 | exactly one order's tracking number changes |
| Orders.UpdateOrderStatus | TODO/submission/services/order_service.py:106-125 | the status is overwritten first, to any target; a move to Shipped without a tracking number creates a shipment; if that call fails, the result is None but the new status stays |
| Orders.ApplyAdditionalDiscount | TODO/submission/services/order_service.py:127-144 | only a Pending order's total changes, to total × (1 - percent/100); any other case returns None and changes no total |
| Orders.CancelOrder | TODO/submission/services/order_service.py:146-167 | an unknown, Shipped or Delivered order gives false; an already Cancelled order gives true; neither changes anything; a Pending order has its stock restored and logged, becomes Cancelled, and gives true |
| Orders.CancelPending | TODO/submission/services/order_service.py:158-167 | the order's lines go back to stock with their audit entries, and the order becomes Cancelled |
| Orders.CancelTwice | TODO/submission/services/order_service.py:146-167 | cancelling twice succeeds both times and restores the stock exactly once |
| Orders.OrdersOfSpec | TODO/submission/services/order_service.py:169-176 | exactly the stored orders whose customer id matches are listed |
| Orders.GetCustomerOrders | TODO/submission/services/order_service.py:169-176 | the scan returns those orders in creation order |
| Customers.FinalizeCustomerOrderUpdates | TODO/submission/services/customer_service.py:61-67 | the order id joins the history, and `int(subtotal)` is added to the points |
| Customers.CancelledOrderCountsAsWritten | TODO/submission/services/customer_service.py:84-89 | as written, a cancelled order adds its total to the lifetime value; the corrected value adds nothing |
| Customers.AsWrittenAgreesWithoutCancelled | TODO/submission/services/customer_service.py:84-89 | without cancelled orders in the history, the as-written value and the corrected one agree |
| Customers.AsWrittenOvercounts | TODO/submission/services/customer_service.py:84-89 | with non-negative totals, 0 ≤ the corrected value ≤ the as-written value |
| Customers.GetCustomerLifetimeValue | TODO/submission/services/customer_service.py:76-91 | 0 for an unknown customer; otherwise the totals of the resolvable, non-cancelled orders of the history |
| Customers.UpgradedTier | TODO/submission/services/customer_service.py:102-121 | Suspended and Gold never change and tiers only rise; Bronze or Silver with value ≥ 1000 goes to Gold; Bronze with value in [500, 1000) goes to Silver |
| Customers.UpgradeSettles | TODO/submission/services/customer_service.py:113-118 | after an upgrade the rule, applied again with the same value, upgrades no further |
| Customers.SetTier | TODO/submission/services/customer_service.py:124 | exactly one customer's tier changes |
| Customers.CheckAndUpgradeMembership | TODO/submission/services/customer_service.py:93-127 | an unknown customer gives false and changes nothing; otherwise the rule is applied to the stored customer, and the result says whether a tier changed |
| Customers.SegmentIds | TODO/submission/services/customer_service.py:129-156 | only stored customers are selected |
| Customers.SegmentIdsSpec | TODO/submission/services/customer_service.py:136-156 | a customer is selected exactly when it is stored and in the segment |
| Customers.SegmentAll | TODO/submission/services/customer_service.py:136-137 | 'all' selects every stored customer, in insertion order |
| Customers.SegmentUnknown | TODO/submission/services/customer_service.py:139-154 | a segment other than all, gold and inactive selects nobody |
| Customers.FindRecentOrder | TODO/submission/services/customer_service.py:144-151 | true exactly when some resolvable order of the history was created strictly after the cutoff |
| Customers.Selects | TODO/submission/services/customer_service.py:140-154 | the test applied to one customer is segment membership |
| Customers.GetCustomersForSegment | TODO/submission/services/customer_service.py:129-156 | the selected customers in insertion order; 'inactive' means no order in the last 90 days |
| Products.UpdateProductPrice | TODO/submission/services/product_service.py:21-37 | succeeds exactly when the product exists; then only its price changes, otherwise no price changes |
| Products.RepriceAfterLine | TODO/submission/application/main.py:167-171 | a line keeps the unit price it was built with after the catalogue price changes |
| Reporting.CountsPartition | TODO/submission/services/reporting_service.py:53-72 | every in-range order is counted exactly once, as a sale or as a cancellation |
| Reporting.SoldItemsAt | TODO/submission/services/reporting_service.py:59-65 | an order adds, for each catalogue product, the total quantity its lines request; other ids are not tallied |
| Reporting.ProductsSoldKeys | TODO/submission/services/reporting_service.py:59-65 | only catalogue products appear in the products-sold tally |
| Reporting.RevenueItemsKeys | TODO/submission/services/reporting_service.py:67-70 | adding one order's lines to a tally adds only categories of catalogue products |
| Reporting.RevenueByCategoryKeys | TODO/submission/services/reporting_service.py:58-70 | every category in the whole report's revenue tally is the category of some catalogue product |
| Reporting.Spending | TODO/submission/services/reporting_service.py:75-79 | one (customer id, lifetime value) pair per customer, in insertion order |
| Reporting.InsertDesc | TODO/submission/services/reporting_service.py:82-86 | insertion adds one pair |
| Reporting.InsertDescPermutation | TODO/submission/services/reporting_service.py:82-86 | insertion adds the pair and loses nothing |
| Reporting.InsertDescAtMost | TODO/submission/services/reporting_service.py:82-86 | insertion keeps a common upper bound on the values |
| Reporting.InsertDescSorted | TODO/submission/services/reporting_service.py:82-86 | insertion into a descending sequence keeps it descending |
| Reporting.SortDesc | TODO/submission/services/reporting_service.py:82-86 | sorting keeps the length |
| Reporting.SortDescSpec | TODO/submission/services/reporting_service.py:82-86 | the sort is descending by value and a permutation of its input |
| Reporting.WithValueAppend | TODO/submission/services/reporting_service.py:82-86 | picking the pairs of one value distributes over concatenation |
| Reporting.WithValueBelow | TODO/submission/services/reporting_service.py:82-86 | a sequence whose values are all below v has no pair of value v |
| Reporting.InsertDescStable | TODO/submission/services/reporting_service.py:82-86 | inserting into a descending sequence puts the pair after every pair of its value and changes no other value's pairs |
| Reporting.SortDescStable | TODO/submission/services/reporting_service.py:82-86 | the sort is stable: for every value, the pairs of that value keep their input order, so ties at the tenth place are cut as Python's stable sort cuts them |
| Reporting.TopCustomersSpec | TODO/submission/services/reporting_service.py:82-87 | the top list is descending and holds min(10, n) of the pairs; no pair left out has a larger value than one listed |
| Reporting.EmptyStoreReport | TODO/submission/services/reporting_service.py:43-50 | a store without orders or customers gives the all-zero report |
| Reporting.TallyOrder | TODO/submission/services/reporting_service.py:59-70 | the line loop computes one order's products-sold and revenue tallies |
| Reporting.OrderFigures | TODO/submission/services/reporting_service.py:52-72 | the order loop computes the sales total, both counts and both tallies over the in-range orders |
| Reporting.CustomerSpending | TODO/submission/services/reporting_service.py:75-79 | the customer loop computes each customer's lifetime value in insertion order |
| Reporting.GenerateSalesReport | TODO/submission/services/reporting_service.py:34-89 | the report equals the report function of the store's contents, and nothing in the store changes |
| Checkout.RequestedItemsSpec | TODO/submission/application/main.py:159-171 | lines are built exactly when every request names a catalogue product; then there is one line per request, in order, at the catalogue price |
| Checkout.RequestedNoneExtends | TODO/submission/application/main.py:161-165 | once a request fails, the whole list fails |
| Checkout.BuildOrderItems | TODO/submission/application/main.py:159-172 | the loop builds the lines and the total weight; it changes nothing |
| Checkout.OrderTotal | TODO/submission/application/main.py:197-210 | the total is discounted subtotal + tax + shipping; it fails exactly when the shipping method is unknown |
| Checkout.ExampleCart | TODO/submission/application/main.py:181-192 | five items worth $1000, a Gold customer with 500 points, a 10% promotion: $744.70, with all points spent |
| Checkout.PriceCart | TODO/submission/application/main.py:181-192 | a fresh engine runs the four stages and yields (subtotal, discounted price); the promotion's use and the points are spent as the stages say; stock and tiers are unchanged |
| Checkout.OpenPricing | TODO/submission/application/main.py:184-187 | the bulk stage and then the membership stage; fails exactly when no bulk tier qualifies |
| Checkout.FinishPricing | TODO/submission/application/main.py:188-192 | the promotion stage and then the loyalty stage, on the running price |
| Checkout.RecordOrder | TODO/submission/application/main.py:222-234 | a Pending order with the next id is stored, and its lines' stock is deducted and logged |
| Checkout.CreditCustomer | TODO/submission/application/main.py:239-247 | the history gains the order and the points gain `int(subtotal)`; the upgrade rule is applied to the lifetime value |
| Checkout.Commit | TODO/submission/application/main.py:222-247 | steps 9 and 10 together, with the order, stock, log, points, history and tier as above |
| Checkout.Settle | TODO/submission/application/main.py:196-250 | an unknown shipping method or a refused payment changes nothing; otherwise the order is committed at discounted + tax + shipping |
| Checkout.ProcessAdmitted | TODO/submission/application/main.py:180-250 | steps 4 to 10 for an admitted cart; the promotion's use and the spent points remain even when the shipping method or the payment then fails |
| Checkout.Admit | TODO/submission/application/main.py:151-178 | succeeds exactly when the customer exists, every product exists and the stock suffices; changes nothing |
| Checkout.PlaceOrderFacade | TODO/submission/application/main.py:138-254 | an unknown customer, an unknown product or short stock gives None and changes nothing; otherwise the outcome described for ProcessAdmitted |

## Left out

- Printing, and the notification service's messages, are not modelled.
  Those calls only print and change no state.
- Supplier reorder emails are not modelled. `CheckAndNotifyLowStock`
  returns the ids that would be notified instead.
- The abstract interface classes and the service container's wiring are
  not modelled. The strategy classes become datatypes with functions.
- Floating-point rounding error is not modelled: money is an exact
  `real`.
- `datetime.now()` is an integer parameter `now`, in seconds.
- `random.randint(1000, 9999)` is a parameter `draw`.
- An exception from `create_shipment_for_order` is a flag,
  `shipment_fails`.
- The facade's catch-all `except` is covered only for the failures it can
  meet in the model:
  - an unknown shipping method (a ValueError);
  - no qualifying bulk tier (an IndexError), which needs a negative item
    count;

  Both become `None` results. A missing "product_id" or "quantity" key in
  a request, and other runtime errors, cannot arise: a request is a typed
  pair.
- The report's dictionaries are maps: their key order is not modelled.
  The top-customer list is a sequence and keeps its order.
- Customers.RefundLoyaltyPointsForOrder has no contract: the source only
  prints, and the model changes nothing.
- Checkout.PlaceOrderFacade takes the bulk tiers as the fixed list the
  service container builds. Other tier lists are covered by
  `Pricing.PricingService.ApplyBulkDiscount`.
- Customers.GetCustomerLifetimeValue and the tier upgrade use the
  corrected lifetime value: cancelled orders are excluded. The code as
  written compares the status enum with a string and so counts every
  order; that behaviour is `Customers.HistoryValueAsWritten`. See
  Findings.
- Reporting.Spending, Reporting.CustomerSpending and
  Reporting.GenerateSalesReport rank the top customers by the corrected
  lifetime value, which leaves out cancelled orders. The source's report
  calls the as-written lifetime value (reporting_service.py:76-79, through
  customer_service.py:88), which counts them: a customer whose only order
  is a cancelled one of 600 is listed with 600 there and with 0 here. The
  difference is exactly the one `Customers.AsWrittenOvercounts` and
  `Customers.CancelledOrderCountsAsWritten` state. See Findings.

## Findings

| source | as written | input that shows it | evidently intended | confidence | as-written member | corrected member |
|---|---|---|---|---|---|---|
| TODO/submission/services/customer_service.py:88 | `order.status != 'cancelled'` compares an `OrderStatus` enum with a string, so it is always true and cancelled orders count toward lifetime value; upgrades and the top-customer report inherit this | a customer whose history holds one Cancelled order with total 600: the lifetime value is 600 instead of 0, so a Bronze customer is upgraded to Silver | sum only the non-cancelled orders, as the docstring at lines 77-79 says | not executed | Customers.CancelledOrderCountsAsWritten | Customers.GetCustomerLifetimeValue |
