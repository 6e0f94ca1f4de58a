/** Shipping: the three cost strategies, the dispatch on the method name,
    and shipment creation with its tracking number. The random draw of
    `random.randint(1000, 9999)` and the clock are parameters. */
module Shipping {
  import opened Wrappers
  import opened Text
  import opened Membership
  import opened Domain
  import opened Store

  datatype ShippingStrategy = StandardShipping | ExpressShipping | OvernightShipping

  /** `cal_shipping_cost` of each strategy. Only the customer's tier is read. */
  function CalShippingCost(strategy: ShippingStrategy, total_weight: real, tier: MembershipTier, subtotal: real): real
  {
    match strategy
    case ExpressShipping =>
      var cost := 25.0 + total_weight * 0.5;
      if tier.Name() == "gold" then cost * 0.5 else cost
    case StandardShipping =>
      if subtotal < 50.0 then 5.0 + total_weight * 0.2 else 0.0
    case OvernightShipping =>
      50.0 + total_weight * 1.0
  }

  /** The strategies table: exactly three method names are known. */
  function StrategyFor(shipping_method: string): (r: Option<ShippingStrategy>)
    ensures r.Some? <==> shipping_method in {"standard", "express", "overnight"}
    ensures r == Some(StandardShipping) <==> shipping_method == "standard"
    ensures r == Some(ExpressShipping) <==> shipping_method == "express"
    ensures r == Some(OvernightShipping) <==> shipping_method == "overnight"
  {
    if shipping_method == "standard" then Some(StandardShipping)
    else if shipping_method == "express" then Some(ExpressShipping)
    else if shipping_method == "overnight" then Some(OvernightShipping)
    else None
  }

  /** `shipping_cost`: the selected strategy's cost, or the ValueError the
      source raises for an unknown method, with its message. */
  function ShippingCost(shipping_method: string, total_weight: real, tier: MembershipTier, discounted_subtotal: real)
    : (r: Result<real, string>)
    ensures r.Failure? <==> shipping_method !in {"standard", "express", "overnight"}
    ensures r.Failure? ==> r.error == "Invalid shipping method: " + shipping_method
  {
    match StrategyFor(shipping_method)
    case None => Failure("Invalid shipping method: " + shipping_method)
    case Some(strategy) => Success(CalShippingCost(strategy, total_weight, tier, discounted_subtotal))
  }

  /** The cost table by method: express is 25 + 0.5 per weight unit and half
      that for Gold; standard is 5 + 0.2 per weight unit below a subtotal of
      50 and free from 50; overnight is 50 + 1 per weight unit whatever the
      tier and subtotal. */
  lemma ShippingCostTable(w: real, tier: MembershipTier, s: real)
    ensures ShippingCost("express", w, tier, s) == Success(if tier == Gold then (25.0 + 0.5 * w) / 2.0 else 25.0 + 0.5 * w)
    ensures ShippingCost("standard", w, tier, s) == Success(if s < 50.0 then 5.0 + 0.2 * w else 0.0)
    ensures ShippingCost("overnight", w, tier, s) == Success(50.0 + w)
  {
    if tier.Name() == "gold" {
      NameIdentifiesTier(tier, Gold);
    }
  }

  /** For a non-negative weight no method costs less than zero, and a Gold
      customer never pays more than any other customer. */
  lemma ShippingCostBounds(m: string, w: real, tier: MembershipTier, other: MembershipTier, s: real)
    requires w >= 0.0 && m in {"standard", "express", "overnight"}
    ensures ShippingCost(m, w, tier, s).value >= 0.0
    ensures ShippingCost(m, w, Gold, s).value <= ShippingCost(m, w, other, s).value
  {
    ShippingCostTable(w, tier, s);
    ShippingCostTable(w, Gold, s);
    ShippingCostTable(w, other, s);
  }

  /** The tracking number `TRACK<order id><draw>`. */
  function TrackingNumber(order_id: int, draw: int): string
  {
    "TRACK" + IntToString(order_id) + IntToString(draw)
  }

  /** With a four-digit draw the tracking number can be read back: "TRACK",
      then the order id's digits, then exactly the draw's four digits. */
  lemma TrackingNumberDecodes(order_id: nat, draw: int)
    requires 1000 <= draw <= 9999
    ensures var t := TrackingNumber(order_id, draw);
            |t| >= 10 && t[..5] == "TRACK"
            && IsDigits(t[5..|t| - 4]) && ParseDigits(t[5..|t| - 4]) == order_id
            && IsDigits(t[|t| - 4..]) && ParseDigits(t[|t| - 4..]) == draw
  {
    var t := TrackingNumber(order_id, draw);
    NatToStringFourDigits(draw);
    var id, d := NatToString(order_id), NatToString(draw);
    assert t == "TRACK" + id + d;
    assert t[5..|t| - 4] == id;
    assert t[|t| - 4..] == d;
    ParseNatToString(order_id);
    ParseNatToString(draw);
  }

  /** Different (order, draw) pairs never share a tracking number. */
  lemma TrackingNumberInjective(a: nat, d: int, b: nat, e: int)
    requires 1000 <= d <= 9999 && 1000 <= e <= 9999
    requires TrackingNumber(a, d) == TrackingNumber(b, e)
    ensures a == b && d == e
  {
    var t := TrackingNumber(a, d);
    TrackingNumberDecodes(a, d);
    TrackingNumberDecodes(b, e);
    assert a == ParseDigits(t[5..|t| - 4]) == b;
    assert d == ParseDigits(t[|t| - 4..]) == e;
  }

  /** `create_shipment_for_order`: takes the next shipment id, raises the
      counter by one, stores an "in_transit" shipment under that id and
      returns its tracking number. */
  method CreateShipmentForOrder(store: DataStore, order: Order, draw: int, now: int) returns (tracking_number: string)
    requires store.Valid()
    modifies store`shipments, store`next_shipment_id
    ensures tracking_number == TrackingNumber(order.order_id, draw)
    ensures store.next_shipment_id == old(store.next_shipment_id) + 1
    ensures store.shipments == old(store.shipments)[old(store.next_shipment_id) :=
              Shipment(old(store.next_shipment_id), order.order_id, tracking_number, now, "in_transit")]
    ensures old(store.next_shipment_id) !in old(store.shipments)
    ensures store.Valid()
    ensures store.Statuses() == old(store.Statuses()) && store.Trackings() == old(store.Trackings())
  {
    tracking_number := TrackingNumber(order.order_id, draw);
    var shipment_id := store.next_shipment_id;
    store.next_shipment_id := store.next_shipment_id + 1;
    store.shipments := store.shipments[shipment_id := Shipment(shipment_id, order.order_id, tracking_number, now, "in_transit")];
  }
}
