/** The domain records. A record whose fields the services reassign is a
    class; the fields nothing in the core reassigns are `const`. An order
    line is never changed after construction, so it is a value. */
module Domain {
  import opened Wrappers
  import opened Membership

  datatype OrderStatus = Pending | Shipped | Delivered | Cancelled

  /** One cart line; `unit_price` is a snapshot of the catalogue price taken
      when the line is built. */
  datatype OrderItem = OrderItem(product_id: string, quantity: int, unit_price: real, discount_applied: real)

  /** The `OrderItem` constructor: fields as given, no discount recorded. */
  function NewOrderItem(product_id: string, quantity: int, unit_price: real): (item: OrderItem)
    ensures item.product_id == product_id && item.quantity == quantity && item.unit_price == unit_price
    ensures item.discount_applied == 0.0
  {
    OrderItem(product_id, quantity, unit_price, 0.0)
  }

  class Product {
    const product_id: string
    const name: string
    var price: real
    var quantity_available: int
    const category: string
    const weight: real
    const supplier_id: string
    const discount_eligible: bool

    constructor (product_id: string, name: string, price: real, quantity_available: int,
                 category: string, weight: real, supplier_id: string)
      ensures this.product_id == product_id && this.name == name && this.price == price
      ensures this.quantity_available == quantity_available && this.category == category
      ensures this.weight == weight && this.supplier_id == supplier_id
      ensures discount_eligible
    {
      this.product_id := product_id;
      this.name := name;
      this.price := price;
      this.quantity_available := quantity_available;
      this.category := category;
      this.weight := weight;
      this.supplier_id := supplier_id;
      this.discount_eligible := true;
    }
  }

  /** `_get_membership_tier_from_string`: the three paid tier names map to
      their tiers, every other string to Suspended. */
  function TierFromString(tier_str: string): (t: MembershipTier)
    ensures t != Suspended ==> t.Name() == tier_str
    ensures t == Suspended <==> tier_str !in {"bronze", "silver", "gold"}
  {
    if tier_str == "bronze" then Bronze
    else if tier_str == "silver" then Silver
    else if tier_str == "gold" then Gold
    else Suspended
  }

  /** Reading a tier's own name back gives that tier. */
  lemma TierFromNameRoundTrip(t: MembershipTier)
    ensures TierFromString(t.Name()) == t
  {
  }

  class Customer {
    const customer_id: string
    const name: string
    const email: string
    const phone: string
    const address: string
    var loyalty_points: int
    var membership_tier: MembershipTier
    var order_history: seq<int>

    constructor (customer_id: string, name: string, email: string, membership_tier_str: string,
                 phone: string, address: string, loyalty_points: int)
      ensures this.customer_id == customer_id && this.name == name && this.email == email
      ensures this.phone == phone && this.address == address
      ensures this.loyalty_points == loyalty_points
      ensures membership_tier == TierFromString(membership_tier_str)
      ensures order_history == []
    {
      this.customer_id := customer_id;
      this.name := name;
      this.email := email;
      this.phone := phone;
      this.address := address;
      this.loyalty_points := loyalty_points;
      this.membership_tier := TierFromString(membership_tier_str);
      this.order_history := [];
    }
  }

  class Order {
    const order_id: int
    const customer_id: string
    const items: seq<OrderItem>
    var status: OrderStatus
    const created_at: int
    var total_price: real
    const shipping_cost: real
    var tracking_number: Option<string>
    var payment_method: Option<string>

    constructor (order_id: int, customer_id: string, items: seq<OrderItem>, status: OrderStatus,
                 created_at: int, total_price: real, shipping_cost: real)
      ensures this.order_id == order_id && this.customer_id == customer_id && this.items == items
      ensures this.status == status && this.created_at == created_at
      ensures this.total_price == total_price && this.shipping_cost == shipping_cost
      ensures tracking_number == None && payment_method == None
    {
      this.order_id := order_id;
      this.customer_id := customer_id;
      this.items := items;
      this.status := status;
      this.created_at := created_at;
      this.total_price := total_price;
      this.shipping_cost := shipping_cost;
      this.tracking_number := None;
      this.payment_method := None;
    }
  }

  class Promotion {
    const promo_id: string
    const code: string
    const discount_percent: real
    const min_purchase: real
    const valid_until: int
    const category: string
    var used_count: int

    constructor (promo_id: string, code: string, discount_percent: real, min_purchase: real,
                 valid_until: int, category: string)
      ensures this.promo_id == promo_id && this.code == code
      ensures this.discount_percent == discount_percent && this.min_purchase == min_purchase
      ensures this.valid_until == valid_until && this.category == category
      ensures used_count == 0
    {
      this.promo_id := promo_id;
      this.code := code;
      this.discount_percent := discount_percent;
      this.min_purchase := min_purchase;
      this.valid_until := valid_until;
      this.category := category;
      this.used_count := 0;
    }
  }

  /** Suppliers are only looked up by id; nothing in the core changes them. */
  datatype Supplier = Supplier(supplier_id: string, name: string, email: string, reliability_score: real)
}
