/** The in-memory store shared by every service: keyed maps of records, the
    two id counters and the append-only inventory audit log. A Python dict
    iterates in insertion order, so each map that the services iterate over
    carries the list of its keys in that order. */
module Store {
  import opened Wrappers
  import opened Membership
  import opened Domain

  datatype LogEntry = LogEntry(product_id: string, quantity_change: int, reason: string, timestamp: int)

  datatype Shipment = Shipment(shipment_id: int, order_id: int, tracking_number: string, created_at: int, status: string)

  /** `ks` lists each key of a map exactly once. */
  ghost predicate KeyOrder<K(!new)>(ks: seq<K>, keys: set<K>)
  {
    && (forall i, j :: 0 <= i < j < |ks| ==> ks[i] != ks[j])
    && (forall i :: 0 <= i < |ks| ==> ks[i] in keys)
    && (forall k {:trigger k in ks} :: k in ks <==> k in keys)
  }

  /** The key order after `m[k] := v`: a new key goes last, an existing key
      keeps its place. */
  function InsertKey<K(!new)>(ks: seq<K>, keys: set<K>, k: K): (r: seq<K>)
    requires KeyOrder(ks, keys)
    ensures KeyOrder(r, keys + {k})
  {
    if k in keys then ks else ks + [k]
  }

  /** Every promotion is stored under its own code. */
  ghost predicate PromotionsByCode(promotions: map<string, Promotion>)
  {
    forall k :: k in promotions ==> promotions[k].code == k
  }

  /** The store's indexing invariant on its fields: each key list orders its
      map's keys, every record sits under its own id, and every order and
      shipment id is below its counter. */
  ghost predicate Indexed(products: map<string, Product>, product_keys: seq<string>,
                          customers: map<string, Customer>, customer_keys: seq<string>,
                          orders: map<int, Order>, order_keys: seq<int>, promotions: map<string, Promotion>,
                          suppliers: map<string, Supplier>, shipments: map<int, Shipment>,
                          next_order_id: int, next_shipment_id: int)
  {
    && KeyOrder(product_keys, products.Keys)
    && KeyOrder(customer_keys, customers.Keys)
    && KeyOrder(order_keys, orders.Keys)
    && (forall k :: k in products ==> products[k].product_id == k)
    && (forall k :: k in customers ==> customers[k].customer_id == k)
    && (forall k :: k in orders ==> orders[k].order_id == k && k < next_order_id)
    && PromotionsByCode(promotions)
    && (forall k :: k in suppliers ==> suppliers[k].supplier_id == k)
    && (forall k :: k in shipments ==> shipments[k].shipment_id == k && k < next_shipment_id)
  }

  class DataStore {
    var products: map<string, Product>
    var product_keys: seq<string>
    var customers: map<string, Customer>
    var customer_keys: seq<string>
    var orders: map<int, Order>
    var order_keys: seq<int>
    var suppliers: map<string, Supplier>
    var promotions: map<string, Promotion>
    var shipments: map<int, Shipment>
    var inventory_logs: seq<LogEntry>
    var next_order_id: int
    var next_shipment_id: int

    /** Every record is stored under its own id (promotions under their
        code), so no record object sits under two keys; every allocated id
        is below its counter, so the counters never hand out a used id. */
    ghost predicate Valid()
      reads this`products, this`product_keys, this`customers, this`customer_keys, this`orders, this`order_keys
      reads this`promotions, this`suppliers, this`shipments, this`next_order_id, this`next_shipment_id
    {
      Indexed(products, product_keys, customers, customer_keys, orders, order_keys,
              promotions, suppliers, shipments, next_order_id, next_shipment_id)
    }

    /** The stock level of every catalogue product. */
    function Stock(): (s: map<string, int>)
      reads this`products, products.Values`quantity_available
      ensures s.Keys == products.Keys
    {
      map k | k in products :: products[k].quantity_available
    }

    /** The price of every catalogue product. */
    function Prices(): (m: map<string, real>)
      reads this`products, products.Values`price
      ensures m.Keys == products.Keys
    {
      map k | k in products :: products[k].price
    }

    /** The status of every stored order. */
    function Statuses(): (m: map<int, OrderStatus>)
      reads this`orders, orders.Values`status
      ensures m.Keys == orders.Keys
    {
      map k | k in orders :: orders[k].status
    }

    /** The total price of every stored order. */
    function Totals(): (m: map<int, real>)
      reads this`orders, orders.Values`total_price
      ensures m.Keys == orders.Keys
    {
      map k | k in orders :: orders[k].total_price
    }

    /** The tracking number of every stored order. */
    function Trackings(): (m: map<int, Option<string>>)
      reads this`orders, orders.Values`tracking_number
      ensures m.Keys == orders.Keys
    {
      map k | k in orders :: orders[k].tracking_number
    }

    /** The membership tier of every stored customer. */
    function Tiers(): (m: map<string, MembershipTier>)
      reads this`customers, customers.Values`membership_tier
      ensures m.Keys == customers.Keys
    {
      map k | k in customers :: customers[k].membership_tier
    }

    /** The loyalty points of every stored customer. */
    function Points(): (m: map<string, int>)
      reads this`customers, customers.Values`loyalty_points
      ensures m.Keys == customers.Keys
    {
      map k | k in customers :: customers[k].loyalty_points
    }

    /** The order history of every stored customer. */
    function Histories(): (m: map<string, seq<int>>)
      reads this`customers, customers.Values`order_history
      ensures m.Keys == customers.Keys
    {
      map k | k in customers :: customers[k].order_history
    }

    /** A fresh store: nothing stored, nothing logged, both counters at 1. */
    constructor ()
      ensures Valid()
      ensures products == map[] && customers == map[] && orders == map[] && suppliers == map[]
      ensures promotions == map[] && shipments == map[] && inventory_logs == []
      ensures product_keys == [] && customer_keys == [] && order_keys == []
      ensures next_order_id == 1 && next_shipment_id == 1
    {
      products, customers, orders, suppliers := map[], map[], map[], map[];
      promotions, shipments, inventory_logs := map[], map[], [];
      product_keys, customer_keys, order_keys := [], [], [];
      next_order_id, next_shipment_id := 1, 1;
    }

    /** Appends exactly one audit entry; earlier entries are untouched. */
    method LogInventoryChange(product_id: string, quantity_change: int, reason: string, now: int)
      modifies this`inventory_logs
      ensures inventory_logs == old(inventory_logs) + [LogEntry(product_id, quantity_change, reason, now)]
    {
      inventory_logs := inventory_logs + [LogEntry(product_id, quantity_change, reason, now)];
    }

    /** Stores a new product under its id (replacing any product there) and
        logs its initial stock. */
    method AddProduct(product_id: string, name: string, price: real, quantity: int,
                      category: string, weight: real, supplier_id: string, now: int)
      returns (product: Product)
      requires Valid()
      modifies this`products, this`product_keys, this`inventory_logs
      ensures Valid() && fresh(product)
      ensures products == old(products)[product_id := product]
      ensures product_keys == InsertKey(old(product_keys), old(products.Keys), product_id)
      ensures inventory_logs == old(inventory_logs) + [LogEntry(product_id, quantity, "initial_stock", now)]
      ensures product.product_id == product_id && product.name == name && product.price == price
      ensures product.quantity_available == quantity && product.category == category
      ensures product.weight == weight && product.supplier_id == supplier_id
    {
      product := new Product(product_id, name, price, quantity, category, weight, supplier_id);
      product_keys := InsertKey(product_keys, products.Keys, product_id);
      products := products[product_id := product];
      assert Valid();
      LogInventoryChange(product_id, quantity, "initial_stock", now);
    }

    /** Stores a new customer under its id, replacing any customer there. */
    method AddCustomer(customer_id: string, name: string, email: string, tier: string,
                       phone: string, address: string, loyalty_points: int := 0)
      returns (customer: Customer)
      requires Valid()
      modifies this`customers, this`customer_keys
      ensures Valid() && fresh(customer)
      ensures customers == old(customers)[customer_id := customer]
      ensures customer_keys == InsertKey(old(customer_keys), old(customers.Keys), customer_id)
      ensures customer.customer_id == customer_id && customer.name == name && customer.email == email
      ensures customer.phone == phone && customer.address == address
      ensures customer.membership_tier == TierFromString(tier)
      ensures customer.loyalty_points == loyalty_points && customer.order_history == []
    {
      customer := new Customer(customer_id, name, email, tier, phone, address, loyalty_points);
      customer_keys := InsertKey(customer_keys, customers.Keys, customer_id);
      customers := customers[customer_id := customer];
    }

    /** Stores a supplier under its id, replacing any supplier there. */
    method AddSupplier(supplier_id: string, name: string, email: string, reliability: real)
      returns (supplier: Supplier)
      requires Valid()
      modifies this`suppliers
      ensures Valid()
      ensures supplier == Supplier(supplier_id, name, email, reliability)
      ensures suppliers == old(suppliers)[supplier_id := supplier]
    {
      supplier := Supplier(supplier_id, name, email, reliability);
      suppliers := suppliers[supplier_id := supplier];
    }

    /** Stores a promotion under its CODE (not its promo_id). */
    method AddPromotion(promo_id: string, code: string, discount_percent: real, min_purchase: real,
                        valid_until: int, category: string)
      returns (promo: Promotion)
      requires Valid()
      modifies this`promotions
      ensures Valid() && fresh(promo)
      ensures promotions == old(promotions)[code := promo]
      ensures promo.promo_id == promo_id && promo.code == code
      ensures promo.discount_percent == discount_percent && promo.min_purchase == min_purchase
      ensures promo.valid_until == valid_until && promo.category == category
      ensures promo.used_count == 0
    {
      promo := new Promotion(promo_id, code, discount_percent, min_purchase, valid_until, category);
      promotions := promotions[code := promo];
    }

    function GetProduct(product_id: string): (r: Option<Product>)
      reads this`products
      ensures r.Some? <==> product_id in products
      ensures r.Some? ==> r.value == products[product_id]
    {
      if product_id in products then Some(products[product_id]) else None
    }

    function GetCustomer(customer_id: string): (r: Option<Customer>)
      reads this`customers
      ensures r.Some? <==> customer_id in customers
      ensures r.Some? ==> r.value == customers[customer_id]
    {
      if customer_id in customers then Some(customers[customer_id]) else None
    }

    function GetSupplier(supplier_id: string): (r: Option<Supplier>)
      reads this`suppliers
      ensures r.Some? <==> supplier_id in suppliers
      ensures r.Some? ==> r.value == suppliers[supplier_id]
    {
      if supplier_id in suppliers then Some(suppliers[supplier_id]) else None
    }
  }
}
