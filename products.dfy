/** The product catalogue service: price updates. */
module Products {
  import opened Domain
  import opened Store

  /** `update_product_price`: a stored product gets the new price and the
      call returns true; an unknown id returns false. No other product's
      price, and no other field, changes. */
  method UpdateProductPrice(store: DataStore, product_id: string, new_price: real) returns (ok: bool)
    requires store.Valid()
    modifies store.products.Values`price
    ensures ok <==> product_id in store.products
    ensures store.Prices() == if ok then old(store.Prices())[product_id := new_price] else old(store.Prices())
  {
    var product := store.GetProduct(product_id);
    if product.None? {
      return false;
    }
    var p := product.value;
    ghost var prices := store.Prices();
    p.price := new_price;
    forall k | k in store.products && k != product_id
      ensures store.products[k] != p
    {
      assert store.products[k].product_id == k;
    }
    assert store.Prices() == prices[product_id := new_price];
    return true;
  }

  /** Catalogue price changes do not reach lines already built: an order
      line keeps the price it was built with. */
  method RepriceAfterLine(store: DataStore, product_id: string, new_price: real) returns (line: OrderItem)
    requires store.Valid() && product_id in store.products
    modifies store.products.Values`price
    ensures line.unit_price == old(store.products[product_id].price)
    ensures store.products[product_id].price == new_price
  {
    line := NewOrderItem(product_id, 1, store.products[product_id].price);
    var ok := UpdateProductPrice(store, product_id, new_price);
    assert store.Prices()[product_id] == new_price;
  }
}
