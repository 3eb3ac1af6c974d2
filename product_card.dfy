/**
 * The product card's add-to-cart action: a one-unit payload built from the
 * product, dispatched to the cart store. Its discount badge and struck price
 * are the Pricing module's.
 */
module ProductCard {
  import opened ProductSlice
  import opened CartSlice
  import opened Navbar

  /** The addToCart payload of handleAddToCart. */
  function CartPayload(p: Product): (item: CartItem)
    ensures item.quantity == 1
    ensures item.id == p.id && item.name == p.name && item.price == p.price && item.image == p.image
  {
    CartItem(p.id, p.name, p.price, p.image, 1)
  }

  /** One click raises the badge count by exactly one and keeps every quantity positive. */
  lemma CardAddCountsOne(cart: seq<CartItem>, p: Product)
    ensures TotalItems(Added(cart, CartPayload(p))) == TotalItems(cart) + 1
    ensures AllQuantitiesPositive(cart) ==> AllQuantitiesPositive(Added(cart, CartPayload(p)))
    ensures DistinctIds(cart) ==> DistinctIds(Added(cart, CartPayload(p)))
  {
    TotalItemsAdded(cart, CartPayload(p));
    if AllQuantitiesPositive(cart) {
      AddedKeepsQuantitiesPositive(cart, CartPayload(p));
    }
    if DistinctIds(cart) {
      AddedKeepsIdsDistinct(cart, CartPayload(p));
    }
  }

  /** handleAddToCart, without its toast. */
  method HandleAddToCart(store: CartStore, p: Product)
    modifies store
    ensures store.cart == Added(old(store.cart), CartPayload(p)) && store.Persisted()
    ensures !store.hasWindow ==> store.slot == old(store.slot)
    ensures TotalItems(store.cart) == TotalItems(old(store.cart)) + 1
  {
    store.AddToCart(CartPayload(p));
    CardAddCountsOne(old(store.cart), p);
  }
}
