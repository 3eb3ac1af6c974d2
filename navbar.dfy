/**
 * The navigation bar: the cart badge (the number of units in the cart, shown
 * once the component is mounted and the count is positive) and the mobile
 * menu's open/closed state.
 */
module Navbar {
  import opened Common
  import opened CartSlice

  function QuantityOf(item: CartItem): int {
    item.quantity
  }

  /** totalItems: `cart.reduce((total, item) => total + item.quantity, 0)`. */
  function TotalItems(cart: seq<CartItem>): (r: int)
    ensures cart == [] ==> r == 0
    ensures (forall i :: 0 <= i < |cart| ==> cart[i].quantity >= 0) ==> r >= 0
    ensures (forall i :: 0 <= i < |cart| ==> cart[i].quantity <= 0) ==> r <= 0
  {
    SumOf(cart, QuantityOf)
  }

  /** The badge is rendered only when mounted and the count is above 0. */
  predicate BadgeVisible(mounted: bool, cart: seq<CartItem>): (ok: bool)
    ensures ok ==> mounted && exists i :: 0 <= i < |cart| && cart[i].quantity > 0
  {
    mounted && TotalItems(cart) > 0
  }

  /** With every quantity at least 1, the count is at least the number of lines. */
  lemma {:induction false} TotalItemsAtLeastLines(cart: seq<CartItem>)
    requires AllQuantitiesPositive(cart)
    ensures TotalItems(cart) >= |cart|
  {
    if cart != [] {
      var init := cart[..|cart| - 1];
      assert AllQuantitiesPositive(init) by {
        forall i | 0 <= i < |init|
          ensures init[i].quantity >= 1
        {
          assert init[i] == cart[i];
        }
      }
      TotalItemsAtLeastLines(init);
    }
  }

  /** For a cart whose quantities are all positive, the badge shows exactly when the cart has lines. */
  lemma BadgeVisibleIffLines(mounted: bool, cart: seq<CartItem>)
    requires AllQuantitiesPositive(cart)
    ensures BadgeVisible(mounted, cart) <==> mounted && cart != []
  {
    TotalItemsAtLeastLines(cart);
  }

  /** addToCart raises the count by the payload's quantity, whether it merges or appends. */
  lemma TotalItemsAdded(cart: seq<CartItem>, item: CartItem)
    ensures TotalItems(Added(cart, item)) == TotalItems(cart) + item.quantity
  {
    match FindLine(cart, item.id)
    case Some(k) =>
      var merged := cart[k].(quantity := cart[k].quantity + item.quantity);
      assert Added(cart, item) == cart[k := merged];
      SumOfUpdate(cart, k, merged, QuantityOf);
    case None =>
      SumOfConcat(cart, [item], QuantityOf);
      assert SumOf([item], QuantityOf) == item.quantity by {
        assert [item][..0] == [];
      }
  }

  /** updateQuantity changes the count by the difference on the line it sets. */
  lemma TotalItemsQuantitySet(cart: seq<CartItem>, id: int, quantity: int)
    requires HasId(cart, id)
    ensures TotalItems(QuantitySet(cart, id, quantity))
      == TotalItems(cart) - cart[FindLine(cart, id).value].quantity + quantity
  {
    var k := FindLine(cart, id).value;
    var updated := cart[k].(quantity := quantity);
    assert QuantitySet(cart, id, quantity) == cart[k := updated];
    SumOfUpdate(cart, k, updated, QuantityOf);
  }

  /** The lines of the cart that carry `id`: what removeFromCart takes out. */
  function LinesWithId(cart: seq<CartItem>, id: int): seq<CartItem> {
    Filter(cart, (item: CartItem) => item.id == id)
  }

  /**
   * removeFromCart lowers the count by exactly the quantities of the removed
   * lines, so with positive quantities the count never rises.
   */
  lemma TotalItemsRemoved(cart: seq<CartItem>, id: int)
    ensures TotalItems(Removed(cart, id)) == TotalItems(cart) - TotalItems(LinesWithId(cart, id))
    ensures AllQuantitiesPositive(cart) ==> TotalItems(Removed(cart, id)) <= TotalItems(cart)
  {
    var keep := (item: CartItem) => item.id != id;
    var drop := (item: CartItem) => item.id == id;
    assert Removed(cart, id) == Filter(cart, keep);
    assert LinesWithId(cart, id) == Filter(cart, drop);
    SumOfPartition(cart, keep, drop, QuantityOf);
  }

  /** The navbar's own state. */
  class Menu {
    var isMenuOpen: bool
    var mounted: bool

    constructor ()
      ensures !isMenuOpen && !mounted
    {
      isMenuOpen, mounted := false, false;
    }

    /** The mount effect. */
    method Mount()
      modifies this
      ensures mounted && isMenuOpen == old(isMenuOpen)
    {
      mounted := true;
    }

    /** toggleMenu: flips the menu, so two toggles restore it. */
    method ToggleMenu()
      modifies this
      ensures isMenuOpen == !old(isMenuOpen) && mounted == old(mounted)
    {
      isMenuOpen := !isMenuOpen;
    }

    /** closeMenu: the menu is closed afterwards, whatever it was. */
    method CloseMenu()
      modifies this
      ensures !isMenuOpen && mounted == old(mounted)
    {
      isMenuOpen := false;
    }
  }
}
