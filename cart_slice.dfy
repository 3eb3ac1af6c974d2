/**
 * The cart store: a list of line items keyed by product id, four reducers,
 * and a write-through mirror of the list in one browser storage slot
 * (key "cart").
 */
module CartSlice {
  import opened Common

  /** A cart line: a snapshot of the product taken when it was added, and a quantity. */
  datatype CartItem = CartItem(id: int, name: string, price: int, image: string, quantity: int)

  /**
   * What the storage slot can hold: the serialized form of a line list, or
   * text that does not parse as one. The JSON text itself is not modelled.
   */
  datatype StoredText = Serialized(items: seq<CartItem>) | Unparseable(raw: string)

  /** JSON.stringify of the line list. */
  function Serialize(cart: seq<CartItem>): (t: StoredText)
    ensures Parse(t) == Some(cart)
  {
    Serialized(cart)
  }

  /** JSON.parse as a partial function: None where it would throw. */
  function Parse(t: StoredText): (r: Option<seq<CartItem>>)
    ensures r.Some? <==> t.Serialized?
  {
    match t
    case Serialized(items) => Some(items)
    case Unparseable(_) => None
  }

  /** Whatever parses was written by Serialize, from exactly the list it parses to. */
  lemma ParseSerialize(t: StoredText)
    requires Parse(t).Some?
    ensures Serialize(Parse(t).value) == t
  {
  }

  /**
   * loadCartFromStorage: the stored list when a window exists, the slot is
   * set and its text parses; the empty list otherwise.
   */
  function LoadCart(hasWindow: bool, slot: Option<StoredText>): (cart: seq<CartItem>)
    ensures !hasWindow || slot.None? ==> cart == []
    ensures slot.Some? && Parse(slot.value).None? ==> cart == []
    ensures hasWindow && slot.Some? && Parse(slot.value).Some? ==> cart == Parse(slot.value).value
  {
    if hasWindow && slot.Some? then
      match Parse(slot.value)
      case Some(items) => items
      case None => []
    else []
  }

  /** Reading back a slot that was written from `cart` gives `cart`. */
  lemma LoadAfterSave(cart: seq<CartItem>)
    ensures LoadCart(true, Some(Serialize(cart))) == cart
  {
  }

  predicate HasId(cart: seq<CartItem>, id: int) {
    exists j :: 0 <= j < |cart| && cart[j].id == id
  }

  /** No two lines share a product id. */
  predicate DistinctIds(cart: seq<CartItem>) {
    forall i, j :: 0 <= i < j < |cart| ==> cart[i].id != cart[j].id
  }

  predicate AllQuantitiesPositive(cart: seq<CartItem>) {
    forall j :: 0 <= j < |cart| ==> cart[j].quantity >= 1
  }

  /** `cart.find(item => item.id === id)`, as the position of the line found. */
  function FindLine(cart: seq<CartItem>, id: int): (k: Option<nat>)
    ensures k.Some? ==> k.value < |cart| && cart[k.value].id == id
    ensures k.Some? ==> forall j :: 0 <= j < k.value ==> cart[j].id != id
    ensures k.None? <==> !HasId(cart, id)
  {
    if cart == [] then None
    else if cart[0].id == id then Some(0)
    else
      match FindLine(cart[1..], id)
      case Some(k) => Some(k + 1)
      case None => None
  }

  /**
   * The list addToCart leaves: the payload's quantity added to the first line
   * with its id, or the payload appended when no line has that id.
   */
  function Added(cart: seq<CartItem>, item: CartItem): (r: seq<CartItem>)
    ensures HasId(cart, item.id) ==> |r| == |cart|
    ensures !HasId(cart, item.id) ==> |r| == |cart| + 1 && r[|cart|] == item
    ensures forall j :: 0 <= j < |cart| && FindLine(cart, item.id) != Some(j) ==> r[j] == cart[j]
    ensures HasId(cart, item.id) ==>
      var k := FindLine(cart, item.id).value;
      r[k] == cart[k].(quantity := cart[k].quantity + item.quantity)
  {
    match FindLine(cart, item.id)
    case Some(k) => cart[k := cart[k].(quantity := cart[k].quantity + item.quantity)]
    case None => cart + [item]
  }

  /** The list removeFromCart leaves: every line whose id differs, in order. */
  function Removed(cart: seq<CartItem>, id: int): (r: seq<CartItem>)
    ensures !HasId(r, id)
    ensures forall j :: 0 <= j < |cart| && cart[j].id != id ==> cart[j] in r
    ensures forall j :: 0 <= j < |r| ==> r[j] in cart
  {
    Filter(cart, (item: CartItem) => item.id != id)
  }

  /**
   * The list updateQuantity leaves: the first line with the id gets the new
   * quantity, whatever its value; no line with the id, no change.
   */
  function QuantitySet(cart: seq<CartItem>, id: int, quantity: int): (r: seq<CartItem>)
    ensures |r| == |cart|
    ensures !HasId(cart, id) ==> r == cart
    ensures forall j :: 0 <= j < |cart| && FindLine(cart, id) != Some(j) ==> r[j] == cart[j]
    ensures HasId(cart, id) ==>
      var k := FindLine(cart, id).value;
      r[k] == cart[k].(quantity := quantity)
  {
    match FindLine(cart, id)
    case Some(k) => cart[k := cart[k].(quantity := quantity)]
    case None => cart
  }

  lemma {:induction false} RemovedAbsentIsIdentity(cart: seq<CartItem>, id: int)
    requires !HasId(cart, id)
    ensures Removed(cart, id) == cart
  {
    FilterKeepsAll(cart, (item: CartItem) => item.id != id);
  }

  /** Removal keeps the surviving lines in their original relative order. */
  lemma RemovedIsSubsequence(cart: seq<CartItem>, id: int)
    ensures IsSubsequence(Removed(cart, id), cart)
  {
    FilterIsSubsequence(cart, (item: CartItem) => item.id != id);
  }

  /** With distinct ids, removing a present id drops exactly one line. */
  lemma {:induction false} RemovedLength(cart: seq<CartItem>, id: int)
    requires DistinctIds(cart)
    ensures |Removed(cart, id)| == if HasId(cart, id) then |cart| - 1 else |cart|
  {
    if cart != [] {
      var init := cart[..|cart| - 1];
      var last := cart[|cart| - 1];
      assert cart == init + [last];
      RemovedLength(init, id);
      if last.id == id {
        assert !HasId(init, id);
      } else {
        assert HasId(cart, id) <==> HasId(init, id);
      }
    }
  }

  /** Adding twice with the same new id gives one line, at the end, with the summed quantity. */
  lemma AddedTwiceMerges(cart: seq<CartItem>, first: CartItem, second: CartItem)
    requires !HasId(cart, first.id) && second.id == first.id
    ensures Added(Added(cart, first), second)
      == cart + [first.(quantity := first.quantity + second.quantity)]
  {
    var once := Added(cart, first);
    assert FindLine(once, first.id) == Some(|cart|);
  }

  lemma {:induction false} AddedKeepsIdsDistinct(cart: seq<CartItem>, item: CartItem)
    requires DistinctIds(cart)
    ensures DistinctIds(Added(cart, item))
  {
    var r := Added(cart, item);
    forall i, j | 0 <= i < j < |r|
      ensures r[i].id != r[j].id
    {
      assert i < |cart|;
      assert r[i].id == cart[i].id;
      if j < |cart| {
        assert r[j].id == cart[j].id;
      } else {
        assert r[j] == item && !HasId(cart, item.id);
      }
    }
  }

  lemma AddedKeepsQuantitiesPositive(cart: seq<CartItem>, item: CartItem)
    requires AllQuantitiesPositive(cart) && item.quantity >= 1
    ensures AllQuantitiesPositive(Added(cart, item))
  {
  }

  lemma {:induction false} RemovedKeepsInvariants(cart: seq<CartItem>, id: int)
    ensures DistinctIds(cart) ==> DistinctIds(Removed(cart, id))
    ensures AllQuantitiesPositive(cart) ==> AllQuantitiesPositive(Removed(cart, id))
  {
    var keep := (item: CartItem) => item.id != id;
    var r := Removed(cart, id);
    var idx := FilterPositions(cart, keep);
    assert Embeds(r, cart, idx);
    if DistinctIds(cart) {
      forall i, j | 0 <= i < j < |r| ensures r[i].id != r[j].id {
        assert r[i] == cart[idx[i]] && r[j] == cart[idx[j]] && idx[i] < idx[j];
      }
    }
    if AllQuantitiesPositive(cart) {
      forall i | 0 <= i < |r| ensures r[i].quantity >= 1 {
        assert r[i] == cart[idx[i]];
      }
    }
  }

  lemma QuantitySetKeepsInvariants(cart: seq<CartItem>, id: int, quantity: int)
    ensures DistinctIds(cart) ==> DistinctIds(QuantitySet(cart, id, quantity))
    ensures AllQuantitiesPositive(cart) && quantity >= 1 ==>
      AllQuantitiesPositive(QuantitySet(cart, id, quantity))
  {
  }

  /**
   * The cart slice state, with the storage slot it writes through to.
   * `hasWindow` is false during server-side rendering, where storage is
   * neither read nor written.
   */
  class CartStore {
    const hasWindow: bool
    var cart: seq<CartItem>
    var slot: Option<StoredText>

    /** Write-through: where storage exists, the slot holds exactly the cart. */
    ghost predicate Persisted()
      reads this
    {
      hasWindow ==> slot == Some(Serialize(cart))
    }

    /** initialState: the cart hydrated from the slot. */
    constructor (hasWindow: bool, slot: Option<StoredText>)
      ensures this.hasWindow == hasWindow && this.slot == slot
      ensures cart == LoadCart(hasWindow, slot)
    {
      this.hasWindow := hasWindow;
      this.slot := slot;
      cart := LoadCart(hasWindow, slot);
    }

    /** saveCartToStorage(state.cart). */
    method SaveCartToStorage()
      modifies this`slot
      ensures Persisted()
      ensures !hasWindow ==> slot == old(slot)
    {
      if hasWindow {
        slot := Some(Serialize(cart));
      }
    }

    method AddToCart(item: CartItem)
      modifies this
      ensures cart == Added(old(cart), item)
      ensures Persisted() && (!hasWindow ==> slot == old(slot))
      ensures hasWindow ==> LoadCart(hasWindow, slot) == cart
    {
      var existing := FindLine(cart, item.id);
      if existing.Some? {
        var k := existing.value;
        cart := cart[k := cart[k].(quantity := cart[k].quantity + item.quantity)];
      } else {
        cart := cart + [item];
      }
      SaveCartToStorage();
    }

    method RemoveFromCart(id: int)
      modifies this
      ensures cart == Removed(old(cart), id)
      ensures Persisted() && (!hasWindow ==> slot == old(slot))
      ensures hasWindow ==> LoadCart(hasWindow, slot) == cart
    {
      cart := Filter(cart, (item: CartItem) => item.id != id);
      SaveCartToStorage();
    }

    method UpdateQuantity(id: int, quantity: int)
      modifies this
      ensures cart == QuantitySet(old(cart), id, quantity)
      ensures Persisted() && (!hasWindow ==> slot == old(slot))
      ensures hasWindow ==> LoadCart(hasWindow, slot) == cart
    {
      var found := FindLine(cart, id);
      if found.Some? {
        var k := found.value;
        cart := cart[k := cart[k].(quantity := quantity)];
      }
      SaveCartToStorage();
    }

    method ClearCart()
      modifies this
      ensures cart == []
      ensures Persisted() && (!hasWindow ==> slot == old(slot))
      ensures hasWindow ==> LoadCart(hasWindow, slot) == []
    {
      cart := [];
      SaveCartToStorage();
    }
  }
}
