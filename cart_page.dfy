/**
 * The cart page: its quantity controls, the totals it displays, the
 * checkout form schema, and the order body it assembles on submission.
 */
module CartPage {
  import opened Common
  import opened Decimal
  import opened CartSlice
  import opened OrderSlice

  const DeliveryCharge := 80

  function LineTotal(item: CartItem): int {
    item.price * item.quantity
  }

  /** No line has a negative price or a negative quantity. */
  predicate NonNegativeLines(cart: seq<CartItem>) {
    forall i :: 0 <= i < |cart| ==> cart[i].price >= 0 && cart[i].quantity >= 0
  }

  /** `cart.reduce((total, item) => total + item.price * item.quantity, 0)`. */
  function Subtotal(cart: seq<CartItem>): (r: int)
    ensures cart == [] ==> r == 0
    ensures |cart| == 1 ==> r == cart[0].price * cart[0].quantity
  {
    SumOf(cart, LineTotal)
  }

  /** Without negative prices or quantities the subtotal is never negative. */
  lemma SubtotalNonNegative(cart: seq<CartItem>)
    ensures NonNegativeLines(cart) ==> Subtotal(cart) >= 0
  {
    assert NonNegativeLines(cart) ==> forall i :: 0 <= i < |cart| ==> LineTotal(cart[i]) >= 0;
  }

  /** The displayed total: subtotal plus the fixed delivery charge. */
  function Total(cart: seq<CartItem>): (r: int)
    ensures cart == [] ==> r == DeliveryCharge
    ensures NonNegativeLines(cart) ==> r >= DeliveryCharge
  {
    SubtotalNonNegative(cart);
    Subtotal(cart) + DeliveryCharge
  }

  /** The two-line example: 100 x 2 and 50 x 1 make 250, and 330 with delivery. */
  lemma SubtotalExample(a: CartItem, b: CartItem)
    requires a.price == 100 && a.quantity == 2 && b.price == 50 && b.quantity == 1
    ensures Subtotal([a, b]) == 250 && Total([a, b]) == 330
  {
    assert [a, b][..1] == [a] && [a][..0] == [];
    assert SumOf([a], LineTotal) == SumOf([], LineTotal) + LineTotal(a);
    assert LineTotal(a) == 200;
    assert Subtotal([a]) == 200;
  }

  /**
   * Adding to the cart raises the subtotal by the payload's quantity times the
   * unit price of the line it lands on: the price already in the cart when the
   * id is present (the snapshot taken at the first add), the payload's otherwise.
   */
  lemma {:induction false} SubtotalAdded(cart: seq<CartItem>, item: CartItem)
    ensures Subtotal(Added(cart, item)) == Subtotal(cart) +
      (if HasId(cart, item.id) then cart[FindLine(cart, item.id).value].price else item.price) * item.quantity
  {
    match FindLine(cart, item.id)
    case Some(k) =>
      var line := cart[k];
      var merged := line.(quantity := line.quantity + item.quantity);
      assert Added(cart, item) == cart[k := merged];
      SumOfUpdate(cart, k, merged, LineTotal);
      MulDifference(line.price, line.quantity + item.quantity, line.quantity);
    case None =>
      SumOfConcat(cart, [item], LineTotal);
      assert SumOf([item], LineTotal) == LineTotal(item) by {
        assert [item][..0] == [];
      }
  }

  /** Setting a line's quantity changes the subtotal by that line's price times the difference. */
  lemma {:induction false} SubtotalQuantitySet(cart: seq<CartItem>, id: int, quantity: int)
    requires HasId(cart, id)
    ensures var line := cart[FindLine(cart, id).value];
      Subtotal(QuantitySet(cart, id, quantity)) == Subtotal(cart) + line.price * (quantity - line.quantity)
  {
    var k := FindLine(cart, id).value;
    var line := cart[k];
    var updated := line.(quantity := quantity);
    assert QuantitySet(cart, id, quantity) == cart[k := updated];
    SumOfUpdate(cart, k, updated, LineTotal);
    MulDifference(line.price, quantity, line.quantity);
  }

  lemma MulDifference(p: int, a: int, b: int)
    ensures p * a - p * b == p * (a - b)
  {
  }

  /**
   * A string's JavaScript `length`: its UTF-16 code units, two for each
   * character outside the Basic Multilingual Plane.
   */
  function Utf16Length(s: string): (n: nat)
    ensures |s| <= n <= 2 * |s|
    ensures (forall i :: 0 <= i < |s| ==> s[i] as int <= 0xFFFF) ==> n == |s|
  {
    if s == [] then 0
    else
      assert forall i :: 1 <= i < |s| ==> s[1..][i - 1] == s[i];
      (if s[0] as int <= 0xFFFF then 1 else 2) + Utf16Length(s[1..])
  }

  /** The form schema: name of at least 3 code units, phone and address of at least 10. */
  predicate SchemaAccepts(v: FormValues): (ok: bool)
    ensures ok ==> |v.name| >= 2 && |v.phone| >= 5 && |v.address| >= 5
    ensures |v.name| >= 3 && |v.phone| >= 10 && |v.address| >= 10 ==> ok
  {
    Utf16Length(v.name) >= 3 && Utf16Length(v.phone) >= 10 && Utf16Length(v.address) >= 10
  }

  /** Two characters outside the Basic Multilingual Plane already make a valid name. */
  lemma SchemaCountsCodeUnits(v: FormValues)
    requires v.name == "\U{1F600}\U{1F600}" && |v.phone| >= 10 && |v.address| >= 10
    ensures SchemaAccepts(v)
  {
    assert Utf16Length(v.name[1..]) == 2;
  }

  /** `cart.map(item => item.id)`, each number as its decimal text. */
  function IdTexts(cart: seq<CartItem>): (r: seq<string>)
    ensures |r| == |cart|
    ensures forall i :: 0 <= i < |cart| ==> r[i] == IntToString(cart[i].id)
  {
    seq(|cart|, i requires 0 <= i < |cart| => IntToString(cart[i].id))
  }

  /** `cart.map(item => item.quantity)`, each number as its decimal text. */
  function QuantityTexts(cart: seq<CartItem>): (r: seq<string>)
    ensures |r| == |cart|
    ensures forall i :: 0 <= i < |cart| ==> r[i] == IntToString(cart[i].quantity)
  {
    seq(|cart|, i requires 0 <= i < |cart| => IntToString(cart[i].quantity))
  }

  /** The order body onSubmit builds from the cart and the submitted form values. */
  function BuildOrder(cart: seq<CartItem>, data: FormValues): (o: OrderData)
    ensures o.customerName == data.name && o.customerPhone == data.phone
    ensures o.address == data.address && o.courier == data.courier
    ensures o.productIds == Join(IdTexts(cart), ',') && o.productQuantities == Join(QuantityTexts(cart), ',')
    ensures o.codAmount == IntToString(Subtotal(cart) + 80) && ParseInt(o.codAmount) == Finite(Subtotal(cart) + 80)
    ensures o.deliveryCharge == "80"
    ensures o.advance.None? && o.discountAmount.None?
  {
    var total := Subtotal(cart) + DeliveryCharge;
    ParseIntOfIntToString(total);
    EightyText();
    OrderData(
      Join(IdTexts(cart), ','),
      Join(QuantityTexts(cart), ','),
      data.name,
      data.phone,
      data.address,
      data.courier,
      IntToString(total),
      IntToString(DeliveryCharge),
      None,
      None)
  }

  /**
   * `product_ids` and `s_product_qty` stay positionally aligned: split on ","
   * both give one entry per cart line, and entry i reads back as the id and
   * the quantity of line i.
   */
  lemma OrderLinesAligned(cart: seq<CartItem>, data: FormValues)
    requires |cart| > 0
    ensures var o := BuildOrder(cart, data);
      var ids := Split(o.productIds, ',');
      var quantities := Split(o.productQuantities, ',');
      && |ids| == |cart| && |quantities| == |cart|
      && forall i :: 0 <= i < |cart| ==>
           ParseInt(ids[i]) == Finite(cart[i].id) && ParseInt(quantities[i]) == Finite(cart[i].quantity)
  {
    var idTexts, quantityTexts := IdTexts(cart), QuantityTexts(cart);
    SplitJoin(idTexts, ',');
    SplitJoin(quantityTexts, ',');
    forall i | 0 <= i < |cart|
      ensures ParseInt(idTexts[i]) == Finite(cart[i].id)
      ensures ParseInt(quantityTexts[i]) == Finite(cart[i].quantity)
    {
      ParseIntOfIntToString(cart[i].id);
      ParseIntOfIntToString(cart[i].quantity);
    }
  }

  /** The decrement control of a line is enabled only above quantity 1. */
  predicate DecrementEnabled(item: CartItem) {
    item.quantity > 1
  }

  /** The cart page's own state, over the cart store it dispatches to. */
  class CheckoutPage {
    const store: CartStore
    var values: FormValues
    var isSubmitting: bool

    constructor (store: CartStore)
      ensures this.store == store && values == DefaultValues && !isSubmitting
    {
      this.store := store;
      values := DefaultValues;
      isSubmitting := false;
    }

    /** Typing into the form. */
    method Edit(v: FormValues)
      modifies this
      ensures values == v && isSubmitting == old(isSubmitting)
    {
      values := v;
    }

    /** handleRemoveItem. */
    method HandleRemoveItem(id: int)
      modifies store
      ensures store.cart == Removed(old(store.cart), id) && store.Persisted()
      ensures !store.hasWindow ==> store.slot == old(store.slot)
    {
      store.RemoveFromCart(id);
    }

    /** handleQuantityChange: a quantity below 1 is ignored, anything else is dispatched. */
    method HandleQuantityChange(id: int, quantity: int)
      modifies store
      ensures quantity < 1 ==> store.cart == old(store.cart) && store.slot == old(store.slot)
      ensures quantity >= 1 ==> store.cart == QuantitySet(old(store.cart), id, quantity) && store.Persisted()
      ensures !store.hasWindow ==> store.slot == old(store.slot)
      ensures AllQuantitiesPositive(old(store.cart)) ==> AllQuantitiesPositive(store.cart)
    {
      if quantity < 1 {
        return;
      }
      store.UpdateQuantity(id, quantity);
      QuantitySetKeepsInvariants(old(store.cart), id, quantity);
    }

    /** The minus button of line `k`: disabled at quantity 1 or below. */
    method Decrement(k: nat)
      requires k < |store.cart|
      modifies store
      ensures var line := old(store.cart)[k];
        DecrementEnabled(line) ==>
          store.cart == QuantitySet(old(store.cart), line.id, line.quantity - 1) && store.Persisted()
      ensures !DecrementEnabled(old(store.cart)[k]) ==> store.cart == old(store.cart) && store.slot == old(store.slot)
      ensures !store.hasWindow ==> store.slot == old(store.slot)
      ensures AllQuantitiesPositive(old(store.cart)) ==> AllQuantitiesPositive(store.cart)
    {
      var line := store.cart[k];
      if DecrementEnabled(line) {
        HandleQuantityChange(line.id, line.quantity - 1);
      }
    }

    /** The plus button of line `k`. */
    method Increment(k: nat)
      requires k < |store.cart|
      modifies store
      ensures var line := old(store.cart)[k];
        line.quantity >= 0 ==>
          store.cart == QuantitySet(old(store.cart), line.id, line.quantity + 1) && store.Persisted()
      ensures old(store.cart)[k].quantity < 0 ==> store.cart == old(store.cart) && store.slot == old(store.slot)
      ensures !store.hasWindow ==> store.slot == old(store.slot)
      ensures AllQuantitiesPositive(old(store.cart)) ==> AllQuantitiesPositive(store.cart)
    {
      var line := store.cart[k];
      HandleQuantityChange(line.id, line.quantity + 1);
    }

    /**
     * onSubmit(data): refuse an empty cart; otherwise build the order body and,
     * when the (simulated) placement succeeds, clear the cart and reset the form.
     */
    method OnSubmit(data: FormValues, succeeded: bool) returns (order: Option<OrderData>)
      modifies this, store
      ensures old(store.cart) == [] ==>
        order.None? && store.cart == [] && store.slot == old(store.slot)
        && values == old(values) && isSubmitting == old(isSubmitting)
      ensures old(store.cart) != [] ==> order == Some(BuildOrder(old(store.cart), data)) && !isSubmitting
      ensures old(store.cart) != [] && succeeded ==> store.cart == [] && store.Persisted() && values == DefaultValues
      ensures !succeeded ==> store.cart == old(store.cart) && store.slot == old(store.slot) && values == old(values)
      ensures !store.hasWindow ==> store.slot == old(store.slot)
    {
      if |store.cart| == 0 {
        return None;
      }
      isSubmitting := true;
      var body := BuildOrder(store.cart, data);
      order := Some(body);
      if succeeded {
        store.ClearCart();
        values := DefaultValues;
      }
      isSubmitting := false;
    }

    /**
     * Pressing "Place Order": the form values are checked against the schema
     * first, and onSubmit runs only when they pass.
     */
    method Submit(succeeded: bool) returns (order: Option<OrderData>)
      modifies this, store
      ensures !SchemaAccepts(old(values)) ==>
        order.None? && values == old(values) && store.cart == old(store.cart) && store.slot == old(store.slot)
      ensures order.Some? <==> SchemaAccepts(old(values)) && old(store.cart) != []
      ensures order.Some? ==> order.value == BuildOrder(old(store.cart), old(values))
      ensures order.Some? && succeeded ==> store.cart == [] && store.Persisted() && values == DefaultValues
      ensures order.Some? ==> !isSubmitting
      ensures order.None? ==>
        store.cart == old(store.cart) && store.slot == old(store.slot)
        && values == old(values) && isSubmitting == old(isSubmitting)
      ensures !succeeded ==> store.cart == old(store.cart) && store.slot == old(store.slot)
      ensures !store.hasWindow ==> store.slot == old(store.slot)
    {
      if !SchemaAccepts(values) {
        return None;
      }
      order := OnSubmit(values, succeeded);
    }
  }
}
