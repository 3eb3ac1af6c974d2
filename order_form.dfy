/**
 * The single-product order form: a quantity kept at 1 or more, the customer
 * fields, the totals it displays and the order body it assembles.
 */
module OrderForm {
  import opened Common
  import opened Decimal
  import opened ProductSlice
  import opened OrderSlice
  import CartSlice
  import CartPage

  const DeliveryCharge := 80

  /** The displayed subtotal: price times quantity. */
  function TotalPrice(p: Product, quantity: int): (r: int)
    ensures quantity == 1 ==> r == p.price
    ensures p.price >= 0 && quantity >= 1 ==> r >= p.price
  {
    p.price * quantity
  }

  /** The displayed total: subtotal plus the fixed delivery charge. */
  function GrandTotal(p: Product, quantity: int): (r: int)
    ensures quantity == 1 ==> r == p.price + DeliveryCharge
    ensures p.price >= 0 && quantity >= 1 ==> r >= p.price + DeliveryCharge
  {
    TotalPrice(p, quantity) + DeliveryCharge
  }

  /** The form shows the same totals as the cart page would for a one-line cart of this product. */
  lemma TotalsMatchCartPage(p: Product, quantity: int)
    ensures var line := CartSlice.CartItem(p.id, p.name, p.price, p.image, quantity);
      TotalPrice(p, quantity) == CartPage.Subtotal([line]) && GrandTotal(p, quantity) == CartPage.Total([line])
  {
  }

  /** `!c_name || !c_phone || !address` is false: every required field is non-empty. */
  predicate RequiredFilled(data: FormValues): (ok: bool)
    ensures CartPage.SchemaAccepts(data) ==> ok
  {
    data.name != "" && data.phone != "" && data.address != ""
  }

  /** The order body handleSubmit builds for one product. */
  function BuildOrder(p: Product, quantity: int, data: FormValues): (o: OrderData)
    ensures o.productIds == IntToString(p.id) && ParseInt(o.productIds) == Finite(p.id)
    ensures o.productQuantities == IntToString(quantity) && ParseInt(o.productQuantities) == Finite(quantity)
    ensures o.codAmount == IntToString(GrandTotal(p, quantity)) && ParseInt(o.codAmount) == Finite(GrandTotal(p, quantity))
    ensures o.deliveryCharge == "80" && o.advance.None? && o.discountAmount.None?
    ensures o.customerName == data.name && o.customerPhone == data.phone
    ensures o.address == data.address && o.courier == data.courier
  {
    ParseIntOfIntToString(p.id);
    ParseIntOfIntToString(quantity);
    ParseIntOfIntToString(p.price * quantity + 80);
    OrderData(
      IntToString(p.id),
      IntToString(quantity),
      data.name,
      data.phone,
      data.address,
      data.courier,
      IntToString(p.price * quantity + 80),
      "80",
      None,
      None)
  }

  /** The text inputs handleInputChange writes to, by their `name` attribute. */
  datatype Field = Name | Phone | Address

  /** The order form component's state for one product. */
  class FormState {
    const product: Product
    var quantity: int
    var formData: FormValues
    var isSubmitting: bool

    /** The quantity never drops below 1. */
    predicate Valid()
      reads this
    {
      quantity >= 1
    }

    constructor (product: Product)
      ensures this.product == product && quantity == 1 && formData == DefaultValues && !isSubmitting
      ensures Valid()
    {
      this.product := product;
      quantity := 1;
      formData := DefaultValues;
      isSubmitting := false;
    }

    /** handleQuantityChange: take the parsed value only when it is a number above 0. */
    method HandleQuantityChange(value: string)
      modifies this
      ensures ParseInt(value).IsPositive() ==> quantity == ParseInt(value).n
      ensures !ParseInt(value).IsPositive() ==> quantity == old(quantity)
      ensures old(Valid()) ==> Valid()
      ensures formData == old(formData) && isSubmitting == old(isSubmitting)
    {
      var qty := ParseInt(value);
      if qty.IsPositive() {
        quantity := qty.n;
      }
    }

    /** The minus button: `quantity > 1 && handleQuantityChange((quantity - 1).toString())`. */
    method Decrement()
      modifies this
      ensures old(quantity) > 1 ==> quantity == old(quantity) - 1
      ensures old(quantity) <= 1 ==> quantity == old(quantity)
      ensures old(Valid()) ==> Valid()
      ensures formData == old(formData) && isSubmitting == old(isSubmitting)
    {
      if quantity > 1 {
        ParseIntOfIntToString(quantity - 1);
        HandleQuantityChange(IntToString(quantity - 1));
      }
    }

    /** The plus button: `handleQuantityChange((quantity + 1).toString())`. */
    method Increment()
      modifies this
      ensures old(Valid()) ==> quantity == old(quantity) + 1 && Valid()
      ensures formData == old(formData) && isSubmitting == old(isSubmitting)
    {
      ParseIntOfIntToString(quantity + 1);
      HandleQuantityChange(IntToString(quantity + 1));
    }

    /** handleInputChange: the named field takes the typed value. */
    method HandleInputChange(field: Field, value: string)
      modifies this
      ensures formData == match field
        case Name => old(formData).(name := value)
        case Phone => old(formData).(phone := value)
        case Address => old(formData).(address := value)
      ensures quantity == old(quantity) && isSubmitting == old(isSubmitting)
    {
      match field
      case Name => formData := formData.(name := value);
      case Phone => formData := formData.(phone := value);
      case Address => formData := formData.(address := value);
    }

    /** handleCourierChange. */
    method HandleCourierChange(value: string)
      modifies this
      ensures formData == old(formData).(courier := value) && quantity == old(quantity)
      ensures isSubmitting == old(isSubmitting)
    {
      formData := formData.(courier := value);
    }

    /**
     * handleSubmit: abort when a required field is empty; otherwise build the
     * order body and, when the (simulated) placement succeeds, reset the
     * quantity to 1 and the fields to their defaults.
     */
    method HandleSubmit(succeeded: bool) returns (order: Option<OrderData>)
      modifies this
      ensures !RequiredFilled(old(formData)) ==>
        order.None? && formData == old(formData) && quantity == old(quantity) && isSubmitting == old(isSubmitting)
      ensures RequiredFilled(old(formData)) ==>
        order == Some(BuildOrder(product, old(quantity), old(formData))) && !isSubmitting
      ensures RequiredFilled(old(formData)) && succeeded ==> quantity == 1 && formData == DefaultValues
      ensures !succeeded ==> quantity == old(quantity) && formData == old(formData)
      ensures old(Valid()) ==> Valid()
    {
      if !RequiredFilled(formData) {
        return None;
      }
      isSubmitting := true;
      order := Some(BuildOrder(product, quantity, formData));
      if succeeded {
        quantity := 1;
        formData := DefaultValues;
      }
      isSubmitting := false;
    }
  }
}
