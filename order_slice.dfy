/**
 * The order slice: the request body sent to the order endpoint, and the
 * three-field status record driven by the placeOrder thunk.
 */
module OrderSlice {
  import opened Common

  const UnknownError := "An unknown error occurred"

  /** The customer fields both checkout forms collect. */
  datatype FormValues = FormValues(name: string, phone: string, address: string, courier: string)

  /** The forms' initial and reset values: empty fields, courier "steadfast". */
  const DefaultValues := FormValues("", "", "", "steadfast")

  /** The order-creation request body; numbers travel as decimal strings. */
  datatype OrderData = OrderData(
    productIds: string,
    productQuantities: string,
    customerName: string,
    customerPhone: string,
    address: string,
    courier: string,
    codAmount: string,
    deliveryCharge: string,
    advance: Option<string>,
    discountAmount: Option<string>)

  /**
   * Why the POST failed: an axios error, with the `message` field of the
   * response body when there was one and the transport's own message; or any
   * other thrown value.
   */
  datatype PostFailure = HttpFailure(responseMessage: Option<string>, message: string) | OtherFailure

  /** What the POST came back with. The network call itself is not modelled. */
  datatype PostOutcome = Posted | Failed(failure: PostFailure)

  /**
   * The value placeOrder rejects with: the response's message when present and
   * non-empty, else the transport message; a non-axios error gives a fixed text.
   */
  function RejectionMessage(f: PostFailure): (m: string)
    ensures f.OtherFailure? ==> m == UnknownError
    ensures f.HttpFailure? && f.responseMessage.Some? && f.responseMessage.value != "" ==> m == f.responseMessage.value
    ensures f.HttpFailure? && (f.responseMessage.None? || f.responseMessage.value == "") ==> m == f.message
    ensures f.HttpFailure? && f.message != "" ==> m != ""
  {
    match f
    case HttpFailure(response, message) =>
      if response.Some? && response.value != "" then response.value else message
    case OtherFailure => UnknownError
  }

  /** The order slice state. */
  class OrderStore {
    var loading: bool
    var error: Option<string>
    var success: bool

    /** The initial state {loading: false, error: null, success: false}. */
    predicate IsInitial()
      reads this
    {
      !loading && error.None? && !success
    }

    constructor ()
      ensures IsInitial()
    {
      loading, error, success := false, None, false;
    }

    /** resetOrderState: back to the initial state from any state; a second reset changes nothing. */
    method ResetOrderState()
      modifies this
      ensures IsInitial()
    {
      loading := false;
      error := None;
      success := false;
    }

    /** placeOrder.pending. */
    method Pending()
      modifies this
      ensures loading && error.None? && !success
    {
      loading := true;
      error := None;
      success := false;
    }

    /** placeOrder.fulfilled: `error` keeps whatever it held. */
    method Fulfilled()
      modifies this
      ensures !loading && success && error == old(error)
    {
      loading := false;
      success := true;
    }

    /** placeOrder.rejected with the rejection value `message`: `success` keeps whatever it held. */
    method Rejected(message: string)
      modifies this
      ensures !loading && error == Some(message) && success == old(success)
    {
      loading := false;
      error := Some(message);
    }

    /**
     * One dispatch of placeOrder: pending, then fulfilled or rejected according
     * to the outcome of the POST. Afterwards the order is not loading, and it
     * never both succeeded and carries an error.
     */
    method PlaceOrder(outcome: PostOutcome)
      modifies this
      ensures !loading
      ensures success <==> outcome.Posted?
      ensures outcome.Posted? ==> error.None?
      ensures outcome.Failed? ==> error == Some(RejectionMessage(outcome.failure))
      ensures !(success && error.Some?)
    {
      Pending();
      match outcome
      case Posted => Fulfilled();
      case Failed(f) => Rejected(RejectionMessage(f));
    }
  }
}
