/**
 * The product slice: the loaded catalog, one selected product, and the
 * loading/error status driven by the fetchProducts and fetchSingleProduct
 * thunks. The GET itself is not modelled: its result is an input.
 */
module ProductSlice {
  import opened Common
  import opened Decimal

  const UnknownError := "An unknown error occurred"
  const NotFound := "Product not found"

  datatype Category = Category(name: string)

  datatype ProductImage = ProductImage(id: int, name: string)

  /** A catalog product as the remote API delivers it; prices are whole currency units. */
  datatype Product = Product(
    id: int,
    name: string,
    price: int,
    image: string,
    stock: int,
    isDiscount: int,
    discountAmount: Option<string>,
    shortDesc: Option<string>,
    category: Option<Category>,
    code: Option<string>,
    uniqueId: Option<string>,
    productImages: Option<seq<ProductImage>>)

  /**
   * What the catalog GET yields: an axios error with its message, or a
   * response body. In a body, `page` is `data.data` (None when absent) and the
   * inner option is `data.data.data` (None when falsy).
   */
  datatype CatalogResponse =
    | TransportError(message: string)
    | Received(page: Option<Option<seq<Product>>>)

  /**
   * The outcome of fetchProducts' payload creator: the nested list, `[]` when
   * it is falsy; the axios message on a transport error; a fixed message when
   * reading `data.data.data` throws because `data.data` is absent.
   */
  function ProductsOf(response: CatalogResponse): (r: Result<seq<Product>>)
    ensures response.TransportError? ==> r == Err(response.message)
    ensures response.Received? && response.page.None? ==> r == Err(UnknownError)
    ensures response.Received? && response.page == Some(None) ==> r == Ok([])
    ensures response.Received? && response.page.Some? && response.page.value.Some? ==>
      r == Ok(response.page.value.value)
  {
    match response
    case TransportError(message) => Err(message)
    case Received(page) =>
      match page
      case None => Err(UnknownError)
      case Some(list) => Ok(if list.Some? then list.value else [])
  }

  /** `product.id.toString() === id`. */
  predicate IdMatches(p: Product, id: string) {
    IntToString(p.id) == id
  }

  /** `products.find(p => p.id.toString() === id)`, as the position found. */
  function FindProduct(products: seq<Product>, id: string): (k: Option<nat>)
    ensures k.Some? ==> k.value < |products| && IdMatches(products[k.value], id)
    ensures k.Some? ==> forall j :: 0 <= j < k.value ==> !IdMatches(products[j], id)
    ensures k.None? ==> forall j :: 0 <= j < |products| ==> !IdMatches(products[j], id)
  {
    if products == [] then None
    else if IdMatches(products[0], id) then Some(0)
    else
      var rest := FindProduct(products[1..], id);
      assert forall j :: 1 <= j < |products| ==> products[j] == products[1..][j - 1];
      if rest.None? then None else Some(rest.value + 1)
  }

  /** fetchSingleProduct issues the GET only when the loaded list has no match. */
  predicate IssuesFetch(loaded: seq<Product>, id: string) {
    FindProduct(loaded, id).None?
  }

  /**
   * fetchSingleProduct's payload creator: the first loaded product whose id
   * reads as `id`; on a miss, the first such product of the fetched list, or
   * "Product not found", or the failure of the fetch.
   */
  function SingleProductOf(loaded: seq<Product>, id: string, response: CatalogResponse): (r: Result<Product>)
    ensures !IssuesFetch(loaded, id) ==> r == Ok(loaded[FindProduct(loaded, id).value])
    ensures r.Ok? ==> IdMatches(r.value, id)
    ensures IssuesFetch(loaded, id) && r.Ok? ==>
      ProductsOf(response).Ok? && r.value in ProductsOf(response).value
    ensures IssuesFetch(loaded, id) && ProductsOf(response).Ok? && FindProduct(ProductsOf(response).value, id).Some? ==>
      r == Ok(ProductsOf(response).value[FindProduct(ProductsOf(response).value, id).value])
    ensures IssuesFetch(loaded, id) && ProductsOf(response).Ok? ==>
      (r == Err(NotFound) <==> forall p :: p in ProductsOf(response).value ==> !IdMatches(p, id))
    ensures IssuesFetch(loaded, id) && ProductsOf(response).Err? ==> r == Err(ProductsOf(response).error)
  {
    match FindProduct(loaded, id)
    case Some(k) => Ok(loaded[k])
    case None =>
      match ProductsOf(response)
      case Err(message) => Err(message)
      case Ok(products) =>
        match FindProduct(products, id)
        case Some(k) => Ok(products[k])
        case None => Err(NotFound)
  }

  /** A cache hit is answered without looking at any fetched response. */
  lemma CacheHitIgnoresResponse(loaded: seq<Product>, id: string, r1: CatalogResponse, r2: CatalogResponse)
    requires !IssuesFetch(loaded, id)
    ensures SingleProductOf(loaded, id, r1) == SingleProductOf(loaded, id, r2)
  {
  }

  /** A product only matches the canonical decimal spelling of its id. */
  lemma MatchedIdParses(p: Product, id: string)
    requires IdMatches(p, id)
    ensures ParseInt(id) == Finite(p.id)
  {
    ParseIntOfIntToString(p.id);
  }

  /** The product slice state. */
  class ProductStore {
    var products: seq<Product>
    var singleProduct: Option<Product>
    var loading: bool
    var error: Option<string>

    constructor ()
      ensures products == [] && singleProduct.None? && !loading && error.None?
    {
      products, singleProduct, loading, error := [], None, false, None;
    }

    /** fetchProducts.pending and fetchSingleProduct.pending (the two reducers are the same). */
    method Pending()
      modifies this
      ensures loading && error.None?
      ensures products == old(products) && singleProduct == old(singleProduct)
    {
      loading := true;
      error := None;
    }

    /** fetchProducts.fulfilled: `payload || []`. */
    method ProductsFulfilled(payload: Option<seq<Product>>)
      modifies this
      ensures !loading
      ensures products == if payload.Some? then payload.value else []
      ensures singleProduct == old(singleProduct) && error == old(error)
    {
      loading := false;
      products := if payload.Some? then payload.value else [];
    }

    /** fetchProducts.rejected. */
    method ProductsRejected(message: string)
      modifies this
      ensures !loading && error == Some(message) && products == []
      ensures singleProduct == old(singleProduct)
    {
      loading := false;
      error := Some(message);
      products := [];
    }

    /** fetchSingleProduct.fulfilled. */
    method SingleFulfilled(product: Product)
      modifies this
      ensures !loading && singleProduct == Some(product)
      ensures products == old(products) && error == old(error)
    {
      loading := false;
      singleProduct := Some(product);
    }

    /** fetchSingleProduct.rejected. */
    method SingleRejected(message: string)
      modifies this
      ensures !loading && error == Some(message) && singleProduct.None?
      ensures products == old(products)
    {
      loading := false;
      error := Some(message);
      singleProduct := None;
    }

    /** One dispatch of fetchProducts whose GET came back with `response`. */
    method FetchProducts(response: CatalogResponse)
      modifies this
      ensures !loading && singleProduct == old(singleProduct)
      ensures ProductsOf(response).Ok? ==> products == ProductsOf(response).value && error.None?
      ensures ProductsOf(response).Err? ==> products == [] && error == Some(ProductsOf(response).error)
    {
      Pending();
      var outcome := ProductsOf(response);
      match outcome
      case Ok(list) => ProductsFulfilled(Some(list));
      case Err(message) => ProductsRejected(message);
    }

    /**
     * One dispatch of fetchSingleProduct(id); `response` is what the GET would
     * return and is consulted only when the loaded list has no match.
     */
    method FetchSingleProduct(id: string, response: CatalogResponse)
      modifies this
      ensures !loading && products == old(products)
      ensures SingleProductOf(old(products), id, response).Ok? ==>
        singleProduct == Some(SingleProductOf(old(products), id, response).value) && error.None?
      ensures SingleProductOf(old(products), id, response).Err? ==>
        singleProduct.None? && error == Some(SingleProductOf(old(products), id, response).error)
    {
      Pending();
      var outcome := SingleProductOf(products, id, response);
      match outcome
      case Ok(p) => SingleFulfilled(p);
      case Err(message) => SingleRejected(message);
    }
  }
}
