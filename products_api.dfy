/**
 * The catalogue endpoints used by the storefront: the shape normalisation
 * of `getProducts` and the featured selection built on it. Money is in
 * integer cents; `rating` is an integer score and `createdAt` a timestamp.
 */
module ProductsApi {
  import opened Wrappers
  import opened Http
  import opened Sequences

  datatype Product = Product(
    id: string, name: string, category: string, price: int, featured: bool, rating: int, createdAt: int)

  /**
   * The body `GET /products` may answer with, and what `getProducts` passes
   * on: an array, an object with an optional `success` flag and an optional
   * `products` property, any other value (a primitive, with its JavaScript
   * truthiness), or `null`.
   */
  datatype ProductsBody =
    | ProductArray(items: seq<Product>)
    | ProductObject(success: bool, products: Option<ProductsBody>)
    | ProductsOther(truthy: bool)
    | ProductsNull

  predicate Truthy(b: ProductsBody) {
    match b
    case ProductArray(_) => true
    case ProductObject(_, _) => true
    case ProductsOther(t) => t
    case ProductsNull => false
  }

  const ListFailed: string := "Error al obtener productos"

  /**
   * `getProducts`: an object with `success` is returned as is; an array is
   * wrapped as `{ products: data }`; anything else is returned unchanged,
   * except `null`, where reading `.success` throws inside the `try` and the
   * wrapper rethrows its default message.
   */
  function GetProducts(reply: Reply<ProductsBody>): (r: Result<ProductsBody, ErrorBody>)
    ensures reply.Fail? ==> r == Settle(reply, ListFailed)
    ensures reply.Ok? && reply.data.ProductObject? ==> r == Success(reply.data)
    ensures reply.Ok? && reply.data.ProductArray? ==> r == Success(ProductObject(false, Some(reply.data)))
    ensures reply.Ok? && reply.data.ProductsOther? ==> r == Success(reply.data)
    ensures reply.Ok? && reply.data.ProductsNull? ==> r == Failure(ErrorBody(Some(ListFailed)))
    ensures r.Success? ==> r.value.ProductObject? || r.value.ProductsOther?
  {
    match reply
    case Fail(_) => Settle(reply, ListFailed)
    case Ok(data) =>
      match data
      case ProductObject(_, _) => Success(data)
      case ProductArray(_) => Success(ProductObject(false, Some(data)))
      case ProductsOther(_) => Success(data)
      case ProductsNull => Failure(ErrorBody(Some(ListFailed)))
  }

  /** `response.products || response || []`. */
  function Pick(response: ProductsBody): (r: ProductsBody)
    ensures Truthy(r) || r == ProductArray([])
    ensures response.ProductObject? && response.products.Some? && Truthy(response.products.value) ==>
              r == response.products.value
    ensures !(response.ProductObject? && response.products.Some? && Truthy(response.products.value)) ==>
              r == (if Truthy(response) then response else ProductArray([]))
  {
    if response.ProductObject? && response.products.Some? && Truthy(response.products.value) then response.products.value
    else if Truthy(response) then response
    else ProductArray([])
  }

  /** Whatever the list call throws, passed on unchanged, or the TypeError of calling `filter` on a non-array. */
  datatype Thrown = Rejected(body: ErrorBody) | TypeError

  function IsFeatured(p: Product): bool {
    p.featured
  }

  /**
   * `getFeaturedProducts`: the products with `featured` set, in catalogue
   * order; the list call's error is rethrown as is, and a picked value that
   * is not an array makes `filter` throw.
   */
  function GetFeaturedProducts(reply: Reply<ProductsBody>): (r: Result<seq<Product>, Thrown>)
    ensures GetProducts(reply).Failure? ==> r == Failure(Rejected(GetProducts(reply).error))
    ensures GetProducts(reply).Success? ==> (r.Success? <==> Pick(GetProducts(reply).value).ProductArray?)
    ensures r.Success? ==>
              var all := Pick(GetProducts(reply).value).items;
              && IsSubsequence(r.value, all)
              && (forall i :: 0 <= i < |r.value| ==> r.value[i].featured)
              && (forall i :: 0 <= i < |all| && all[i].featured ==> all[i] in r.value)
              && (forall p :: multiset(r.value)[p] == if p.featured then multiset(all)[p] else 0)
  {
    match GetProducts(reply)
    case Failure(body) => Failure(Rejected(body))
    case Success(response) =>
      var products := Pick(response);
      if products.ProductArray? then
        FilterIsSubsequence(products.items, IsFeatured);
        Success(Filter(products.items, IsFeatured))
      else Failure(TypeError)
  }

  /** A plain array from the backend and an envelope around the same array give the same featured list. */
  lemma FeaturedAgreesAcrossShapes(ps: seq<Product>)
    ensures GetFeaturedProducts(Ok(ProductArray(ps))) == Success(Filter(ps, IsFeatured))
    ensures GetFeaturedProducts(Ok(ProductObject(true, Some(ProductArray(ps))))) == Success(Filter(ps, IsFeatured))
  {
    assert Truthy(ProductArray(ps));
  }
}
