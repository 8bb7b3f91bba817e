/**
 * The nodes-based product service: decoding of the `fetchAllProducts` response, with the
 * `fetch` call itself abstracted into the `Response` it yields.
 */
module ProductServices {
  import opened Wrappers
  import opened Js
  import opened Responses

  /** `{ items, hasNextPage, endCursor }`; `items` is whatever truthy value `nodes` holds. */
  datatype NodesPage = NodesPage(items: Value, hasNextPage: Value, endCursor: Value)

  /** `result?.data?.products?.nodes` */
  function NodesOf(result: Value): Value {
    Get(ProductsOf(result), "nodes")
  }

  /**
   * `fetchAllProducts` after the fetch: a non-OK response or a body that is not JSON throws;
   * otherwise `items` is `data.products.nodes` when that is truthy, unchecked, and an empty
   * array when it is absent or falsy, with the `pageInfo` defaults.
   */
  function FetchAllProducts(response: Response): (r: Result<NodesPage, ServiceError>)
    ensures !response.ok ==> r == Failure(HttpError(response.statusText))
    ensures response.ok && response.body.None? ==> r == Failure(InvalidJson)
    ensures r.Success? <==> response.ok && response.body.Some?
    ensures r.Success? ==>
      var result := response.body.value;
      && (Truthy(NodesOf(result)) ==> r.value.items == NodesOf(result))
      && (!Truthy(NodesOf(result)) ==> r.value.items == Arr([]))
      && r.value.hasNextPage == HasNextPage(ProductsOf(result))
      && r.value.endCursor == EndCursor(ProductsOf(result))
  {
    if !response.ok then Failure(HttpError(response.statusText))
    else if response.body.None? then Failure(InvalidJson)
    else
      var result := response.body.value;
      Success(NodesPage(Or(NodesOf(result), Arr([])), HasNextPage(ProductsOf(result)), EndCursor(ProductsOf(result))))
  }
}
