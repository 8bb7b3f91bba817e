/**
 * The edges-based product service: decoding of the responses of `fetchAllProducts`,
 * `fetchTotalProductCount` and `fetchProductById`, with the `fetch` call itself abstracted
 * into the `Response` it yields.
 */
module ProductServices1 {
  import opened Wrappers
  import opened Js
  import opened Responses

  /** `{ items, hasNextPage, endCursor }` as `fetchAllProducts` returns it. */
  datatype ProductsPage = ProductsPage(items: seq<Value>, hasNextPage: Value, endCursor: Value)

  /**
   * `{ cursor: edge.cursor, ...edge.node }` for an edge that is not nullish: the node's fields
   * plus the edge's cursor, where a node field named `cursor` wins, being spread after it.
   */
  function EdgeItem(edge: Value): (item: Value)
    ensures item.Obj? && "cursor" in item.fields
    ensures item.fields["cursor"] ==
      if "cursor" in Spread(Get(edge, "node")) then Spread(Get(edge, "node"))["cursor"]
      else Get(edge, "cursor")
    ensures forall k :: k != "cursor" ==> (k in item.fields <==> k in Spread(Get(edge, "node")))
    ensures forall k :: k in item.fields && k != "cursor" ==> item.fields[k] == Spread(Get(edge, "node"))[k]
  {
    Obj(map["cursor" := Get(edge, "cursor")] + Spread(Get(edge, "node")))
  }

  /** `edges.map(...)`: `edge.cursor` throws a TypeError (None) on a nullish edge. */
  function MapEdges(edges: seq<Value>): (r: Option<seq<Value>>)
    ensures r.Some? <==> forall i :: 0 <= i < |edges| ==> !Nullish(edges[i])
    ensures r.Some? ==> |r.value| == |edges|
    ensures r.Some? ==> forall i :: 0 <= i < |edges| ==> r.value[i] == EdgeItem(edges[i])
    decreases |edges|
  {
    if edges == [] then Some([])
    else if Nullish(edges[0]) then None
    else match MapEdges(edges[1..])
      case None => None
      case Some(rest) => Some([EdgeItem(edges[0])] + rest)
  }

  /** `result?.data?.products?.edges` */
  function EdgesOf(result: Value): Value {
    Get(ProductsOf(result), "edges")
  }

  /**
   * `fetchAllProducts` after the fetch: a non-OK response or a body that is not JSON throws;
   * otherwise one item per edge, in edge order (none when `edges` is absent or falsy), with
   * the `pageInfo` defaults. A truthy `edges` that is not an array, or a nullish edge, throws
   * a TypeError.
   */
  function FetchAllProducts(response: Response): (r: Result<ProductsPage, ServiceError>)
    ensures !response.ok ==> r == Failure(HttpError(response.statusText))
    ensures response.ok && response.body.None? ==> r == Failure(InvalidJson)
    ensures r.Success? ==> response.ok && response.body.Some?
    ensures response.ok && response.body.Some? && !Truthy(EdgesOf(response.body.value)) ==>
      r == Success(ProductsPage([], HasNextPage(ProductsOf(response.body.value)), EndCursor(ProductsOf(response.body.value))))
    ensures response.ok && response.body.Some? && Truthy(EdgesOf(response.body.value)) && !EdgesOf(response.body.value).Arr? ==>
      r == Failure(TypeError)
    ensures response.ok && response.body.Some? && EdgesOf(response.body.value).Arr? ==>
      var edges := EdgesOf(response.body.value).elems;
      && (r.Success? <==> forall i :: 0 <= i < |edges| ==> !Nullish(edges[i]))
      && (r.Success? ==> |r.value.items| == |edges| && forall i :: 0 <= i < |edges| ==> r.value.items[i] == EdgeItem(edges[i]))
      && (r.Failure? ==> r.error == TypeError)
    ensures r.Success? ==>
      && r.value.hasNextPage == HasNextPage(ProductsOf(response.body.value))
      && r.value.endCursor == EndCursor(ProductsOf(response.body.value))
  {
    if !response.ok then Failure(HttpError(response.statusText))
    else if response.body.None? then Failure(InvalidJson)
    else
      var result := response.body.value;
      var edges := Or(EdgesOf(result), Arr([]));
      if !edges.Arr? then Failure(TypeError)
      else match MapEdges(edges.elems)
        case None => Failure(TypeError)
        case Some(items) =>
          Success(ProductsPage(items, HasNextPage(ProductsOf(result)), EndCursor(ProductsOf(result))))
  }

  /** `result?.data?.totalProducts` */
  function TotalOf(result: Value): Value {
    Get(Get(result, "data"), "totalProducts")
  }

  /**
   * `fetchTotalProductCount` after the fetch: the count when it is a number; a non-OK
   * response, a body that is not JSON, and an absent or non-numeric count all throw.
   */
  function FetchTotalProductCount(response: Response): (r: Result<int, ServiceError>)
    ensures !response.ok ==> r == Failure(HttpError(response.statusText))
    ensures response.ok && response.body.None? ==> r == Failure(InvalidJson)
    ensures r.Success? <==> response.ok && response.body.Some? && TotalOf(response.body.value).Num?
    ensures r.Success? ==> r.value == TotalOf(response.body.value).n
    ensures response.ok && response.body.Some? && !TotalOf(response.body.value).Num? ==> r == Failure(InvalidCount)
  {
    if !response.ok then Failure(HttpError(response.statusText))
    else if response.body.None? then Failure(InvalidJson)
    else match TotalOf(response.body.value)
      case Num(n) => Success(n)
      case _ => Failure(InvalidCount)
  }

  /** `result.data?.product` */
  function ProductField(result: Value): Value {
    Get(Get(result, "data"), "product")
  }

  /**
   * `fetchProductById` after the fetch. A non-OK response or a body that is not JSON throws.
   * A truthy `errors` throws with the `message` of its first entry (a TypeError when there is
   * no first entry). Otherwise the product, or null when it is absent or falsy.
   */
  function FetchProductById(response: Response): (r: Result<Value, ServiceError>)
    ensures !response.ok ==> r == Failure(HttpError(response.statusText))
    ensures response.ok && response.body.None? ==> r == Failure(InvalidJson)
    ensures response.ok && response.body.Some? && Nullish(response.body.value) ==> r == Failure(TypeError)
    ensures response.ok && response.body.Some? && Truthy(Get(response.body.value, "errors")) ==>
      var first := At(Get(response.body.value, "errors"), 0);
      r == if Nullish(first) then Failure(TypeError) else Failure(GraphQLError(Get(first, "message")))
    ensures response.ok && response.body.Some? && !Nullish(response.body.value)
            && !Truthy(Get(response.body.value, "errors")) ==>
      r.Success? && r.value == (if Truthy(ProductField(response.body.value)) then ProductField(response.body.value) else Null)
    ensures r.Success? ==> r.value == Null || Truthy(r.value)
  {
    if !response.ok then Failure(HttpError(response.statusText))
    else if response.body.None? then Failure(InvalidJson)
    else
      var result := response.body.value;
      match Member(result, "errors")
      case None => Failure(TypeError)
      case Some(errors) =>
        if Truthy(errors) then
          match Member(At(errors, 0), "message")
          case None => Failure(TypeError)
          case Some(message) => Failure(GraphQLError(message))
        else Success(Or(ProductField(result), Null))
  }
}
