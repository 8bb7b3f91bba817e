/**
 * What the two product service files share once `fetch` is abstracted: the response a
 * request yields, the errors the decoders throw, and the `pageInfo` defaults they both apply.
 */
module Responses {
  import opened Wrappers
  import opened Js

  /**
   * An HTTP response: its `ok` flag, its status text, and its body as `response.json()`
   * parses it (None when the body is not JSON, so that `json()` rejects).
   */
  datatype Response = Response(ok: bool, statusText: string, body: Option<Value>)

  /** The errors the decoders throw. */
  datatype ServiceError =
    | HttpError(statusText: string)      // `!response.ok`
    | InvalidJson                        // `response.json()` rejects
    | TypeError                          // a property read or call on the wrong kind of value
    | InvalidCount                       // the total count is not a number
    | GraphQLError(message: Value)       // the first entry of `errors`, as its `message` field

  /** `result?.data?.products` */
  function ProductsOf(result: Value): Value {
    Get(Get(result, "data"), "products")
  }

  /** `products?.pageInfo?.hasNextPage || false` */
  function HasNextPage(products: Value): (r: Value)
    ensures Truthy(r) <==> Truthy(Get(Get(products, "pageInfo"), "hasNextPage"))
    ensures Truthy(r) ==> r == Get(Get(products, "pageInfo"), "hasNextPage")
    ensures !Truthy(r) ==> r == Bool(false)
  {
    Or(Get(Get(products, "pageInfo"), "hasNextPage"), Bool(false))
  }

  /** `products?.pageInfo?.endCursor || null`: absent, null and empty all become null. */
  function EndCursor(products: Value): (r: Value)
    ensures r == Null || r == Get(Get(products, "pageInfo"), "endCursor")
    ensures r != Str("") && r != Undefined
    ensures Get(Get(products, "pageInfo"), "endCursor") == Str("") ==> r == Null
    ensures Get(Get(products, "pageInfo"), "endCursor").Str? && Get(Get(products, "pageInfo"), "endCursor").s != "" ==>
              r == Get(Get(products, "pageInfo"), "endCursor")
  {
    Or(Get(Get(products, "pageInfo"), "endCursor"), Null)
  }
}
