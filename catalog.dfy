/**
 * The catalog entries the stores hold, and the page fetch both pagination stores issue
 * (`fetchAllProducts(first, after)`), seen from the store side: a request and its outcome.
 */
module Catalog {
  import opened Wrappers

  /**
   * A product as the stores hold it. `price` is in integer cents (the source keeps a display
   * string such as "$9.99"); `cursor` is the pagination token attached to a list entry.
   */
  datatype Product = Product(
    id: string,
    databaseId: int,
    name: string,
    slug: string,
    sku: Option<string>,
    price: int,
    categories: seq<string>,
    imageUrl: string,
    cursor: Option<string>)

  /** The arguments of one `fetchAllProducts(first, after)` call. */
  datatype PageRequest = PageRequest(first: int, after: Option<string>)

  /** What a call yields: it throws, or it returns a page of items and its page info. */
  datatype PageOutcome =
    | Threw
    | Page(items: seq<Product>, hasNextPage: bool, endCursor: Option<string>)

  /** The catalog data source, answering each request. */
  type Server = PageRequest -> PageOutcome

  /** The `items.length > 0` test both pagination stores apply to a fetch. */
  predicate Delivered(o: PageOutcome) {
    o.Page? && |o.items| > 0
  }

  /** A page size: the stores only ever hold a positive one. */
  type PageSize = n: int | n > 0 witness 1

  /** `Math.ceil(count / perPage)` for an integer count. */
  function TotalPages(count: int, perPage: PageSize): (r: int)
    ensures perPage * (r - 1) < count <= perPage * r
  {
    var q := (-count) / perPage;
    assert -count == perPage * q + (-count) % perPage;
    -q
  }
}
