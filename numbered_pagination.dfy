/**
 * The trailing-cursor pagination store. It keeps no cursor list: a navigation fetches after
 * the `cursor` of the last product the product store holds, or from the start.
 */
module NumberedPagination {
  import opened Wrappers
  import opened Catalog
  import Products = ProductStore

  /** The `cursor` of the last product held, or null when there is none. */
  function LastCursor(products: seq<Product>): (r: Option<string>)
    ensures products == [] ==> r == None
    ensures products != [] ==> r == products[|products| - 1].cursor
  {
    if |products| > 0 then products[|products| - 1].cursor else None
  }

  /** The cursor `goToPage(page)` fetches after: the last product's, beyond page 1 only. */
  function AfterCursor(products: seq<Product>, page: int): (r: Option<string>)
    ensures page <= 1 ==> r == None
    ensures page > 1 ==> r == LastCursor(products)
  {
    if page > 1 && |products| > 0 then products[|products| - 1].cursor else None
  }

  /**
   * A navigation's effect on both stores, the fetches it issued, in order, and whether the
   * promise the action returns rejects (a fetch threw outside any `try`).
   */
  datatype Nav = Nav(pager: PagerState, catalog: Products.ProductState, requests: seq<PageRequest>, rejected: bool)

  /** The persisted fields (`partialize`): all four. */
  datatype PagerState = PagerState(
    currentPage: int,
    totalProducts: int,
    productsPerPage: PageSize,
    totalPages: int)
  {
    /** `setTotalProducts(count)`: the total and `ceil(count / productsPerPage)` pages. */
    function SetTotalProducts(count: int): (t: PagerState)
      ensures t.totalProducts == count
      ensures t.productsPerPage * (t.totalPages - 1) < count <= t.productsPerPage * t.totalPages
      ensures t.currentPage == currentPage && t.productsPerPage == productsPerPage
    {
      this.(totalProducts := count, totalPages := TotalPages(count, productsPerPage))
    }

    /**
     * `goToPage(page)`: nothing outside `[1, totalPages]` or on the current page, and no
     * fetch either. Otherwise a fetch after `AfterCursor`, inside a `try` whose `catch` only
     * logs, so the call never rejects: a throw changes nothing; a
     * non-empty page goes to the product store and becomes the current page; an empty page
     * sends the store back to page 1 and fetches the first page, whose items (even none) go
     * to the product store unless that second fetch throws.
     */
    function GoToPage(catalog: Products.ProductState, page: int, server: Server): (n: Nav)
      ensures page < 1 || page > totalPages || page == currentPage ==> n == Nav(this, catalog, [], false)
      ensures !n.rejected
      ensures 1 <= page <= totalPages && page != currentPage ==>
        var first := PageRequest(productsPerPage, AfterCursor(catalog.products, page));
        var fallback := PageRequest(productsPerPage, None);
        && |n.requests| >= 1 && n.requests[0] == first
        && n.pager == this.(currentPage := n.pager.currentPage)
        && (server(first).Threw? ==> n == Nav(this, catalog, [first], false))
        && (Delivered(server(first)) ==>
              n == Nav(this.(currentPage := page), catalog.SetProducts(server(first).items), [first], false))
        && (server(first).Page? && server(first).items == [] ==>
              && n.requests == [first, fallback]
              && n.pager.currentPage == 1
              && n.catalog == if server(fallback).Threw? then catalog
                              else catalog.SetProducts(server(fallback).items))
    {
      if page < 1 || page > totalPages || page == currentPage then Nav(this, catalog, [], false)
      else
        var first := PageRequest(productsPerPage, AfterCursor(catalog.products, page));
        match server(first)
        case Threw => Nav(this, catalog, [first], false)
        case Page(items, _, _) =>
          if |items| > 0 then Nav(this.(currentPage := page), catalog.SetProducts(items), [first], false)
          else
            var fallback := PageRequest(productsPerPage, None);
            match server(fallback)
            case Threw => Nav(this.(currentPage := 1), catalog, [first, fallback], false)
            case Page(items', _, _) =>
              Nav(this.(currentPage := 1), catalog.SetProducts(items'), [first, fallback], false)
    }

    /**
     * `nextPage()`: only while `currentPage < totalPages`, one fetch after the last product's
     * cursor; a non-empty page is appended to the product list (with no latch) and the page
     * number goes up by one; an empty page or a throw changes nothing, and the fetch is not
     * guarded, so a throw rejects the call.
     */
    function NextPage(catalog: Products.ProductState, server: Server): (n: Nav)
      ensures currentPage >= totalPages ==> n == Nav(this, catalog, [], false)
      ensures currentPage < totalPages ==>
        var request := PageRequest(productsPerPage, LastCursor(catalog.products));
        && n.requests == [request]
        && (n.rejected <==> server(request).Threw?)
        && (Delivered(server(request)) ==>
              && n.pager == this.(currentPage := currentPage + 1)
              && n.catalog == catalog.AddProducts(server(request).items))
        && (!Delivered(server(request)) ==> n.pager == this && n.catalog == catalog)
    {
      if currentPage < totalPages then
        var request := PageRequest(productsPerPage, LastCursor(catalog.products));
        var o := server(request);
        if Delivered(o) then Nav(this.(currentPage := currentPage + 1), catalog.AddProducts(o.items), [request], false)
        else Nav(this, catalog, [request], o.Threw?)
      else Nav(this, catalog, [], false)
    }

    /**
     * `prevPage()`: only while `currentPage > 1`. The page number goes down by one before the
     * fetch, so even a throw leaves it lowered; the fetch asks for the first page, and a
     * non-empty result goes to the product store. The fetch is not guarded, so a throw rejects
     * the call.
     */
    function PrevPage(catalog: Products.ProductState, server: Server): (n: Nav)
      ensures currentPage <= 1 ==> n == Nav(this, catalog, [], false)
      ensures currentPage > 1 ==>
        var request := PageRequest(productsPerPage, None);
        && n.requests == [request]
        && (n.rejected <==> server(request).Threw?)
        && n.pager == this.(currentPage := currentPage - 1)
        && n.catalog == if Delivered(server(request)) then catalog.SetProducts(server(request).items) else catalog
    {
      if currentPage > 1 then
        var request := PageRequest(productsPerPage, None);
        var o := server(request);
        var pager := this.(currentPage := currentPage - 1);
        if Delivered(o) then Nav(pager, catalog.SetProducts(o.items), [request], false)
        else Nav(pager, catalog, [request], o.Threw?)
      else Nav(this, catalog, [], false)
    }
  }

  /** The store before any action: page 1 of 0, 6 per page. */
  function InitialState(): PagerState {
    PagerState(1, 0, 6, 0)
  }

  /** The store's actions, for reasoning about any sequence of them. */
  datatype Action =
    | SetTotalProductsAction(count: int)
    | GoToPageAction(target: int, server: Server)
    | NextPageAction(nextServer: Server)
    | PrevPageAction(prevServer: Server)

  function Apply(s: PagerState, c: Products.ProductState, a: Action): Nav {
    match a
    case SetTotalProductsAction(count) => Nav(s.SetTotalProducts(count), c, [], false)
    case GoToPageAction(page, server) => s.GoToPage(c, page, server)
    case NextPageAction(server) => s.NextPage(c, server)
    case PrevPageAction(server) => s.PrevPage(c, server)
  }

  function Run(s: PagerState, c: Products.ProductState, actions: seq<Action>): Nav
    decreases |actions|
  {
    if actions == [] then Nav(s, c, [], false)
    else
      var n := Apply(s, c, actions[0]);
      var rest := Run(n.pager, n.catalog, actions[1..]);
      Nav(rest.pager, rest.catalog, n.requests + rest.requests, n.rejected || rest.rejected)
  }

  /**
   * From page 1 or above (the initial page is 1), every sequence of actions keeps the
   * current page at 1 or above, and never changes the page size.
   */
  lemma {:induction false} RunKeepsPageAboveZero(s: PagerState, c: Products.ProductState, actions: seq<Action>)
    requires s.currentPage >= 1
    ensures Run(s, c, actions).pager.currentPage >= 1
    ensures Run(s, c, actions).pager.productsPerPage == s.productsPerPage
    decreases |actions|
  {
    if actions != [] {
      var n := Apply(s, c, actions[0]);
      RunKeepsPageAboveZero(n.pager, n.catalog, actions[1..]);
    }
  }

  /**
   * A throwing fetch and an empty page leave both stores alike under `nextPage`, and under
   * `prevPage` too, but only the throw rejects the call; `goToPage` never rejects.
   */
  lemma ThrowRejectsNavigation(s: PagerState, c: Products.ProductState, page: int)
    requires 1 < s.currentPage < s.totalPages
    ensures var thrown := s.NextPage(c, _ => Threw);
            var empty := s.NextPage(c, _ => Page([], false, None));
            thrown.pager == empty.pager && thrown.catalog == empty.catalog && thrown.rejected && !empty.rejected
    ensures var thrown := s.PrevPage(c, _ => Threw);
            var empty := s.PrevPage(c, _ => Page([], false, None));
            thrown.pager == empty.pager && thrown.catalog == empty.catalog && thrown.rejected && !empty.rejected
    ensures !s.GoToPage(c, page, _ => Threw).rejected
  {
  }

  /** The store itself, updated in place, writing the product list through `catalog`. */
  class Pager {
    var currentPage: int
    var totalProducts: int
    var productsPerPage: PageSize
    var totalPages: int
    const catalog: Products.Store

    function View(): PagerState
      reads this
    {
      PagerState(currentPage, totalProducts, productsPerPage, totalPages)
    }

    constructor (catalog: Products.Store)
      ensures View() == InitialState() && this.catalog == catalog
    {
      currentPage := 1;
      totalProducts := 0;
      productsPerPage := 6;
      totalPages := 0;
      this.catalog := catalog;
    }

    method SetTotalProducts(count: int)
      modifies this
      ensures View() == old(View()).SetTotalProducts(count)
    {
      totalProducts := count;
      totalPages := TotalPages(count, productsPerPage);
    }

    method GoToPage(page: int, server: Server) returns (requests: seq<PageRequest>)
      modifies this, catalog
      ensures var n := old(View()).GoToPage(old(catalog.View()), page, server);
              View() == n.pager && catalog.View() == n.catalog && requests == n.requests
    {
      requests := [];
      if page < 1 || page > totalPages {
        return;
      }
      if page == currentPage {
        return;
      }
      var products := catalog.products;
      var afterCursor := if page > 1 && |products| > 0 then products[|products| - 1].cursor else None;
      var first := PageRequest(productsPerPage, afterCursor);
      requests := [first];
      var response := server(first);
      if response.Threw? {
        return;
      }
      if |response.items| > 0 {
        catalog.SetProducts(response.items);
        currentPage := page;
      } else {
        currentPage := 1;
        var fallback := PageRequest(productsPerPage, None);
        requests := requests + [fallback];
        var fallbackResponse := server(fallback);
        if fallbackResponse.Page? {
          catalog.SetProducts(fallbackResponse.items);
        }
      }
    }

    /** `nextPage()`; `rejected` says whether the returned promise rejects. */
    method NextPage(server: Server) returns (requests: seq<PageRequest>, rejected: bool)
      modifies this, catalog
      ensures var n := old(View()).NextPage(old(catalog.View()), server);
              View() == n.pager && catalog.View() == n.catalog && requests == n.requests
              && rejected == n.rejected
    {
      requests := [];
      rejected := false;
      if currentPage < totalPages {
        var products := catalog.products;
        var afterCursor := if |products| > 0 then products[|products| - 1].cursor else None;
        var request := PageRequest(productsPerPage, afterCursor);
        requests := [request];
        var response := server(request);
        if response.Threw? {
          rejected := true;
          return;
        }
        if |response.items| > 0 {
          catalog.AddProducts(response.items);
          currentPage := currentPage + 1;
        }
      }
    }

    /** `prevPage()`; `rejected` says whether the returned promise rejects. */
    method PrevPage(server: Server) returns (requests: seq<PageRequest>, rejected: bool)
      modifies this, catalog
      ensures var n := old(View()).PrevPage(old(catalog.View()), server);
              View() == n.pager && catalog.View() == n.catalog && requests == n.requests
              && rejected == n.rejected
    {
      requests := [];
      rejected := false;
      if currentPage > 1 {
        currentPage := currentPage - 1;
        var request := PageRequest(productsPerPage, None);
        requests := [request];
        var response := server(request);
        if response.Threw? {
          rejected := true;
          return;
        }
        if |response.items| > 0 {
          catalog.SetProducts(response.items);
        }
      }
    }
  }
}
