/**
 * The cursor-and-page-cache pagination store. It keeps the current page, the page count
 * derived from the product total, a list of cursors indexed by `page - 1`, and the items
 * fetched for each page. Navigation writes the product list through the product store, and
 * so through its hydration latch.
 */
module NumberedPagination2 {
  import opened Wrappers
  import opened Catalog
  import Products = ProductStore

  /**
   * `copy[k] = c` on a copy of a JavaScript array: a negative index is a property, not an
   * element, so the elements stay as they are; an index past the end grows the array, and the
   * slots in between are holes, which read as `undefined` (None).
   */
  function WriteSlot(xs: seq<Option<string>>, k: int, c: Option<string>): (r: seq<Option<string>>)
    ensures k < 0 ==> r == xs
    ensures 0 <= k ==> |r| == (if k < |xs| then |xs| else k + 1) && r[k] == c
    ensures forall i :: 0 <= i < |xs| && i != k ==> r[i] == xs[i]
    ensures forall i :: |xs| <= i < |r| && i != k ==> r[i] == None
  {
    if k < 0 then xs
    else if k < |xs| then xs[k := c]
    else xs + seq(k - |xs|, _ => None) + [c]
  }

  /** `cursors[page - 1] || null`: a missing, null or empty cursor reads as null. */
  function CursorBefore(cursors: seq<Option<string>>, page: int): (r: Option<string>)
    ensures r.Some? <==> 0 <= page - 1 < |cursors| && cursors[page - 1].Some? && cursors[page - 1].value != ""
    ensures r.Some? ==> r == cursors[page - 1]
  {
    if 0 <= page - 1 < |cursors| && cursors[page - 1].Some? && cursors[page - 1].value != ""
    then cursors[page - 1]
    else None
  }

  /** The fields the store persists (`partialize`): not the cursors, not `loading`. */
  datatype Persisted = Persisted(
    currentPage: int,
    totalProducts: int,
    productsPerPage: PageSize,
    totalPages: int,
    pageData: map<int, seq<Product>>)

  /** A navigation's effect on both stores, and the fetch it issued, if any. */
  datatype Nav = Nav(pager: PagerState, catalog: Products.ProductState, request: Option<PageRequest>)

  datatype PagerState = PagerState(
    currentPage: int,
    totalProducts: int,
    productsPerPage: PageSize,
    totalPages: int,
    cursors: seq<Option<string>>,
    pageData: map<int, seq<Product>>,
    loading: bool)
  {
    /** What survives a page reload: every field but `cursors` and `loading`. */
    function Persist(): Persisted {
      Persisted(currentPage, totalProducts, productsPerPage, totalPages, pageData)
    }

    /** The invariant every action keeps. */
    ghost predicate Valid() {
      && currentPage >= 1
      && |cursors| >= 1
      && (currentPage == 1 || currentPage in pageData)
    }

    /** `setTotalProducts(count)`: the total and `ceil(count / productsPerPage)` pages. */
    function SetTotalProducts(count: int): (t: PagerState)
      ensures t.totalProducts == count
      ensures t.productsPerPage * (t.totalPages - 1) < count <= t.productsPerPage * t.totalPages
      ensures t == this.(totalProducts := t.totalProducts, totalPages := t.totalPages)
    {
      this.(totalProducts := count, totalPages := TotalPages(count, productsPerPage))
    }

    /** `setPageData(page, items)`: caches one page; every other entry is kept. */
    function SetPageData(page: int, items: seq<Product>): (t: PagerState)
      ensures t.pageData.Keys == pageData.Keys + {page} && t.pageData[page] == items
      ensures forall p :: p in pageData && p != page ==> t.pageData[p] == pageData[p]
      ensures t == this.(pageData := t.pageData)
    {
      this.(pageData := pageData[page := items])
    }

    /** `setCursor(page, c)`: writes index `page - 1` of a copy of the cursor list. */
    function SetCursor(page: int, cursor: Option<string>): (t: PagerState)
      ensures t.cursors == WriteSlot(cursors, page - 1, cursor)
      ensures page < 1 ==> t == this
      ensures t == this.(cursors := t.cursors)
    {
      this.(cursors := WriteSlot(cursors, page - 1, cursor))
    }

    /**
     * `resetPagination(xs, c)`: hands `xs` to the product store and restarts at page 1 with
     * the single cursor `c` and `xs` as the only cached page.
     */
    function ResetPagination(catalog: Products.ProductState, xs: seq<Product>, c: Option<string>): (n: Nav)
      ensures n.catalog == catalog.SetProducts(xs) && n.request == None
      ensures n.pager.currentPage == 1 && n.pager.cursors == [c]
      ensures n.pager.pageData.Keys == {1} && n.pager.pageData[1] == xs
      ensures n.pager == this.(currentPage := 1, cursors := [c], pageData := n.pager.pageData)
    {
      Nav(this.(currentPage := 1, cursors := [c], pageData := map[1 := xs]), catalog.SetProducts(xs), None)
    }

    /** The request `goToPage(page)` issues. */
    function RequestFor(page: int): PageRequest {
      PageRequest(productsPerPage, CursorBefore(cursors, page))
    }

    /**
     * `goToPage(page)`: out of `[1, totalPages]` nothing happens. Otherwise one fetch after
     * `cursors[page - 1] || null`; a non-empty result goes to the product store, becomes the
     * current page and its cache entry, and its end cursor is appended to `cursors`, whatever
     * the page. An empty result or a throw leaves everything but `loading`, which ends false.
     */
    function GoToPage(catalog: Products.ProductState, page: int, server: Server): (n: Nav)
      ensures page < 1 || page > totalPages ==> n == Nav(this, catalog, None)
      ensures 1 <= page <= totalPages ==> n.request == Some(RequestFor(page)) && !n.pager.loading
      ensures 1 <= page <= totalPages && Delivered(server(RequestFor(page))) ==>
        var o := server(RequestFor(page));
        && n.catalog == catalog.SetProducts(o.items)
        && n.pager.currentPage == page
        && n.pager.pageData == pageData[page := o.items]
        && n.pager.cursors == cursors + [o.endCursor]
      ensures 1 <= page <= totalPages && !Delivered(server(RequestFor(page))) ==>
        n.catalog == catalog && n.pager == this.(loading := false)
      ensures n.pager == this.(currentPage := n.pager.currentPage, cursors := n.pager.cursors,
                               pageData := n.pager.pageData, loading := n.pager.loading)
    {
      if page < 1 || page > totalPages then Nav(this, catalog, None)
      else
        var request := RequestFor(page);
        var o := server(request);
        if Delivered(o) then
          Nav(this.(currentPage := page, pageData := pageData[page := o.items],
                    cursors := cursors + [o.endCursor], loading := false),
              catalog.SetProducts(o.items), Some(request))
        else
          Nav(this.(loading := false), catalog, Some(request))
    }

    /** `nextPage()`: `goToPage(currentPage + 1)`, only while `currentPage < totalPages`. */
    function NextPage(catalog: Products.ProductState, server: Server): (n: Nav)
      ensures currentPage < totalPages ==> n == GoToPage(catalog, currentPage + 1, server)
      ensures currentPage >= totalPages ==> n == Nav(this, catalog, None)
      ensures n.pager.currentPage ==
        if 0 <= currentPage < totalPages && Delivered(server(RequestFor(currentPage + 1)))
        then currentPage + 1 else currentPage
    {
      if currentPage < totalPages then GoToPage(catalog, currentPage + 1, server)
      else Nav(this, catalog, None)
    }

    /**
     * `prevPage()`: `goToPage(currentPage - 1)`, only while `currentPage > 1`; that call
     * itself does nothing when the page is above `totalPages`.
     */
    function PrevPage(catalog: Products.ProductState, server: Server): (n: Nav)
      ensures currentPage > 1 ==> n == GoToPage(catalog, currentPage - 1, server)
      ensures currentPage <= 1 ==> n == Nav(this, catalog, None)
      ensures n.pager.currentPage ==
        if 1 < currentPage <= totalPages + 1 && Delivered(server(RequestFor(currentPage - 1)))
        then currentPage - 1 else currentPage
    {
      if currentPage > 1 then GoToPage(catalog, currentPage - 1, server)
      else Nav(this, catalog, None)
    }
  }

  /** The store before any action: page 1 of 0, 12 per page, one null cursor, no cache. */
  function InitialState(): PagerState {
    PagerState(1, 0, 12, 0, [None], map[], false)
  }

  /** The store's actions, for reasoning about any sequence of them. */
  datatype Action =
    | SetTotalProductsAction(count: int)
    | SetPageDataAction(page: int, items: seq<Product>)
    | SetCursorAction(cursorPage: int, cursor: Option<string>)
    | ResetAction(initialItems: seq<Product>, initialCursor: Option<string>)
    | GoToPageAction(target: int, server: Server)
    | NextPageAction(nextServer: Server)
    | PrevPageAction(prevServer: Server)

  function Apply(s: PagerState, c: Products.ProductState, a: Action): (n: Nav) {
    match a
    case SetTotalProductsAction(count) => Nav(s.SetTotalProducts(count), c, None)
    case SetPageDataAction(page, items) => Nav(s.SetPageData(page, items), c, None)
    case SetCursorAction(page, cursor) => Nav(s.SetCursor(page, cursor), c, None)
    case ResetAction(xs, cursor) => s.ResetPagination(c, xs, cursor)
    case GoToPageAction(page, server) => s.GoToPage(c, page, server)
    case NextPageAction(server) => s.NextPage(c, server)
    case PrevPageAction(server) => s.PrevPage(c, server)
  }

  function Run(s: PagerState, c: Products.ProductState, actions: seq<Action>): (n: Nav)
    decreases |actions|
  {
    if actions == [] then Nav(s, c, None)
    else
      var n := Apply(s, c, actions[0]);
      Run(n.pager, n.catalog, actions[1..])
  }

  /** Each single action keeps the invariant. */
  lemma ApplyKeepsValid(s: PagerState, c: Products.ProductState, a: Action)
    requires s.Valid()
    ensures Apply(s, c, a).pager.Valid()
  {
    match a
    case SetCursorAction(page, cursor) =>
      assert |WriteSlot(s.cursors, page - 1, cursor)| >= |s.cursors|;
    case _ =>
  }

  /**
   * From any valid state (the initial one is), every sequence of actions keeps the current
   * page at least 1, at least one cursor, and a cache entry for every current page but 1.
   */
  lemma {:induction false} RunKeepsValid(s: PagerState, c: Products.ProductState, actions: seq<Action>)
    requires s.Valid()
    ensures Run(s, c, actions).pager.Valid()
    decreases |actions|
  {
    if actions != [] {
      ApplyKeepsValid(s, c, actions[0]);
      var n := Apply(s, c, actions[0]);
      RunKeepsValid(n.pager, n.catalog, actions[1..]);
    }
  }

  /** Cursor writes never reach the persisted snapshot. */
  lemma CursorsAreNotPersisted(s: PagerState, page: int, cursor: Option<string>)
    ensures s.SetCursor(page, cursor).Persist() == s.Persist()
  {
  }

  /**
   * The cursor list is not a chain: with 25 products, page 3 can be reached straight from
   * the initial state. Its cursor slot is missing, so the fetch asks for the first page, and
   * whatever that returns is cached as page 3.
   */
  lemma JumpAheadUsesFirstPage(server: Server)
    requires Delivered(server(PageRequest(12, None)))
    ensures var s := InitialState().SetTotalProducts(25);
            var n := s.GoToPage(Products.InitialState(), 3, server);
            && s.totalPages == 3
            && n.request == Some(PageRequest(12, None))
            && n.pager.currentPage == 3
            && n.pager.pageData[3] == server(PageRequest(12, None)).items
  {
    var s := InitialState().SetTotalProducts(25);
    assert s.totalPages == 3;
  }

  /** With 25 products and 12 per page there are 3 pages, and page 4 is refused. */
  lemma PageFourOfThreeIsRefused(catalog: Products.ProductState, server: Server)
    ensures var s := InitialState().SetTotalProducts(25);
            s.totalPages == 3 && s.GoToPage(catalog, 4, server) == Nav(s, catalog, None)
  {
    var s := InitialState().SetTotalProducts(25);
    assert s.totalPages == 3;
  }

  /**
   * The store itself, updated in place. It writes the product list through `catalog`, the
   * product store it shares with the rest of the shop.
   */
  class Pager {
    var currentPage: int
    var totalProducts: int
    var productsPerPage: PageSize
    var totalPages: int
    var cursors: seq<Option<string>>
    var pageData: map<int, seq<Product>>
    var loading: bool
    const catalog: Products.Store

    function View(): PagerState
      reads this
    {
      PagerState(currentPage, totalProducts, productsPerPage, totalPages, cursors, pageData, loading)
    }

    constructor (catalog: Products.Store)
      ensures View() == InitialState() && this.catalog == catalog
    {
      currentPage := 1;
      totalProducts := 0;
      productsPerPage := 12;
      totalPages := 0;
      cursors := [None];
      pageData := map[];
      loading := false;
      this.catalog := catalog;
    }

    method SetTotalProducts(count: int)
      modifies this
      ensures View() == old(View()).SetTotalProducts(count)
    {
      totalProducts := count;
      totalPages := TotalPages(count, productsPerPage);
    }

    method SetPageData(page: int, items: seq<Product>)
      modifies this
      ensures View() == old(View()).SetPageData(page, items)
    {
      pageData := pageData[page := items];
    }

    method SetCursor(page: int, cursor: Option<string>)
      modifies this
      ensures View() == old(View()).SetCursor(page, cursor)
      ensures View().Persist() == old(View().Persist())
    {
      var updated := cursors;
      var k := page - 1;
      if 0 <= k < |updated| {
        updated := updated[k := cursor];
      } else if k >= |updated| {
        updated := updated + seq(k - |updated|, _ => None) + [cursor];
      }
      cursors := updated;
    }

    method ResetPagination(xs: seq<Product>, c: Option<string>)
      modifies this, catalog
      ensures var n := old(View()).ResetPagination(old(catalog.View()), xs, c);
              View() == n.pager && catalog.View() == n.catalog
    {
      catalog.SetProducts(xs);
      currentPage := 1;
      cursors := [c];
      pageData := map[1 := xs];
    }

    method GoToPage(page: int, server: Server) returns (request: Option<PageRequest>)
      modifies this, catalog
      ensures var n := old(View()).GoToPage(old(catalog.View()), page, server);
              View() == n.pager && catalog.View() == n.catalog && request == n.request
    {
      if page < 1 || page > totalPages {
        return None;
      }
      loading := true;
      var cursor := CursorBefore(cursors, page);
      request := Some(PageRequest(productsPerPage, cursor));
      var response := server(request.value);
      if response.Page? && |response.items| > 0 {
        catalog.SetProducts(response.items);
        currentPage := page;
        pageData := pageData[page := response.items];
        cursors := cursors + [response.endCursor];
      }
      loading := false;
    }

    method NextPage(server: Server) returns (request: Option<PageRequest>)
      modifies this, catalog
      ensures var n := old(View()).NextPage(old(catalog.View()), server);
              View() == n.pager && catalog.View() == n.catalog && request == n.request
    {
      request := None;
      if currentPage < totalPages {
        request := GoToPage(currentPage + 1, server);
      }
    }

    method PrevPage(server: Server) returns (request: Option<PageRequest>)
      modifies this, catalog
      ensures var n := old(View()).PrevPage(old(catalog.View()), server);
              View() == n.pager && catalog.View() == n.catalog && request == n.request
    {
      request := None;
      if currentPage > 1 {
        request := GoToPage(currentPage - 1, server);
      }
    }
  }
}
