/**
 * The hydration effect of the product list component: it seeds the product store and the
 * cursor-and-page-cache pagination store from the server-rendered first page.
 */
module ProductList {
  import opened Wrappers
  import opened Catalog
  import Products = ProductStore
  import opened NumberedPagination2

  /** The server-rendered props the effect reads. */
  datatype Props = Props(initialProducts: seq<Product>, totalProducts: int, initialCursor: Option<string>)

  /** Both stores after the effect. */
  datatype Stores = Stores(catalog: Products.ProductState, pager: PagerState)

  /**
   * The effect body: hydrate the product store unless it already is (a `setProducts` followed
   * by a direct `hasHydrated` write), then, always, `setTotalProducts(totalProducts)`,
   * `setCursor(0, initialCursor)` and `setPageData(1, initialProducts)`.
   */
  function Hydrate(catalog: Products.ProductState, pager: PagerState, props: Props): (r: Stores)
    ensures !catalog.hasHydrated ==>
      r.catalog.products == props.initialProducts && r.catalog.hasHydrated && !r.catalog.isLoading
    ensures catalog.hasHydrated ==> r.catalog == catalog
    ensures r.pager.totalProducts == props.totalProducts
    ensures r.pager.totalPages == TotalPages(props.totalProducts, pager.productsPerPage)
    ensures r.pager.cursors == pager.cursors
    ensures r.pager.pageData == pager.pageData[1 := props.initialProducts]
    ensures r.pager.currentPage == pager.currentPage && r.pager.productsPerPage == pager.productsPerPage
    ensures r.pager.loading == pager.loading
  {
    var catalog' :=
      if !catalog.hasHydrated then catalog.SetProducts(props.initialProducts).(hasHydrated := true)
      else catalog;
    var pager' := pager.SetTotalProducts(props.totalProducts)
                       .SetCursor(0, props.initialCursor)
                       .SetPageData(1, props.initialProducts);
    Stores(catalog', pager')
  }

  /** Running the effect again with the same props changes nothing more. */
  lemma HydrateIsIdempotent(catalog: Products.ProductState, pager: PagerState, props: Props)
    ensures var once := Hydrate(catalog, pager, props);
            Hydrate(once.catalog, once.pager, props) == once
  {
    var once := Hydrate(catalog, pager, props);
    var twice := Hydrate(once.catalog, once.pager, props);
    assert twice.pager.pageData == once.pager.pageData;
  }

  /**
   * After the effect the latch is closed, so no navigation of the pagination store, and no
   * reset, can change the product list any more.
   */
  lemma NavigationAfterHydrationKeepsProducts(
    catalog: Products.ProductState, pager: PagerState, props: Props,
    page: int, server: Server, xs: seq<Product>, c: Option<string>)
    ensures var h := Hydrate(catalog, pager, props);
            && h.catalog.hasHydrated
            && h.pager.GoToPage(h.catalog, page, server).catalog == h.catalog
            && h.pager.NextPage(h.catalog, server).catalog == h.catalog
            && h.pager.PrevPage(h.catalog, server).catalog == h.catalog
            && h.pager.ResetPagination(h.catalog, xs, c).catalog == h.catalog
  {
  }

  /**
   * `setCursor(0, c)` writes index -1, so the initial cursor is lost: on fresh stores with at
   * least two pages, going to page 2 right after the effect fetches the first page again
   * (a null cursor) instead of the page after `initialCursor`.
   */
  lemma InitialCursorIsLost(props: Props, server: Server)
    requires props.totalProducts > 12
    ensures var h := Hydrate(Products.InitialState(), NumberedPagination2.InitialState(), props);
            && h.pager.cursors == [None]
            && h.pager.GoToPage(h.catalog, 2, server).request == Some(PageRequest(12, None))
  {
    var h := Hydrate(Products.InitialState(), NumberedPagination2.InitialState(), props);
    assert h.pager.totalPages >= 2;
  }

  /** The effect in place, over the two shared stores. */
  method HydrationEffect(catalog: Products.Store, pager: Pager, props: Props)
    modifies catalog, pager
    ensures var r := Hydrate(old(catalog.View()), old(pager.View()), props);
            catalog.View() == r.catalog && pager.View() == r.pager
  {
    if !catalog.hasHydrated {
      catalog.SetProducts(props.initialProducts);
      catalog.hasHydrated := true;
    }
    pager.SetTotalProducts(props.totalProducts);
    pager.SetCursor(0, props.initialCursor);
    pager.SetPageData(1, props.initialProducts);
  }
}
