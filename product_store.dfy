/**
 * The product list store: a list of products guarded by a hydration latch. Once
 * `hasHydrated` is set, `setProducts` leaves the store as it is; `addProducts` is not guarded.
 */
module ProductStore {
  import opened Catalog

  datatype ProductState = ProductState(products: seq<Product>, isLoading: bool, hasHydrated: bool)
  {
    /** `setProducts(xs)`: ignored once hydrated, otherwise replaces the list and ends loading. */
    function SetProducts(xs: seq<Product>): (t: ProductState)
      ensures hasHydrated ==> t == this
      ensures !hasHydrated ==> t.products == xs && !t.isLoading && !t.hasHydrated
    {
      if hasHydrated then this else this.(products := xs, isLoading := false)
    }

    /** `addProducts(xs)`: appends, keeping the old list as a prefix. */
    function AddProducts(xs: seq<Product>): (t: ProductState)
      ensures |t.products| == |products| + |xs|
      ensures t.products[..|products|] == products && t.products[|products|..] == xs
      ensures t.isLoading == isLoading && t.hasHydrated == hasHydrated
    {
      this.(products := products + xs)
    }

    /** `markHydrated()`: closes the latch and ends loading; the list is untouched. */
    function MarkHydrated(): (t: ProductState)
      ensures t.hasHydrated && !t.isLoading && t.products == products
    {
      this.(hasHydrated := true, isLoading := false)
    }
  }

  /** The store's state before any action: empty, loading, not hydrated. */
  function InitialState(): ProductState {
    ProductState([], true, false)
  }

  /** The store's actions, for reasoning about any sequence of them. */
  datatype Action =
    | SetProductsAction(xs: seq<Product>)
    | AddProductsAction(xs: seq<Product>)
    | MarkHydratedAction

  function Apply(s: ProductState, a: Action): ProductState {
    match a
    case SetProductsAction(xs) => s.SetProducts(xs)
    case AddProductsAction(xs) => s.AddProducts(xs)
    case MarkHydratedAction => s.MarkHydrated()
  }

  function Run(s: ProductState, actions: seq<Action>): ProductState
    decreases |actions|
  {
    if actions == [] then s else Run(Apply(s, actions[0]), actions[1..])
  }

  /** Everything the `addProducts` actions of a sequence append, in order. */
  function Appended(actions: seq<Action>): seq<Product>
    decreases |actions|
  {
    if actions == [] then []
    else (if actions[0].AddProductsAction? then actions[0].xs else []) + Appended(actions[1..])
  }

  /**
   * Nothing resets the latch: from a hydrated state, any sequence of actions keeps the store
   * hydrated, and the list only grows by what `addProducts` appends; every `setProducts` is
   * a no-op.
   */
  lemma {:induction false} LatchHolds(s: ProductState, actions: seq<Action>)
    requires s.hasHydrated
    ensures Run(s, actions).hasHydrated
    ensures Run(s, actions).products == s.products + Appended(actions)
    decreases |actions|
  {
    if actions != [] {
      var s' := Apply(s, actions[0]);
      LatchHolds(s', actions[1..]);
      assert s'.products == s.products + (if actions[0].AddProductsAction? then actions[0].xs else []);
    }
  }

  /** The store itself: `products`, `isLoading` and `hasHydrated`, updated in place. */
  class Store {
    var products: seq<Product>
    var isLoading: bool
    var hasHydrated: bool

    function View(): ProductState
      reads this
    {
      ProductState(products, isLoading, hasHydrated)
    }

    constructor ()
      ensures View() == InitialState()
    {
      products := [];
      isLoading := true;
      hasHydrated := false;
    }

    method SetProducts(xs: seq<Product>)
      modifies this
      ensures View() == old(View()).SetProducts(xs)
    {
      if !hasHydrated {
        products := xs;
        isLoading := false;
      }
    }

    method AddProducts(xs: seq<Product>)
      modifies this
      ensures View() == old(View()).AddProducts(xs)
    {
      products := products + xs;
    }

    method MarkHydrated()
      modifies this
      ensures View() == old(View()).MarkHydrated()
    {
      hasHydrated := true;
      isLoading := false;
    }
  }
}
