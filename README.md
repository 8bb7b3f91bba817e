# Shop client state, modelled in Dafny

This project models the client-side state layer of a Next.js shop front: the stores that hold the
cart, the product list and the numbered product pagination, the effect that seeds them from
server-rendered props, and the decoding of the catalog service's GraphQL responses.

- **Cart store** (`cart.dfy`, module `Cart`). The cart is an ordered ledger of `{id, quantity}`
  lines. It supports increase, decrease, remove, clear, replace and a quantity read. Each line
  can be joined to a product, taken from a per-id cache or else looked up, and the lookups then
  fill the cache. `price × quantity` is summed into a subtotal. The list transforms are
  functions with lemmas about them. The store is a class whose `FetchCartDetails` loop is proved
  against the join, cache and subtotal functions.
- **Product store** (`product_store.dfy`, module `ProductStore`). A product list behind a
  hydration latch: once `hasHydrated` is set, `setProducts` does nothing. Both pagination
  stores write the product list through this store.
- **Cursor-and-page-cache pager** (`numbered_pagination_2.dfy`, module `NumberedPagination2`).
  It keeps the current page, `totalPages = ceil(total / 12)`, a cursor list indexed by
  `page - 1` and a page cache. It also models the `partialize` projection.
- **Trailing-cursor pager** (`numbered_pagination.dfy`, module `NumberedPagination`). With 6
  products per page, `goToPage` to a page above 1 and `nextPage` fetch after the `cursor` of
  the last product held; `prevPage`, `goToPage(1)` and the empty-page fallback fetch from the
  start. An empty page falls back to page 1, and `nextPage` appends to the product list.
- **Hydration effect** (`product_list.dfy`, module `ProductList`). One transition over the
  product store and the cursor-and-page-cache pager.
- **Response decoders** (`responses.dfy`, `product_services_1.dfy`, `product_services.dfy`).
  These work on a JavaScript value type (`js.dfy`, module `Js`) that models truthiness, `?.`,
  `||`, `v[i]` and object spread.

Each store appears twice. Its updates are first written as functions on values, with contracts
and lemmas: member functions of a state datatype for the product store and the pagers, and
module functions over the list of `CartItem` lines for the cart. A class with the store's
fields then holds the methods, each tied to the function it performs in place. A fetch is an
oracle: `Server` maps a page request to an outcome, and `ProductLookup`
maps a product id to a product, a null or a throw. Every navigation returns the requests it
issued, so "no fetch" can be stated and proved. Prices are integer cents.

Behaviours of the code a reader may not expect:
- `setTotalProducts` does not clamp `currentPage` to the new page count.
- The subtotal and the cart details are stored fields that only `fetchCartDetails` refreshes.
  Of the actions on the lines, only increase, decrease and remove call it; `clearCart` and
  `setCartItems` leave the details and the subtotal as they were.
- A lookup that throws rejects the whole refresh. The details and the subtotal stay as they
  were and `isLoading` stays true. A null product makes reading its price throw, with
  the same effect.
- Nothing stops two refreshes or two navigations from running at once, and a stale response is
  not told apart from a fresh one.

Behaviours of the code that the lemmas make explicit:
- Once the product store is hydrated, no navigation of the cursor-and-page-cache pager can
  change the product list. The trailing-cursor pager's `nextPage` still can: it appends
  through `addProducts`, which has no latch.
- `setCursor(0, c)` from the hydration effect writes index -1, so the initial cursor is lost.
- The cursor list is not a chain: a jump to page 3 fetches with a null cursor and caches the
  first page as page 3.
- The trailing-cursor pager's `prevPage` lowers the page even when its fetch throws. Its
  `nextPage` and `prevPage` await the fetch outside any `try`, so a throw rejects the call;
  only `goToPage` catches.

## Model

| member | source | states |
|---|---|---|
| `Js.Or` | src/services/productServices-1.ts:57 | JavaScript's `a or b` operator yields `a` when `a` is truthy and exactly `b` when `a` is falsy; the result is truthy iff either operand is |
| `Js.Get` | src/services/productServices-1.ts:57 | defines `v?.key`: the object's own field when present, and `undefined` in every other case |
| `Js.Member` | src/services/productServices-1.ts:158 | defines `v.key`: it throws exactly on `null` and `undefined`, and otherwise reads like `v?.key` |
| `Js.At` | src/services/productServices-1.ts:159 | `v[i]` is `undefined` on anything but an array, a string or an object, and an array's element `i` when it has one |
| `Js.Spread` | src/services/productServices-1.ts:60 | `{ ...v }` copies an object's own fields, and nothing from `null`, `undefined`, booleans or numbers |
| `Js.AtMatchesSpread` | src/services/productServices-1.ts:58-61 | on an array, a string or an object, `v[i]` is the property named by the decimal spelling of `i`, the same one `{ ...v }` copies |
| `Catalog.TotalPages` | src/store/useNumberedPaginationStore-2.ts:59 | `Math.ceil(count / perPage)`: the least `r` with `count <= perPage * r`, so `perPage * (r - 1) < count` |
| `ProductStore.ProductState.SetProducts` | src/store/useProductStore-2.ts:41-46 | once hydrated, the whole state is unchanged; otherwise the list becomes `xs`, loading ends and the latch stays open |
| `ProductStore.ProductState.AddProducts` | src/store/useProductStore-2.ts:49-52 | the length grows by the length of `xs`, the old list is the prefix and `xs` the suffix, and both flags are kept |
| `ProductStore.ProductState.MarkHydrated` | src/store/useProductStore-2.ts:55 | the latch closes and loading ends, with the list untouched |
| `ProductStore.LatchHolds` | src/store/useProductStore-2.ts:41-55 | from a hydrated state every action sequence stays hydrated, and the list only gains what `addProducts` appends, so every `setProducts` is a no-op |
| `ProductStore.Store.constructor` | src/store/useProductStore-2.ts:34-36 | the store starts empty, loading and not hydrated |
| `ProductStore.Store.SetProducts` | src/store/useProductStore-2.ts:41-46 | the in-place update equals the `SetProducts` reducer |
| `ProductStore.Store.AddProducts` | src/store/useProductStore-2.ts:49-52 | the in-place update equals the `AddProducts` reducer |
| `ProductStore.Store.MarkHydrated` | src/store/useProductStore-2.ts:55 | the in-place update equals the `MarkHydrated` reducer |
| `NumberedPagination2.WriteSlot` | src/store/useNumberedPaginationStore-2.ts:50-51 | writing index `k` of an array copy: a negative `k` leaves every element; otherwise slot `k` becomes `c`, every other element is kept, and the array grows with holes when `k` is past the end |
| `NumberedPagination2.CursorBefore` | src/store/useNumberedPaginationStore-2.ts:81 | defines `cursors[page - 1] or null`: that slot exactly when it exists and holds a non-empty cursor, and null otherwise |
| `NumberedPagination2.PagerState.Persist` | src/store/useNumberedPaginationStore-2.ts:121-127 | defines the `partialize` projection: every field but `cursors` and `loading` |
| `NumberedPagination2.PagerState.SetTotalProducts` | src/store/useNumberedPaginationStore-2.ts:56-60 | the total is set and the page count is its ceiling over the page size; no other field changes |
| `NumberedPagination2.PagerState.SetPageData` | src/store/useNumberedPaginationStore-2.ts:43-46 | one page entry is set, every other entry is kept, and no other field changes |
| `NumberedPagination2.PagerState.SetCursor` | src/store/useNumberedPaginationStore-2.ts:48-54 | the cursor list becomes `WriteSlot(cursors, page - 1, c)`; a page below 1 changes nothing |
| `NumberedPagination2.PagerState.ResetPagination` | src/store/useNumberedPaginationStore-2.ts:62-70 | the product store gets `setProducts(xs)`, the page is 1, the cursors are `[c]` and the cache holds exactly `{1: xs}`; no fetch |
| `NumberedPagination2.PagerState.GoToPage` | src/store/useNumberedPaginationStore-2.ts:72-102 | out of `[1, totalPages]`: nothing happens and nothing is fetched. Otherwise one fetch after `CursorBefore`. A non-empty page sets the products, the current page and its cache entry, and appends its end cursor. An empty page or a throw changes only `loading`, which ends false |
| `NumberedPagination2.PagerState.NextPage` | src/store/useNumberedPaginationStore-2.ts:104-109 | it is `goToPage(currentPage + 1)` below the last page and a no-op otherwise; the page goes up by one exactly when that fetch delivers |
| `NumberedPagination2.PagerState.PrevPage` | src/store/useNumberedPaginationStore-2.ts:111-116 | it is `goToPage(currentPage - 1)` above page 1 and a no-op otherwise; the page goes down by one exactly when that page is in range and its fetch delivers |
| `NumberedPagination2.ApplyKeepsValid` | src/store/useNumberedPaginationStore-2.ts:43-116 | every single action keeps the invariant: page at least 1, at least one cursor, a cache entry for every current page but 1 |
| `NumberedPagination2.RunKeepsValid` | src/store/useNumberedPaginationStore-2.ts:33-116 | from a valid state (the initial one is), every action sequence keeps that invariant |
| `NumberedPagination2.CursorsAreNotPersisted` | src/store/useNumberedPaginationStore-2.ts:121-127 | a cursor write never changes what `partialize` persists |
| `NumberedPagination2.JumpAheadUsesFirstPage` | src/store/useNumberedPaginationStore-2.ts:76-95 | with 25 products, page 3 is reachable from the initial state; the fetch goes out with a null cursor and its first-page items are cached as page 3 |
| `NumberedPagination2.PageFourOfThreeIsRefused` | src/store/useNumberedPaginationStore-2.ts:76 | 25 products at 12 per page give 3 pages, and `goToPage(4)` changes nothing and fetches nothing |
| `NumberedPagination2.Pager.constructor` | src/store/useNumberedPaginationStore-2.ts:33-39 | page 1 of 0 at 12 per page, one null cursor, no cache, not loading, over the shared product store |
| `NumberedPagination2.Pager.SetTotalProducts` | src/store/useNumberedPaginationStore-2.ts:56-60 | the in-place update equals the reducer |
| `NumberedPagination2.Pager.SetPageData` | src/store/useNumberedPaginationStore-2.ts:43-46 | the in-place update equals the reducer |
| `NumberedPagination2.Pager.SetCursor` | src/store/useNumberedPaginationStore-2.ts:48-54 | the in-place update equals the reducer and leaves the persisted snapshot unchanged |
| `NumberedPagination2.Pager.ResetPagination` | src/store/useNumberedPaginationStore-2.ts:62-70 | both stores end as the reducer says |
| `NumberedPagination2.Pager.GoToPage` | src/store/useNumberedPaginationStore-2.ts:72-102 | both stores and the issued request are exactly the reducer's |
| `NumberedPagination2.Pager.NextPage` | src/store/useNumberedPaginationStore-2.ts:104-109 | both stores and the issued request are exactly the reducer's |
| `NumberedPagination2.Pager.PrevPage` | src/store/useNumberedPaginationStore-2.ts:111-116 | both stores and the issued request are exactly the reducer's |
| `NumberedPagination.LastCursor` | src/store/useNumberedPaginationStore.ts:96-99 | defines the cursor after the last product held: its `cursor`, or null for an empty list |
| `NumberedPagination.AfterCursor` | src/store/useNumberedPaginationStore.ts:54-57 | null for page 1 or below, otherwise the last product's cursor |
| `NumberedPagination.PagerState.SetTotalProducts` | src/store/useNumberedPaginationStore.ts:28-32 | the total is set and the page count is its ceiling over the page size; the page and the page size are kept |
| `NumberedPagination.PagerState.GoToPage` | src/store/useNumberedPaginationStore.ts:35-88 | out of `[1, totalPages]` or on the current page: no change and no fetch. Otherwise it fetches after `AfterCursor`. The call never rejects, since its `catch` only logs. A throw changes nothing. A non-empty page replaces the products and becomes current. An empty page resets to page 1 and refetches from null, and that result replaces the products unless it throws |
| `NumberedPagination.PagerState.NextPage` | src/store/useNumberedPaginationStore.ts:91-113 | only below the last page, one fetch after the last product's cursor; a non-empty page is appended and the page goes up by one; otherwise nothing changes. The call rejects exactly when that fetch throws |
| `NumberedPagination.PagerState.PrevPage` | src/store/useNumberedPaginationStore.ts:116-136 | only above page 1: the page drops by one whatever the fetch does, one null-cursor fetch is issued, and a non-empty result replaces the products. The call rejects exactly when that fetch throws |
| `NumberedPagination.ThrowRejectsNavigation` | src/store/useNumberedPaginationStore.ts:64-87 | a throwing fetch and an empty page leave both stores alike under `nextPage` and `prevPage`, but only the throw rejects the call; `goToPage` never rejects |
| `NumberedPagination.RunKeepsPageAboveZero` | src/store/useNumberedPaginationStore.ts:22-136 | from page 1 or above, every action sequence keeps the page at 1 or above and never changes the page size |
| `NumberedPagination.Pager.constructor` | src/store/useNumberedPaginationStore.ts:22-25 | page 1 of 0 at 6 per page, over the shared product store |
| `NumberedPagination.Pager.SetTotalProducts` | src/store/useNumberedPaginationStore.ts:28-32 | the in-place update equals the reducer |
| `NumberedPagination.Pager.GoToPage` | src/store/useNumberedPaginationStore.ts:35-88 | both stores and the issued requests are exactly the reducer's |
| `NumberedPagination.Pager.NextPage` | src/store/useNumberedPaginationStore.ts:91-113 | both stores, the issued requests and whether the call rejects are exactly the reducer's |
| `NumberedPagination.Pager.PrevPage` | src/store/useNumberedPaginationStore.ts:116-136 | both stores, the issued requests and whether the call rejects are exactly the reducer's |
| `ProductList.Hydrate` | src/components/shop/ProductList-1.tsx:24-36 | an unhydrated store gets the initial products and is hydrated; a hydrated one is unchanged. The totals are always recomputed from the prop, the cursor elements are unchanged, page 1 is cached and every other page entry is kept |
| `ProductList.HydrateIsIdempotent` | src/components/shop/ProductList-1.tsx:24-36 | running the effect a second time with the same props changes nothing |
| `ProductList.NavigationAfterHydrationKeepsProducts` | src/components/shop/ProductList-1.tsx:27-31 | after the effect, no `goToPage`, `nextPage`, `prevPage` or `resetPagination` changes the product store |
| `ProductList.InitialCursorIsLost` | src/components/shop/ProductList-1.tsx:35 | on fresh stores the cursor list stays `[null]`, so the next `goToPage(2)` fetches the first page again |
| `ProductList.HydrationEffect` | src/components/shop/ProductList-1.tsx:24-36 | the setter calls in place leave both stores as `Hydrate` says |
| `Responses.HasNextPage` | src/services/productServices-1.ts:65 | `hasNextPage` is the raw value when truthy and `false` otherwise |
| `Responses.EndCursor` | src/services/productServices-1.ts:66 | `endCursor` is the raw value or null. An absent or empty cursor becomes null, a non-empty string passes through, and the result is never `""` or `undefined` |
| `ProductServices1.EdgeItem` | src/services/productServices-1.ts:58-61 | an item is an object with the node's fields plus `cursor`; a node field named `cursor` overrides the edge's |
| `ProductServices1.MapEdges` | src/services/productServices-1.ts:58-61 | it succeeds iff no edge is nullish, and then gives one item per edge, in edge order |
| `ProductServices1.FetchAllProducts` | src/services/productServices-1.ts:51-67 | a non-OK response throws its status and a non-JSON body throws. Absent or falsy edges give no items. A truthy non-array `edges` or a nullish edge throws a TypeError. Otherwise one `EdgeItem` per edge, with the `pageInfo` defaults |
| `ProductServices1.FetchTotalProductCount` | src/services/productServices-1.ts:103-116 | it succeeds iff the response is OK, the body is JSON and `data.totalProducts` is a number, and then returns that number; otherwise it throws |
| `ProductServices1.FetchProductById` | src/services/productServices-1.ts:150-162 | a non-OK response or a non-JSON body throws. A nullish result throws a TypeError. Truthy `errors` throws with the message of the first entry, or a TypeError when there is none. Otherwise the product, or null when absent or falsy |
| `ProductServices.FetchAllProducts` | src/services/productServices.ts:32-42 | it throws exactly on a non-OK response or a non-JSON body. The items are `data.products.nodes` when truthy, unchecked, and `[]` otherwise, with the `pageInfo` defaults |
| `Cart.FirstIndex` | src/store/useCartStore.ts:110 | `find` locates the first line with the id, and finds nothing exactly when no line has it |
| `Cart.QuantityOf` | src/store/useCartStore.ts:109-110 | defines `getItemQuantity` on a list of lines; `QuantityIsFirstMatch` states what it reads |
| `Cart.QuantityIsFirstMatch` | src/store/useCartStore.ts:109-110 | `getItemQuantity` is the quantity of the first line with the id, or 0 when there is none |
| `Cart.Bump` | src/store/useCartStore.ts:119-123 | length is kept and each line with the id gains one, the others unchanged |
| `Cart.Increase` | src/store/useCartStore.ts:114-124 | on an absent id `{id, 1}` is appended and the old lines kept; on a present id the length, ids and order are kept and only that id's lines gain one |
| `Cart.Lower` | src/store/useCartStore.ts:134-138 | length is kept and each line with the id loses one, floored at 0, the others unchanged |
| `Cart.KeepPositive` | src/store/useCartStore.ts:139 | every kept line is positive, and an all-positive list is kept whole |
| `Cart.KeepPositiveMembers` | src/store/useCartStore.ts:139 | a line is kept iff it was there and is positive |
| `Cart.KeepPositiveAppend` | src/store/useCartStore.ts:139 | the filter distributes over concatenation and keeps a single line exactly when it is positive, so the surviving lines keep their order and number |
| `Cart.LowerAppend` | src/store/useCartStore.ts:134-138 | the `map` distributes over concatenation |
| `Cart.Decrease` | src/store/useCartStore.ts:133-139 | the result is no longer than the input and every line is positive |
| `Cart.DecreaseAppend` | src/store/useCartStore.ts:133-139 | on any list, ledger or not, a decrease works line by line in order: it distributes over concatenation, and a single line is lowered and kept only while still positive |
| `Cart.Remove` | src/store/useCartStore.ts:148-150 | no line with the id survives, and the result is no longer than the input |
| `Cart.RemoveMembers` | src/store/useCartStore.ts:148-150 | a line survives iff it was there and has another id |
| `Cart.RemoveAbsent` | src/store/useCartStore.ts:148-150 | removing an absent id is a no-op |
| `Cart.RemoveAppend` | src/store/useCartStore.ts:148-150 | removal distributes over concatenation, so the surviving lines keep their order |
| `Cart.QuantityAfterIncrease` | src/store/useCartStore.ts:114-124 | the id's quantity goes up by one and no other quantity changes |
| `Cart.DecreaseAbsent` | src/store/useCartStore.ts:133-139 | on an all-positive cart, decreasing an absent id changes nothing |
| `Cart.DecreaseEffect` | src/store/useCartStore.ts:133-139 | on a ledger, the line of the id is lowered by one in place; at quantity 1 it is dropped and the others keep their order |
| `Cart.QuantityAfterDecrease` | src/store/useCartStore.ts:133-139 | on a ledger, the id's quantity drops by one, floored at 0, and no other quantity changes |
| `Cart.QuantityAfterRemove` | src/store/useCartStore.ts:148-150 | after a removal the id reads 0 and every other quantity is unchanged |
| `Cart.IncreasePreservesLedger` | src/store/useCartStore.ts:112-124 | unique ids and positive quantities survive an increase |
| `Cart.DecreasePreservesLedger` | src/store/useCartStore.ts:131-139 | unique ids and positive quantities survive a decrease |
| `Cart.RemovePreservesLedger` | src/store/useCartStore.ts:146-150 | unique ids and positive quantities survive a removal |
| `Cart.ActionsPreserveLedger` | src/store/useCartStore.ts:112-157 | from a ledger, every sequence of increase, decrease, remove and clear keeps unique ids and positive quantities |
| `Cart.TwoIncreasesThenTwoDecreases` | src/store/useCartStore.ts:112-144 | two increases of a new id give one line of 2, and two decreases empty the cart again |
| `Cart.Requested` | src/store/useCartStore.ts:76-81 | defines the ids the refresh looks up, in cart order; `RequestedAreUncached` states which they are |
| `Cart.Joined` | src/store/useCartStore.ts:77-85 | defines one line joined to its product: the truthy cached one, else the lookup's result, or a throw |
| `Cart.ResolveAll` | src/store/useCartStore.ts:75-87 | defines the `Promise.all` of the joins; `ResolveAllJoins` states its result |
| `Cart.CacheAfter` | src/store/useCartStore.ts:81-84 | defines the cache the lookups leave; `CacheAfterFills` states its entries |
| `Cart.RequestedAreUncached` | src/store/useCartStore.ts:75-87 | a cached product is never looked up, every uncached line is, and only ids in the cart are |
| `Cart.ResolveAllJoins` | src/store/useCartStore.ts:75-87 | the details exist iff no lookup threw. There is then one per line, in cart order, with the line's id and quantity and the cached product or else the looked-up one |
| `Cart.CacheAfterFills` | src/store/useCartStore.ts:81-84 | every lookup that did not throw is cached under its id, null included; cached products, every entry never looked up and every entry whose lookup threw are unchanged, so a throw caches nothing |
| `Cart.Subtotal` | src/store/useCartStore.ts:91-101 | the sum exists iff every detail has a product; reading a null product's price throws |
| `Cart.SubtotalAppend` | src/store/useCartStore.ts:91-101 | the subtotal is additive over concatenation of details, and a single line contributes its `price * quantity`, or makes the sum fail when its product is null; so it is the sum of `price * quantity` over the lines |
| `Cart.SubtotalOfThree` | src/store/useCartStore.ts:91-101 | three of a 999-cent product cost 2997 cents |
| `Cart.CartStore.Persist` | src/store/useCartStore.ts:165 | defines the `partialize` projection: the lines only |
| `Cart.CartStore.GetItemQuantity` | src/store/useCartStore.ts:109-110 | defines `getItemQuantity` as `QuantityOf` on the current lines |
| `Cart.CartStore.constructor` | src/store/useCartStore.ts:29-34 | no lines, an empty cache, no details, subtotal 0, loading |
| `Cart.CartStore.FetchCartDetails` | src/store/useCartStore.ts:70-104 | the loop issues exactly the `Requested` lookups and leaves the cache as `CacheAfter` says. When every lookup succeeds with a product, the details become the join, the subtotal its sum and loading ends. Otherwise the old details and subtotal stay and loading stays on. The lines, and so the persisted state, are unchanged |
| `Cart.CartStore.SetCartItems` | src/store/useCartStore.ts:106-107 | the lines are replaced and nothing else changes; no refresh |
| `Cart.CartStore.ClearCart` | src/store/useCartStore.ts:157 | no lines and every quantity reads 0; the details and subtotal are not refreshed |
| `Cart.CartStore.IncreaseCartQuantity` | src/store/useCartStore.ts:112-129 | the lines become `Increase`, followed by a full refresh of them |
| `Cart.CartStore.DecreaseCartQuantity` | src/store/useCartStore.ts:131-144 | the lines become `Decrease`, followed by a full refresh of them |
| `Cart.CartStore.RemoveFromCart` | src/store/useCartStore.ts:146-155 | the lines become `Remove`, followed by a full refresh of them |

## Left out

- HTTP and GraphQL transport (URL, headers, revalidation, query text): a fetch is its result. For the pagers that is a `Server` outcome; for the decoders, a `Response` with its `ok` flag, status text and parsed body.
- JSON parsing: a body is already a `Js.Value` or unparsable. Object key order is not modelled.
- Floating-point numbers: `Js.Value` numbers are integers, and product prices are integer cents. The `parseFloat`, `replace("$", "")` and `toFixed(2)` steps then reduce to exact integer sums.
- Typed extraction of a `Product` from the decoded JSON: the stores receive `Catalog.Product` values and the decoders return JSON values. Nothing links the two.
- `Cart.ProductLookup`: the cart imports `fetchProductById` from `src/services/productServices.ts`, which does not define it. The lookup is an oracle, not `ProductServices1.FetchProductById`.
- The server and the lookup are functions, so a repeated identical request gets the same answer.
- Asynchronous ordering: `Promise.all`, interleaved store updates and out-of-order responses. Each action runs to completion. The refresh inside an action runs in place rather than detached.
- `Cart.CartStore.FetchCartDetails` assumes every lookup has settled, so its cache is order-independent. A throw rejects the whole refresh once all lookups are done.
- The values of `loading` and `isLoading` while a fetch is outstanding: only their values at the end of each action are modelled.
- Persistence middleware (localStorage, localforage, `onRehydrateStorage`): the `partialize` projections are modelled as `Persist` functions, the rehydration is not.
- `setIsLoading`, `setLoading` and `setIsCartOpen`, and the `isCartOpen` flag: plain flag setters. `loading` is modelled inside `goToPage`.
- Console logging and error messages: an error is a `ServiceError` constructor, not its message text.
- `NumberedPagination2.WriteSlot`: the `-1` property a negative write creates is not kept, since the next copy drops it and nothing reads it. Array holes are modelled as null cursors.
- `src/store/useProductStore.ts`, the demo-data store that both pagers actually import: both pagers use `ProductStore`, the store with the latch.
- `src/components/shop/ProductList-1.tsx` imports the trailing-cursor pager, which has no `setCursor` and no `setPageData`, so as written the effect would throw. `ProductList.Hydrate` runs it over the cursor-and-page-cache pager, which has both setters.
- `src/components/shop/ProductList.tsx`: a different, unguarded variant of the hydration effect. It calls `setProducts` on every run with no `hasHydrated` check, never marks the store hydrated, and reruns when its props change. Only the guarded effect of `ProductList-1.tsx` is modelled.
- `src/components/cart/Cart.tsx`: its quantity handler maps the cart details to new lines and writes them through `setCartItems`, which is modelled (`Cart.CartStore.SetCartItems`). The component itself is not modelled.
- `src/components/shop/ProductList-3.tsx`: the same guarded effect, except that it reads `hasHydrated` and `setProducts` from the rendered hook rather than from `getState()`. Each action runs to completion here, so the model does not tell them apart.
- The page navigation components: rendering only.
