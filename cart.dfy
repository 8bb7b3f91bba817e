/**
 * The cart store: an ordered ledger of `{id, quantity}` lines with its update actions, and
 * the refresh that joins each line to a product (from a per-id cache, or a lookup that then
 * fills the cache) and sums `price * quantity` into the subtotal. Prices are integer cents.
 */
module Cart {
  import opened Wrappers
  import opened Catalog

  /** One cart line. */
  datatype CartItem = CartItem(id: int, quantity: int)

  /** A cart line joined to its product; `product` is None where the lookup gave null. */
  datatype CartDetail = CartDetail(id: int, quantity: int, product: Option<Product>)

  /** What looking a product up by id yields: a throw, or a product that may be null. */
  datatype Lookup = LookupThrew | Found(product: Option<Product>)

  /** The product-by-id fetch, as an oracle. */
  type ProductLookup = int -> Lookup

  /** The product cache: an id maps to the product fetched for it, or to null. */
  type ProductCache = map<int, Option<Product>>

  predicate InCart(items: seq<CartItem>, id: int) {
    exists i :: 0 <= i < |items| && items[i].id == id
  }

  /** No two lines share an id. */
  predicate UniqueIds(items: seq<CartItem>) {
    forall i, j :: 0 <= i < j < |items| ==> items[i].id != items[j].id
  }

  predicate AllPositive(items: seq<CartItem>) {
    forall i :: 0 <= i < |items| ==> items[i].quantity >= 1
  }

  /** The invariant the cart actions keep: unique ids, positive quantities. */
  predicate Ledger(items: seq<CartItem>) {
    UniqueIds(items) && AllPositive(items)
  }

  /** `cartItems.find(item => item.id === id)`, as the index of the first match. */
  function FirstIndex(items: seq<CartItem>, id: int): (r: Option<nat>)
    ensures r.None? <==> !InCart(items, id)
    ensures r.Some? ==> r.value < |items| && items[r.value].id == id
    ensures r.Some? ==> forall i :: 0 <= i < r.value ==> items[i].id != id
    decreases |items|
  {
    if items == [] then None
    else if items[0].id == id then Some(0)
    else match FirstIndex(items[1..], id)
      case None => None
      case Some(k) => Some(k + 1)
  }

  /** `getItemQuantity(id)`: `find(...)?.quantity || 0`, where `|| 0` only turns 0 into 0. */
  function QuantityOf(items: seq<CartItem>, id: int): int
    decreases |items|
  {
    if items == [] then 0
    else if items[0].id == id then items[0].quantity
    else QuantityOf(items[1..], id)
  }

  /** The quantity read is that of the first line with the id, and 0 when no line has it. */
  lemma {:induction false} QuantityIsFirstMatch(items: seq<CartItem>, id: int)
    ensures QuantityOf(items, id) == match FirstIndex(items, id)
      case None => 0
      case Some(k) => items[k].quantity
    decreases |items|
  {
    if items != [] && items[0].id != id {
      QuantityIsFirstMatch(items[1..], id);
    }
  }

  lemma QuantityAbsent(items: seq<CartItem>, id: int)
    requires FirstIndex(items, id).None?
    ensures QuantityOf(items, id) == 0
  {
    QuantityIsFirstMatch(items, id);
  }

  lemma QuantityCons(x: CartItem, rest: seq<CartItem>, id: int)
    ensures QuantityOf([x] + rest, id) == if x.id == id then x.quantity else QuantityOf(rest, id)
  {
    assert ([x] + rest)[1..] == rest;
  }

  function BumpLine(x: CartItem, id: int): CartItem {
    if x.id == id then x.(quantity := x.quantity + 1) else x
  }

  /** The `map` of `increaseCartQuantity` on a present id: every line with that id gains one. */
  function Bump(items: seq<CartItem>, id: int): (r: seq<CartItem>)
    ensures |r| == |items|
    ensures forall i :: 0 <= i < |items| ==> r[i] == BumpLine(items[i], id)
    decreases |items|
  {
    if items == [] then [] else [BumpLine(items[0], id)] + Bump(items[1..], id)
  }

  /**
   * `increaseCartQuantity(id)` on the lines: on an absent id a new line `{id, 1}` at the end
   * and the old lines untouched; on a present id one more on its lines, nothing else moved.
   */
  function Increase(items: seq<CartItem>, id: int): (r: seq<CartItem>)
    ensures !InCart(items, id) ==> r == items + [CartItem(id, 1)]
    ensures InCart(items, id) ==> |r| == |items|
    ensures InCart(items, id) ==> forall i :: 0 <= i < |items| ==>
      r[i].id == items[i].id
      && r[i].quantity == items[i].quantity + (if items[i].id == id then 1 else 0)
  {
    if FirstIndex(items, id).Some? then Bump(items, id) else items + [CartItem(id, 1)]
  }

  function LowerLine(x: CartItem, id: int): CartItem {
    if x.id == id then x.(quantity := if x.quantity - 1 > 0 then x.quantity - 1 else 0) else x
  }

  /** The `map` of `decreaseCartQuantity`: every line with that id loses one, floored at 0. */
  function Lower(items: seq<CartItem>, id: int): (r: seq<CartItem>)
    ensures |r| == |items|
    ensures forall i :: 0 <= i < |items| ==> r[i] == LowerLine(items[i], id)
    decreases |items|
  {
    if items == [] then [] else [LowerLine(items[0], id)] + Lower(items[1..], id)
  }

  /** The `filter(item => item.quantity > 0)` of `decreaseCartQuantity`. */
  function KeepPositive(items: seq<CartItem>): (r: seq<CartItem>)
    ensures |r| <= |items|
    ensures forall i :: 0 <= i < |r| ==> r[i].quantity > 0
    ensures AllPositive(items) ==> r == items
    decreases |items|
  {
    if items == [] then []
    else (if items[0].quantity > 0 then [items[0]] else []) + KeepPositive(items[1..])
  }

  /** The lines the filter keeps are exactly the positive ones. */
  lemma {:induction false} KeepPositiveMembers(items: seq<CartItem>, x: CartItem)
    ensures x in KeepPositive(items) <==> x in items && x.quantity > 0
    decreases |items|
  {
    if items != [] {
      KeepPositiveMembers(items[1..], x);
      assert items == [items[0]] + items[1..];
    }
  }

  /** The filter keeps the surviving lines in order: `KeepPositive` distributes over `+`. */
  lemma {:induction false} KeepPositiveAppend(a: seq<CartItem>, b: seq<CartItem>)
    ensures KeepPositive(a + b) == KeepPositive(a) + KeepPositive(b)
    ensures |a| == 1 ==> KeepPositive(a) == if a[0].quantity > 0 then a else []
    decreases |a|
  {
    if a == [] {
      assert a + b == b;
    } else {
      assert |a| == 1 ==> a[1..] == [];
      assert (a + b)[1..] == a[1..] + b;
      KeepPositiveAppend(a[1..], b);
    }
  }

  /** Lowering works line by line: `Lower` distributes over `+`. */
  lemma LowerAppend(a: seq<CartItem>, b: seq<CartItem>, id: int)
    ensures Lower(a + b, id) == Lower(a, id) + Lower(b, id)
  {
    assert forall i :: 0 <= i < |a + b| ==> Lower(a + b, id)[i] == (Lower(a, id) + Lower(b, id))[i];
  }

  /** `decreaseCartQuantity(id)` on the lines. */
  function Decrease(items: seq<CartItem>, id: int): (r: seq<CartItem>)
    ensures |r| <= |items|
    ensures forall i :: 0 <= i < |r| ==> r[i].quantity > 0
  {
    KeepPositive(Lower(items, id))
  }

  lemma DecreaseCons(items: seq<CartItem>, id: int)
    requires items != []
    ensures Decrease(items, id) ==
      (if LowerLine(items[0], id).quantity > 0 then [LowerLine(items[0], id)] else []) + Decrease(items[1..], id)
  {
    var lowered := Lower(items, id);
    assert lowered[1..] == Lower(items[1..], id);
  }

  /**
   * On any list, ledger or not, decreasing works line by line and keeps the order: `Decrease`
   * distributes over `+`, and one line is lowered and kept only while still positive.
   */
  lemma DecreaseAppend(a: seq<CartItem>, b: seq<CartItem>, id: int)
    ensures Decrease(a + b, id) == Decrease(a, id) + Decrease(b, id)
    ensures |a| == 1 ==>
      Decrease(a, id) == if LowerLine(a[0], id).quantity > 0 then [LowerLine(a[0], id)] else []
  {
    LowerAppend(a, b, id);
    KeepPositiveAppend(Lower(a, id), Lower(b, id));
    if |a| == 1 {
      DecreaseCons(a, id);
      assert a[1..] == [];
    }
  }

  /** `removeFromCart(id)` on the lines: every line with that id goes, the others stay. */
  function Remove(items: seq<CartItem>, id: int): (r: seq<CartItem>)
    ensures |r| <= |items|
    ensures forall i :: 0 <= i < |r| ==> r[i].id != id
    decreases |items|
  {
    if items == [] then []
    else (if items[0].id == id then [] else [items[0]]) + Remove(items[1..], id)
  }

  /** The lines a removal keeps are exactly those with another id. */
  lemma {:induction false} RemoveMembers(items: seq<CartItem>, id: int, x: CartItem)
    ensures x in Remove(items, id) <==> x in items && x.id != id
    decreases |items|
  {
    if items != [] {
      RemoveMembers(items[1..], id, x);
      assert items == [items[0]] + items[1..];
    }
  }

  /** Removing an id that no line holds changes nothing. */
  lemma {:induction false} RemoveAbsent(items: seq<CartItem>, id: int)
    requires !InCart(items, id)
    ensures Remove(items, id) == items
    decreases |items|
  {
    if items != [] {
      assert items[0].id != id;
      RemoveAbsent(items[1..], id);
      assert items == [items[0]] + items[1..];
    }
  }

  /** Removing a line keeps the order of the others: `Remove` distributes over `+`. */
  lemma {:induction false} RemoveAppend(a: seq<CartItem>, b: seq<CartItem>, id: int)
    ensures Remove(a + b, id) == Remove(a, id) + Remove(b, id)
    decreases |a|
  {
    if a == [] {
      assert a + b == b;
    } else {
      assert (a + b)[1..] == a[1..] + b;
      RemoveAppend(a[1..], b, id);
    }
  }

  /** Increasing adds one to the quantity of that id and changes no other quantity. */
  lemma QuantityAfterIncrease(items: seq<CartItem>, id: int, other: int)
    ensures QuantityOf(Increase(items, id), other) == QuantityOf(items, other) + (if other == id then 1 else 0)
  {
    if FirstIndex(items, id).Some? {
      QuantityOfBump(items, id, other);
    } else {
      QuantityOfAppend(items, CartItem(id, 1), other);
      if FirstIndex(items, other).None? {
        QuantityAbsent(items, other);
      }
    }
  }

  lemma {:induction false} QuantityOfBump(items: seq<CartItem>, id: int, other: int)
    ensures QuantityOf(Bump(items, id), other) ==
      QuantityOf(items, other) + (if other == id && FirstIndex(items, id).Some? then 1 else 0)
    decreases |items|
  {
    if items != [] {
      QuantityOfBump(items[1..], id, other);
      QuantityCons(BumpLine(items[0], id), Bump(items[1..], id), other);
      assert Bump(items, id) == [BumpLine(items[0], id)] + Bump(items[1..], id);
    }
  }

  lemma {:induction false} QuantityOfAppend(items: seq<CartItem>, x: CartItem, id: int)
    ensures QuantityOf(items + [x], id) ==
      if FirstIndex(items, id).Some? then QuantityOf(items, id) else if x.id == id then x.quantity else 0
    decreases |items|
  {
    if items == [] {
      QuantityCons(x, [], id);
    } else {
      QuantityOfAppend(items[1..], x, id);
      assert items + [x] == [items[0]] + (items[1..] + [x]);
      QuantityCons(items[0], items[1..] + [x], id);
    }
  }

  /** Decreasing an id that no line holds changes nothing on a cart of positive lines. */
  lemma DecreaseAbsent(items: seq<CartItem>, id: int)
    requires AllPositive(items) && !InCart(items, id)
    ensures Decrease(items, id) == items
  {
    assert Lower(items, id) == items;
  }

  /** Decreasing the id of the first line of a ledger touches that line only. */
  lemma DecreaseFirst(items: seq<CartItem>, id: int)
    requires Ledger(items) && items != [] && items[0].id == id
    ensures items[0].quantity > 1 ==> Decrease(items, id) == items[0 := items[0].(quantity := items[0].quantity - 1)]
    ensures items[0].quantity == 1 ==> Decrease(items, id) == items[1..]
  {
    var x, rest := items[0], items[1..];
    assert items == [x] + rest;
    DecreaseCons(items, id);
    assert AllPositive(rest);
    assert !InCart(rest, id) by {
      forall i | 0 <= i < |rest| ensures rest[i].id != id {
        assert rest[i] == items[i + 1];
      }
    }
    DecreaseAbsent(rest, id);
    if x.quantity > 1 {
      assert items[0 := LowerLine(x, id)] == [LowerLine(x, id)] + rest;
    } else {
      assert [] + rest == rest;
    }
  }

  /**
   * On a ledger, decreasing the line of `id` at index `k` lowers that line by one and moves
   * nothing; at quantity 1 it drops that line and keeps the others in order.
   */
  lemma {:induction false} DecreaseEffect(items: seq<CartItem>, id: int, k: nat)
    requires Ledger(items) && k < |items| && items[k].id == id
    ensures items[k].quantity > 1 ==> Decrease(items, id) == items[k := items[k].(quantity := items[k].quantity - 1)]
    ensures items[k].quantity == 1 ==> Decrease(items, id) == items[..k] + items[k + 1..]
    decreases |items|
  {
    if k == 0 {
      DecreaseFirst(items, id);
    } else {
      var x, rest := items[0], items[1..];
      assert items == [x] + rest;
      DecreaseCons(items, id);
      assert Ledger(rest);
      assert x.id != id && LowerLine(x, id) == x;
      DecreaseEffect(rest, id, k - 1);
      if items[k].quantity > 1 {
        assert items[k := items[k].(quantity := items[k].quantity - 1)]
            == [x] + rest[k - 1 := rest[k - 1].(quantity := rest[k - 1].quantity - 1)];
      } else if items[k].quantity == 1 {
        assert items[..k] + items[k + 1..] == [x] + (rest[..k - 1] + rest[k..]);
      }
    }
  }

  /** On a ledger, decreasing lowers the quantity of that id by one, floored at 0, only. */
  lemma {:induction false} QuantityAfterDecrease(items: seq<CartItem>, id: int, other: int)
    requires Ledger(items)
    ensures QuantityOf(Decrease(items, id), other) ==
      if other == id then (if QuantityOf(items, id) - 1 > 0 then QuantityOf(items, id) - 1 else 0)
      else QuantityOf(items, other)
    decreases |items|
  {
    if items != [] {
      var rest := items[1..];
      var x := items[0];
      assert Ledger(rest);
      assert items == [x] + rest;
      DecreaseCons(items, id);
      QuantityCons(x, rest, other);
      QuantityCons(x, rest, id);
      if x.id == id {
        assert !InCart(rest, id);
        DecreaseAbsent(rest, id);
        QuantityCons(LowerLine(x, id), rest, other);
        QuantityCons(LowerLine(x, id), rest, id);
        assert FirstIndex(rest, id).None?;
        QuantityAbsent(rest, id);
        assert [] + rest == rest;
      } else {
        QuantityAfterDecrease(rest, id, other);
        QuantityCons(x, Decrease(rest, id), other);
      }
    }
  }

  /** After a removal the id reads 0; every other quantity is unchanged. */
  lemma {:induction false} QuantityAfterRemove(items: seq<CartItem>, id: int, other: int)
    ensures QuantityOf(Remove(items, id), other) == if other == id then 0 else QuantityOf(items, other)
    decreases |items|
  {
    if items != [] {
      var rest := items[1..];
      QuantityAfterRemove(rest, id, other);
      assert items == [items[0]] + rest;
      QuantityCons(items[0], rest, other);
      if items[0].id != id {
        assert Remove(items, id) == [items[0]] + Remove(rest, id);
        QuantityCons(items[0], Remove(rest, id), other);
      } else {
        assert Remove(items, id) == Remove(rest, id);
      }
    }
  }

  /** A filter of a list with unique ids has unique ids. */
  lemma {:induction false} KeepPositiveKeepsUnique(items: seq<CartItem>)
    requires UniqueIds(items)
    ensures UniqueIds(KeepPositive(items))
    decreases |items|
  {
    if items != [] {
      var rest := items[1..];
      assert UniqueIds(rest);
      KeepPositiveKeepsUnique(rest);
      forall x | x in KeepPositive(rest) ensures x.id != items[0].id {
        KeepPositiveMembers(rest, x);
      }
    }
  }

  lemma {:induction false} RemoveKeepsUnique(items: seq<CartItem>, id: int)
    requires UniqueIds(items)
    ensures UniqueIds(Remove(items, id))
    decreases |items|
  {
    if items != [] {
      var rest := items[1..];
      assert UniqueIds(rest);
      RemoveKeepsUnique(rest, id);
      forall x | x in Remove(rest, id) ensures x.id != items[0].id {
        RemoveMembers(rest, id, x);
      }
    }
  }

  lemma IncreasePreservesLedger(items: seq<CartItem>, id: int)
    requires Ledger(items)
    ensures Ledger(Increase(items, id))
  {
  }

  lemma DecreasePreservesLedger(items: seq<CartItem>, id: int)
    requires Ledger(items)
    ensures Ledger(Decrease(items, id))
  {
    KeepPositiveKeepsUnique(Lower(items, id));
  }

  lemma RemovePreservesLedger(items: seq<CartItem>, id: int)
    requires Ledger(items)
    ensures Ledger(Remove(items, id))
  {
    RemoveKeepsUnique(items, id);
    forall i | 0 <= i < |Remove(items, id)| ensures Remove(items, id)[i].quantity >= 1 {
      RemoveMembers(items, id, Remove(items, id)[i]);
    }
  }

  /** The ledger actions, for reasoning about any sequence of them. */
  datatype CartAction = IncreaseAction(increased: int) | DecreaseAction(decreased: int) | RemoveAction(removed: int) | ClearAction

  function ApplyToCart(items: seq<CartItem>, a: CartAction): seq<CartItem> {
    match a
    case IncreaseAction(id) => Increase(items, id)
    case DecreaseAction(id) => Decrease(items, id)
    case RemoveAction(id) => Remove(items, id)
    case ClearAction => []
  }

  function RunCart(items: seq<CartItem>, actions: seq<CartAction>): seq<CartItem>
    decreases |actions|
  {
    if actions == [] then items else RunCart(ApplyToCart(items, actions[0]), actions[1..])
  }

  /** From a ledger (the empty cart is one), every sequence of actions keeps a ledger. */
  lemma {:induction false} ActionsPreserveLedger(items: seq<CartItem>, actions: seq<CartAction>)
    requires Ledger(items)
    ensures Ledger(RunCart(items, actions))
    decreases |actions|
  {
    if actions != [] {
      match actions[0] {
        case IncreaseAction(id) => IncreasePreservesLedger(items, id);
        case DecreaseAction(id) => DecreasePreservesLedger(items, id);
        case RemoveAction(id) => RemovePreservesLedger(items, id);
        case ClearAction =>
      }
      ActionsPreserveLedger(ApplyToCart(items, actions[0]), actions[1..]);
    }
  }

  /** Two increases of a new id give one line of two; two decreases empty the cart again. */
  lemma TwoIncreasesThenTwoDecreases()
    ensures Increase(Increase([], 101), 101) == [CartItem(101, 2)]
    ensures Decrease([CartItem(101, 2)], 101) == [CartItem(101, 1)]
    ensures Decrease([CartItem(101, 1)], 101) == []
  {
    assert [CartItem(101, 1)][0].id == 101;
  }

  /** `productCache[id]` is truthy: a product, not null and not absent. */
  predicate Cached(cache: ProductCache, id: int) {
    id in cache && cache[id].Some?
  }

  /** The ids a refresh looks up, in cart order: those of the lines not cached. */
  function Requested(items: seq<CartItem>, cache: ProductCache): seq<int>
    decreases |items|
  {
    if items == [] then []
    else
      var last := items[|items| - 1];
      Requested(items[..|items| - 1], cache) + (if Cached(cache, last.id) then [] else [last.id])
  }

  /** One line joined to its product: the cached one, else the looked-up one (None: it threw). */
  function Joined(cache: ProductCache, lookup: ProductLookup, item: CartItem): Option<CartDetail> {
    if Cached(cache, item.id) then Some(CartDetail(item.id, item.quantity, cache[item.id]))
    else match lookup(item.id)
      case LookupThrew => None
      case Found(p) => Some(CartDetail(item.id, item.quantity, p))
  }

  /** The `Promise.all` of the refresh: every line joined, in cart order, unless a lookup threw. */
  function ResolveAll(items: seq<CartItem>, cache: ProductCache, lookup: ProductLookup): Option<seq<CartDetail>>
    decreases |items|
  {
    if items == [] then Some([])
    else
      var n := |items| - 1;
      match ResolveAll(items[..n], cache, lookup)
      case None => None
      case Some(ds) =>
        match Joined(cache, lookup, items[n])
        case None => None
        case Some(d) => Some(ds + [d])
  }

  /** The cache after the refresh: each lookup that did not throw stored under its id. */
  function CacheAfter(items: seq<CartItem>, cache: ProductCache, lookup: ProductLookup): ProductCache
    decreases |items|
  {
    if items == [] then cache
    else
      var n := |items| - 1;
      var before := CacheAfter(items[..n], cache, lookup);
      var id := items[n].id;
      if !Cached(cache, id) && lookup(id).Found? then before[id := lookup(id).product] else before
  }

  /**
   * A cached product is never looked up and every uncached line is, in cart order, with no
   * id that is not in the cart.
   */
  lemma {:induction false} RequestedAreUncached(items: seq<CartItem>, cache: ProductCache)
    ensures |Requested(items, cache)| <= |items|
    ensures forall k :: 0 <= k < |Requested(items, cache)| ==>
      !Cached(cache, Requested(items, cache)[k]) && InCart(items, Requested(items, cache)[k])
    ensures forall i :: 0 <= i < |items| ==> (items[i].id in Requested(items, cache) <==> !Cached(cache, items[i].id))
    decreases |items|
  {
    if items != [] {
      var n := |items| - 1;
      var before := items[..n];
      RequestedAreUncached(before, cache);
      var r := Requested(items, cache);
      forall k | 0 <= k < |r| ensures InCart(items, r[k]) {
        if k < |Requested(before, cache)| {
          var i :| 0 <= i < |before| && before[i].id == r[k];
          assert items[i].id == r[k];
        } else {
          assert items[n].id == r[k];
        }
      }
      forall i | 0 <= i < |items| ensures items[i].id in r <==> !Cached(cache, items[i].id) {
        if i < n {
          assert before[i] == items[i];
        }
      }
    }
  }

  /**
   * The details have one entry per line, in cart order, with its id and quantity and the
   * cached product or else the looked-up one; there are none when a lookup threw.
   */
  lemma {:induction false} ResolveAllJoins(items: seq<CartItem>, cache: ProductCache, lookup: ProductLookup)
    ensures ResolveAll(items, cache, lookup).Some? <==> forall i :: 0 <= i < |items| ==> Joined(cache, lookup, items[i]).Some?
    ensures ResolveAll(items, cache, lookup).Some? ==>
      var ds := ResolveAll(items, cache, lookup).value;
      && |ds| == |items|
      && forall i :: 0 <= i < |items| ==>
        && ds[i].id == items[i].id && ds[i].quantity == items[i].quantity
        && (Cached(cache, items[i].id) ==> ds[i].product == cache[items[i].id])
        && (!Cached(cache, items[i].id) ==> Found(ds[i].product) == lookup(items[i].id))
    decreases |items|
  {
    if items != [] {
      var n := |items| - 1;
      var before := items[..n];
      ResolveAllJoins(before, cache, lookup);
      if ResolveAll(items, cache, lookup).None? && ResolveAll(before, cache, lookup).None? {
        var j :| 0 <= j < |before| && Joined(cache, lookup, before[j]).None?;
        assert items[j] == before[j];
      }
    }
  }

  /**
   * The cache after the refresh: every lookup that did not throw is stored under its id
   * (null included); every other entry, cached products in particular, is unchanged.
   */
  lemma {:induction false} CacheAfterFills(items: seq<CartItem>, cache: ProductCache, lookup: ProductLookup)
    ensures forall id :: Cached(cache, id) ==>
      id in CacheAfter(items, cache, lookup) && CacheAfter(items, cache, lookup)[id] == cache[id]
    ensures forall id :: id !in Requested(items, cache) || lookup(id).LookupThrew? ==>
      (id in CacheAfter(items, cache, lookup) <==> id in cache)
      && (id in cache ==> CacheAfter(items, cache, lookup)[id] == cache[id])
    ensures forall i :: 0 <= i < |items| && !Cached(cache, items[i].id) && lookup(items[i].id).Found? ==>
      items[i].id in CacheAfter(items, cache, lookup) && CacheAfter(items, cache, lookup)[items[i].id] == lookup(items[i].id).product
    decreases |items|
  {
    if items != [] {
      var n := |items| - 1;
      var before := items[..n];
      CacheAfterFills(before, cache, lookup);
      forall i | 0 <= i < n ensures items[i] == before[i] {
      }
    }
  }

  /**
   * The `reduce` of the refresh: the sum of `price * quantity` over the details, or None when
   * a product is null (reading its price throws). In cents, rounding to two decimals is exact.
   */
  function Subtotal(details: seq<CartDetail>): (r: Option<int>)
    ensures r.Some? <==> forall i :: 0 <= i < |details| ==> details[i].product.Some?
    decreases |details|
  {
    if details == [] then Some(0)
    else
      var n := |details| - 1;
      match (Subtotal(details[..n]), details[n].product)
      case (Some(total), Some(p)) => Some(total + p.price * details[n].quantity)
      case _ => None
  }

  /** The subtotal is additive over concatenation, one `price * quantity` per line. */
  lemma {:induction false} SubtotalAppend(a: seq<CartDetail>, b: seq<CartDetail>)
    ensures Subtotal(a + b) ==
      if Subtotal(a).Some? && Subtotal(b).Some? then Some(Subtotal(a).value + Subtotal(b).value) else None
    ensures |b| == 1 ==>
      Subtotal(b) == if b[0].product.Some? then Some(b[0].product.value.price * b[0].quantity) else None
    decreases |b|
  {
    if b == [] {
      assert a + b == a;
    } else {
      var n := |b| - 1;
      assert (a + b)[..|a + b| - 1] == a + b[..n];
      assert n == 0 ==> b[..n] == [];
      SubtotalAppend(a, b[..n]);
    }
  }

  /** Three of a 999-cent product give a subtotal of 2997 cents. */
  lemma SubtotalOfThree(p: Product)
    requires p.price == 999
    ensures Subtotal([CartDetail(p.databaseId, 3, Some(p))]) == Some(2997)
  {
  }

  /** The cart store itself, updated in place. */
  class CartStore {
    var cartItems: seq<CartItem>
    var productCache: ProductCache
    var cartDetails: seq<CartDetail>
    var subtotal: int
    var isLoading: bool

    /** What `partialize` persists: the lines alone. */
    function Persist(): seq<CartItem>
      reads this
    {
      cartItems
    }

    /** `getItemQuantity(id)`, on the current lines. */
    function GetItemQuantity(id: int): int
      reads this
    {
      QuantityOf(cartItems, id)
    }

    constructor ()
      ensures cartItems == [] && productCache == map[] && cartDetails == [] && subtotal == 0 && isLoading
    {
      cartItems := [];
      productCache := map[];
      cartDetails := [];
      subtotal := 0;
      isLoading := true;
    }

    /**
     * The state a refresh of `items` from `cache`, `details` and `total` leaves: the lines as
     * they were, the cache filled, `requested` the lookups issued; details, subtotal and a
     * cleared loading flag when every lookup succeeded with a product, and otherwise the old
     * details and subtotal with the flag still set.
     */
    ghost predicate RefreshedFrom(items: seq<CartItem>, cache: ProductCache, details: seq<CartDetail>, total: int,
                                  lookup: ProductLookup, requested: seq<int>)
      reads this
    {
      && cartItems == items
      && requested == Requested(items, cache)
      && productCache == CacheAfter(items, cache, lookup)
      && var resolved := ResolveAll(items, cache, lookup);
         if resolved.Some? && Subtotal(resolved.value).Some? then
           cartDetails == resolved.value && subtotal == Subtotal(resolved.value).value && !isLoading
         else
           cartDetails == details && subtotal == total && isLoading
    }

    /** `fetchCartDetails()`: every uncached line is looked up, in cart order. */
    method FetchCartDetails(lookup: ProductLookup) returns (requested: seq<int>)
      modifies this
      ensures RefreshedFrom(old(cartItems), old(productCache), old(cartDetails), old(subtotal), lookup, requested)
      ensures Persist() == old(Persist())
    {
      isLoading := true;
      var items := cartItems;
      var snapshot := productCache;
      var details: seq<CartDetail> := [];
      var failed := false;
      requested := [];
      var i := 0;
      while i < |items|
        invariant 0 <= i <= |items|
        invariant cartItems == items && isLoading
        invariant cartDetails == old(cartDetails) && subtotal == old(subtotal)
        invariant requested == Requested(items[..i], snapshot)
        invariant productCache == CacheAfter(items[..i], snapshot, lookup)
        invariant failed <==> ResolveAll(items[..i], snapshot, lookup).None?
        invariant !failed ==> details == ResolveAll(items[..i], snapshot, lookup).value
      {
        var item := items[i];
        assert items[..i + 1][..i] == items[..i];
        if item.id in snapshot && snapshot[item.id].Some? {
          if !failed {
            details := details + [CartDetail(item.id, item.quantity, snapshot[item.id])];
          }
        } else {
          requested := requested + [item.id];
          match lookup(item.id)
          case LookupThrew =>
            failed := true;
          case Found(p) =>
            productCache := productCache[item.id := p];
            if !failed {
              details := details + [CartDetail(item.id, item.quantity, p)];
            }
        }
        i := i + 1;
      }
      assert items[..|items|] == items;
      if !failed {
        var total := Subtotal(details);
        if total.Some? {
          cartDetails := details;
          subtotal := total.value;
          isLoading := false;
        }
      }
    }

    /** `setCartItems(lines)`: the lines replaced, no refresh. */
    method SetCartItems(newCartItems: seq<CartItem>)
      modifies this
      ensures cartItems == newCartItems
      ensures productCache == old(productCache) && cartDetails == old(cartDetails)
      ensures subtotal == old(subtotal) && isLoading == old(isLoading)
    {
      cartItems := newCartItems;
    }

    /** `clearCart()`: no lines, every quantity reads 0; no refresh, so details and subtotal stay. */
    method ClearCart()
      modifies this
      ensures cartItems == [] && forall id :: GetItemQuantity(id) == 0
      ensures productCache == old(productCache) && cartDetails == old(cartDetails)
      ensures subtotal == old(subtotal) && isLoading == old(isLoading)
    {
      cartItems := [];
    }

    /** `increaseCartQuantity(id)`, then the refresh. */
    method IncreaseCartQuantity(id: int, lookup: ProductLookup) returns (requested: seq<int>)
      modifies this
      ensures RefreshedFrom(Increase(old(cartItems), id), old(productCache), old(cartDetails), old(subtotal), lookup, requested)
    {
      var existing := FirstIndex(cartItems, id);
      cartItems := if existing.Some? then Bump(cartItems, id) else cartItems + [CartItem(id, 1)];
      requested := FetchCartDetails(lookup);
    }

    /** `decreaseCartQuantity(id)`, then the refresh. */
    method DecreaseCartQuantity(id: int, lookup: ProductLookup) returns (requested: seq<int>)
      modifies this
      ensures RefreshedFrom(Decrease(old(cartItems), id), old(productCache), old(cartDetails), old(subtotal), lookup, requested)
    {
      cartItems := KeepPositive(Lower(cartItems, id));
      requested := FetchCartDetails(lookup);
    }

    /** `removeFromCart(id)`, then the refresh. */
    method RemoveFromCart(id: int, lookup: ProductLookup) returns (requested: seq<int>)
      modifies this
      ensures RefreshedFrom(Remove(old(cartItems), id), old(productCache), old(cartDetails), old(subtotal), lookup, requested)
    {
      cartItems := Remove(cartItems, id);
      requested := FetchCartDetails(lookup);
    }
  }
}
