/**
 * The shopping-cart aggregate as values. A `PurchaseInformation` is
 * consistent when its three running totals agree with its item list;
 * `Added` and `Removed` are what the cart graph nodes and cart tools do to
 * it in place (append / `list.remove`, then `+=` / `-=` on the totals).
 */
module Cart {
  import opened Wrappers
  import opened Records

  /** Sum of `quantity` over the lines. */
  function QuantitySum(items: seq<PurchaseBurgerItem>): int
  {
    if items == [] then 0 else items[0].quantity + QuantitySum(items[1..])
  }

  /** Sum of `price * quantity` over the lines. */
  function PriceSum(items: seq<PurchaseBurgerItem>): int
  {
    if items == [] then 0 else items[0].price * items[0].quantity + PriceSum(items[1..])
  }

  /** The cart invariant. */
  predicate Consistent(p: PurchaseInfo)
  {
    && p.totalItems == |p.items|
    && p.totalQuantity == QuantitySum(p.items)
    && p.totalPrice == PriceSum(p.items)
  }

  /** A fresh `PurchaseInformation()` is consistent. */
  lemma EmptyIsConsistent()
    ensures Consistent(EmptyPurchaseInfo)
  {
  }

  lemma {:induction false} SumsAppend(s: seq<PurchaseBurgerItem>, x: PurchaseBurgerItem)
    ensures QuantitySum(s + [x]) == QuantitySum(s) + x.quantity
    ensures PriceSum(s + [x]) == PriceSum(s) + x.price * x.quantity
  {
    if s != [] {
      assert (s + [x])[1..] == s[1..] + [x];
      SumsAppend(s[1..], x);
    }
  }

  lemma {:induction false} SumsConcat(s: seq<PurchaseBurgerItem>, t: seq<PurchaseBurgerItem>)
    ensures QuantitySum(s + t) == QuantitySum(s) + QuantitySum(t)
    ensures PriceSum(s + t) == PriceSum(s) + PriceSum(t)
  {
    if s != [] {
      assert (s + t)[1..] == s[1..] + t;
      SumsConcat(s[1..], t);
    } else {
      assert s + t == t;
    }
  }

  lemma CancelLine(a: multiset<PurchaseBurgerItem>, b: multiset<PurchaseBurgerItem>, x: PurchaseBurgerItem)
    requires a + multiset{x} == b + multiset{x}
    ensures a == b
  {
    forall y ensures a[y] == b[y] {
      assert (a + multiset{x})[y] == (b + multiset{x})[y];
    }
  }

  /** The sums depend only on which lines are in the cart, not on their order. */
  lemma {:induction false} SumsOfPermutation(s: seq<PurchaseBurgerItem>, t: seq<PurchaseBurgerItem>)
    requires multiset(s) == multiset(t)
    ensures QuantitySum(s) == QuantitySum(t) && PriceSum(s) == PriceSum(t)
    decreases |s|
  {
    if s == [] {
      assert |t| == |multiset(t)| == 0;
    } else {
      var x := s[0];
      assert x in multiset(t);
      var t' := RemoveFirst(t, x);
      assert s == [x] + s[1..];
      assert multiset(s) == multiset{x} + multiset(s[1..]);
      CancelLine(multiset(s[1..]), multiset(t'), x);
      SumsOfPermutation(s[1..], t');
      SumsRemoveFirst(t, x);
    }
  }

  /** `Added(p, x)`: `items.append(x)`, `total_items += 1`, `total_quantity += x.quantity`, `total_price += x.price * x.quantity`. */
  function Added(p: PurchaseInfo, x: PurchaseBurgerItem): (r: PurchaseInfo)
    ensures r.items == p.items + [x]
    ensures Consistent(p) ==> Consistent(r)
  {
    SumsAppend(p.items, x);
    PurchaseInfo(p.items + [x], p.totalPrice + x.price * x.quantity, p.totalItems + 1, p.totalQuantity + x.quantity)
  }

  /** Index of the first line equal to `x`. */
  function FirstIndex(s: seq<PurchaseBurgerItem>, x: PurchaseBurgerItem): (i: nat)
    requires x in s
    ensures i < |s| && s[i] == x
    ensures x !in s[..i]
  {
    if s[0] == x then 0 else 1 + FirstIndex(s[1..], x)
  }

  /** Python's `list.remove(x)` on a list that holds `x`: drop its first occurrence. */
  function RemoveFirst(s: seq<PurchaseBurgerItem>, x: PurchaseBurgerItem): (r: seq<PurchaseBurgerItem>)
    requires x in s
    ensures r == s[..FirstIndex(s, x)] + s[FirstIndex(s, x) + 1..]
    ensures |r| == |s| - 1
    ensures multiset(r) + multiset{x} == multiset(s)
  {
    var i := FirstIndex(s, x);
    assert s == s[..i] + [x] + s[i + 1..];
    s[..i] + s[i + 1..]
  }

  /** Dropping a line lowers each sum by exactly that line's share. */
  lemma SumsRemoveFirst(s: seq<PurchaseBurgerItem>, x: PurchaseBurgerItem)
    requires x in s
    ensures QuantitySum(RemoveFirst(s, x)) == QuantitySum(s) - x.quantity
    ensures PriceSum(RemoveFirst(s, x)) == PriceSum(s) - x.price * x.quantity
  {
    var i := FirstIndex(s, x);
    assert s == s[..i] + [x] + s[i + 1..];
    SumsConcat(s[..i] + [x], s[i + 1..]);
    SumsAppend(s[..i], x);
    SumsConcat(s[..i], s[i + 1..]);
  }

  datatype CartError = ItemNotFound

  /**
   * `Removed(p, x)`: `items.remove(x)`, which raises before any total is
   * touched when no line equals `x`; otherwise the three totals go down by
   * the amounts of `x`.
   */
  function Removed(p: PurchaseInfo, x: PurchaseBurgerItem): (r: Result<PurchaseInfo, CartError>)
    ensures r.Err? <==> x !in p.items
    ensures r.Err? ==> r.error == ItemNotFound
    ensures r.Ok? ==> r.value.items == RemoveFirst(p.items, x)
    ensures r.Ok? && Consistent(p) ==> Consistent(r.value)
  {
    if x !in p.items then Err(ItemNotFound)
    else
      var s := p.items;
      SumsRemoveFirst(s, x);
      Ok(PurchaseInfo(RemoveFirst(s, x), p.totalPrice - x.price * x.quantity,
                      p.totalItems - 1, p.totalQuantity - x.quantity))
  }

  /**
   * Adding a line and then removing the same line gives back the same totals
   * and the same lines up to order; the very same cart when the line was not
   * already there.
   */
  lemma RemoveFirstOfAppended(s: seq<PurchaseBurgerItem>, x: PurchaseBurgerItem)
    requires x !in s
    ensures RemoveFirst(s + [x], x) == s
  {
    assert FirstIndex(s + [x], x) == |s|;
    assert (s + [x])[..|s|] == s;
  }

  lemma AddThenRemove(p: PurchaseInfo, x: PurchaseBurgerItem)
    ensures Removed(Added(p, x), x).Ok?
    ensures var q := Removed(Added(p, x), x).value;
      && q.totalItems == p.totalItems && q.totalQuantity == p.totalQuantity && q.totalPrice == p.totalPrice
      && multiset(q.items) == multiset(p.items)
    ensures x !in p.items ==> Removed(Added(p, x), x) == Ok(p)
  {
    var s := p.items;
    assert x in s + [x];
    var q := Removed(Added(p, x), x).value;
    assert q.items == RemoveFirst(s + [x], x);
    assert multiset(s + [x]) == multiset(s) + multiset{x};
    assert multiset(q.items) + multiset{x} == multiset(s) + multiset{x};
    CancelLine(multiset(q.items), multiset(s), x);
    if x !in s {
      RemoveFirstOfAppended(s, x);
    }
  }

  /** Removing a line and adding it back gives the same totals and the same lines up to order. */
  lemma RemoveThenAdd(p: PurchaseInfo, x: PurchaseBurgerItem)
    requires x in p.items
    ensures var q := Added(Removed(p, x).value, x);
      && q.totalItems == p.totalItems && q.totalQuantity == p.totalQuantity && q.totalPrice == p.totalPrice
      && multiset(q.items) == multiset(p.items)
  {
  }

  /** One cart action: an add, or a remove that fails when nothing matches. */
  datatype CartAction = AddLine(item: PurchaseBurgerItem) | RemoveLine(item: PurchaseBurgerItem)

  /** The lines a run of actions adds, as a multiset. */
  function AddedLines(actions: seq<CartAction>): multiset<PurchaseBurgerItem>
  {
    if actions == [] then multiset{}
    else (if actions[0].AddLine? then multiset{actions[0].item} else multiset{}) + AddedLines(actions[1..])
  }

  /**
   * The cart after a run of actions; a failed remove leaves the cart as it
   * was. It never holds a line that was neither there before nor added, and
   * `total_items` moves in step with the list.
   */
  function Run(p: PurchaseInfo, actions: seq<CartAction>): (r: PurchaseInfo)
    ensures |r.items| <= |p.items| + |actions|
    ensures multiset(r.items) <= multiset(p.items) + AddedLines(actions)
    ensures r.totalItems - |r.items| == p.totalItems - |p.items|
    decreases |actions|
  {
    if actions == [] then p
    else
      var next := match actions[0]
        case AddLine(x) => Added(p, x)
        case RemoveLine(x) => if Removed(p, x).Ok? then Removed(p, x).value else p;
      Run(next, actions[1..])
  }

  /** Every run of adds and removes from a consistent cart ends in a consistent cart. */
  lemma {:induction false} RunKeepsConsistent(p: PurchaseInfo, actions: seq<CartAction>)
    requires Consistent(p)
    ensures Consistent(Run(p, actions))
    decreases |actions|
  {
    if actions != [] {
      var next := match actions[0]
        case AddLine(x) => Added(p, x)
        case RemoveLine(x) => if Removed(p, x).Ok? then Removed(p, x).value else p;
      RunKeepsConsistent(next, actions[1..]);
    }
  }

  /** Every cart reachable from `PurchaseInformation()` by adds and removes is consistent. */
  lemma ReachableCartsAreConsistent(actions: seq<CartAction>)
    ensures Consistent(Run(EmptyPurchaseInfo, actions))
  {
    RunKeepsConsistent(EmptyPurchaseInfo, actions);
  }
}
