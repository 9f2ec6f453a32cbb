/** The checkout view (GET /check): the store's items that are in the cart,
    in store order, and their nutrient totals weighted by cart quantity. */
module Checkout {
  import opened Menu
  import opened SessionCart

  /** `[it for it in items if it["slug"] in cart]`, with the cart given by
      its key set. */
  function Select(items: seq<Item>, keys: set<string>): (r: seq<Item>)
    ensures |r| <= |items|
    ensures forall it :: it in r ==> it.slug in keys
  {
    if |items| == 0 then []
    else (if items[0].slug in keys then [items[0]] else []) + Select(items[1..], keys)
  }

  /** Whether `a` can be obtained from `b` by deleting elements, the rest
      kept in order. */
  predicate IsSubsequence<T(==)>(a: seq<T>, b: seq<T>)
    decreases |b|
  {
    if |a| == 0 then true
    else if |b| == 0 then false
    else (a[0] == b[0] && IsSubsequence(a[1..], b[1..])) || IsSubsequence(a, b[1..])
  }

  /** Every slug of `sel` is a key of `cart`. */
  predicate InCart(sel: seq<Item>, cart: Cart)
  {
    forall it :: it in sel ==> it.slug in cart
  }

  /** Entry `n` of the `total` dict once the accumulation loop has run over
      `sel`: each item's column times its cart quantity, added in order. */
  function SumSelected(sel: seq<Item>, cart: Cart, n: Nutrient): int
    requires InCart(sel, cart)
  {
    if |sel| == 0 then 0
    else
      var last := sel[|sel| - 1];
      SumSelected(sel[..|sel| - 1], cart, n) + Amount(last, n) * cart[last.slug]
  }

  /** What store item `it` adds to nutrient `n` of the checkout of `cart`. */
  function Contribution(it: Item, cart: Cart, n: Nutrient): int
  {
    if it.slug in cart then Amount(it, n) * cart[it.slug] else 0
  }

  /** The reference sum of the checkout for nutrient `n`: over the store items
      whose slug is a cart key, the column times that key's quantity. */
  function CheckoutSum(store: seq<Item>, cart: Cart, n: Nutrient): int
  {
    if |store| == 0 then 0
    else Contribution(store[0], cart, n) + CheckoutSum(store[1..], cart, n)
  }

  /** The five reference sums as a `total` dict. */
  function CheckoutTotal(store: seq<Item>, cart: Cart): Totals
  {
    Totals(CheckoutSum(store, cart, Energy), CheckoutSum(store, cart, Protein),
           CheckoutSum(store, cart, Fat), CheckoutSum(store, cart, Carbs),
           CheckoutSum(store, cart, Salt))
  }

  /** The cart units that the store items in the checkout list stand for. */
  function CheckoutUnits(store: seq<Item>, cart: Cart): int
  {
    if |store| == 0 then 0
    else (if store[0].slug in cart then cart[store[0].slug] else 0) + CheckoutUnits(store[1..], cart)
  }

  /** Every quantity of `cart` multiplied by `c`. */
  function ScaleCart(cart: Cart, c: int): Cart
  {
    map k | k in cart :: cart[k] * c
  }

  /** GET /check: `cart` is `session.get("cart", {})` and `store` is
      `list_items()`. An empty cart returns at once with no items and zero
      totals; otherwise the items are selected and their totals summed. */
  method CheckView(cart: Cart, store: seq<Item>) returns (selected: seq<Item>, total: Totals)
    ensures selected == Select(store, cart.Keys)
    ensures IsSubsequence(selected, store)
    ensures forall it :: it in selected <==> it in store && it.slug in cart
    ensures total == CheckoutTotal(store, cart)
    ensures |cart| == 0 ==> selected == [] && total == Zero
  {
    SelectIsSubsequence(store, cart.Keys);
    SelectMembers(store, cart.Keys);
    if |cart| == 0 {
      EmptySelection(store, cart);
      return [], Zero;
    }
    selected := Select(store, cart.Keys);
    total := Zero;
    for i := 0 to |selected|
      invariant total.energyKcal == SumSelected(selected[..i], cart, Energy)
      invariant total.proteinG == SumSelected(selected[..i], cart, Protein)
      invariant total.fatG == SumSelected(selected[..i], cart, Fat)
      invariant total.carbsG == SumSelected(selected[..i], cart, Carbs)
      invariant total.saltG == SumSelected(selected[..i], cart, Salt)
    {
      var it := selected[i];
      var qty := cart[it.slug];
      assert selected[..i + 1][..i] == selected[..i];
      total := Totals(total.energyKcal + it.energyKcal * qty,
                      total.proteinG + it.proteinG * qty,
                      total.fatG + it.fatG * qty,
                      total.carbsG + it.carbsG * qty,
                      total.saltG + it.saltG * qty);
    }
    assert selected[..|selected|] == selected;
    SumOfSelection(store, cart, Energy);
    SumOfSelection(store, cart, Protein);
    SumOfSelection(store, cart, Fat);
    SumOfSelection(store, cart, Carbs);
    SumOfSelection(store, cart, Salt);
  }

  // ----- The selection -----

  /** The selection keeps store order: it is a subsequence of the store. */
  lemma {:induction false} SelectIsSubsequence(items: seq<Item>, keys: set<string>)
    ensures IsSubsequence(Select(items, keys), items)
  {
    if |items| > 0 {
      var rest := Select(items[1..], keys);
      SelectIsSubsequence(items[1..], keys);
      var r := Select(items, keys);
      if items[0].slug in keys {
        assert r == [items[0]] + rest;
        assert r[0] == items[0] && r[1..] == rest;
      } else {
        assert r == rest;
      }
    }
  }

  /** The selection holds exactly the store items whose slug is a key. */
  lemma {:induction false} SelectMembers(items: seq<Item>, keys: set<string>)
    ensures forall it :: it in Select(items, keys) <==> it in items && it.slug in keys
  {
    if |items| > 0 {
      SelectMembers(items[1..], keys);
      assert items == [items[0]] + items[1..];
    }
  }

  /** The selection depends only on which store slugs are among the keys. */
  lemma {:induction false} SelectSameSlugs(store: seq<Item>, k1: set<string>, k2: set<string>)
    requires forall it :: it in store ==> (it.slug in k1 <==> it.slug in k2)
    ensures Select(store, k1) == Select(store, k2)
  {
    if |store| > 0 {
      assert store[0] in store;
      SelectSameSlugs(store[1..], k1, k2);
    }
  }

  /** No store slug among the keys: nothing is selected. */
  lemma {:induction false} SelectNone(items: seq<Item>, keys: set<string>)
    requires forall it :: it in items ==> it.slug !in keys
    ensures Select(items, keys) == []
  {
    if |items| > 0 {
      assert items[0] in items;
      SelectNone(items[1..], keys);
    }
  }

  /** The accumulation loop's sum over a concatenation adds up. */
  lemma {:induction false} SumSelectedAppend(a: seq<Item>, b: seq<Item>, cart: Cart, n: Nutrient)
    requires InCart(a, cart) && InCart(b, cart)
    ensures InCart(a + b, cart)
    ensures SumSelected(a + b, cart, n) == SumSelected(a, cart, n) + SumSelected(b, cart, n)
  {
    var ab := a + b;
    if |b| > 0 {
      var pre := b[..|b| - 1];
      SumSelectedAppend(a, pre, cart, n);
      assert ab[..|ab| - 1] == a + pre;
    } else {
      assert ab == a;
    }
  }

  /** The accumulation loop over the selection computes the reference sum. */
  lemma {:induction false} SumOfSelection(store: seq<Item>, cart: Cart, n: Nutrient)
    ensures SumSelected(Select(store, cart.Keys), cart, n) == CheckoutSum(store, cart, n)
  {
    if |store| > 0 {
      SumOfSelection(store[1..], cart, n);
      var head: seq<Item> := if store[0].slug in cart then [store[0]] else [];
      SumSelectedAppend(head, Select(store[1..], cart.Keys), cart, n);
      if store[0].slug in cart {
        assert head[..0] == [];
      }
    }
  }

  /** An empty cart selects nothing and totals to zero. */
  lemma {:induction false} EmptySelection(store: seq<Item>, cart: Cart)
    requires |cart| == 0
    ensures Select(store, cart.Keys) == []
    ensures CheckoutTotal(store, cart) == Zero
  {
    SelectNone(store, cart.Keys);
    SumOfUnstocked(store, cart, Energy);
    SumOfUnstocked(store, cart, Protein);
    SumOfUnstocked(store, cart, Fat);
    SumOfUnstocked(store, cart, Carbs);
    SumOfUnstocked(store, cart, Salt);
  }

  // ----- The totals -----

  /** A cart none of whose keys the store has sums to zero. */
  lemma {:induction false} SumOfUnstocked(store: seq<Item>, cart: Cart, n: Nutrient)
    requires forall it :: it in store ==> it.slug !in cart
    ensures CheckoutSum(store, cart, n) == 0
  {
    if |store| > 0 {
      assert store[0] in store;
      SumOfUnstocked(store[1..], cart, n);
    }
  }

  /** A cart none of whose keys the store has counts no units. */
  lemma {:induction false} UnitsOfUnstocked(store: seq<Item>, cart: Cart)
    requires forall it :: it in store ==> it.slug !in cart
    ensures CheckoutUnits(store, cart) == 0
  {
    if |store| > 0 {
      assert store[0] in store;
      UnitsOfUnstocked(store[1..], cart);
    }
  }

  /** Sums of two carts with no key in common add up: the checkout sum is a
      sum of one contribution per cart entry. */
  lemma {:induction false} SumOfUnion(store: seq<Item>, c1: Cart, c2: Cart, n: Nutrient)
    requires c1.Keys !! c2.Keys
    ensures CheckoutSum(store, c1 + c2, n) == CheckoutSum(store, c1, n) + CheckoutSum(store, c2, n)
  {
    if |store| > 0 {
      SumOfUnion(store[1..], c1, c2, n);
      if store[0].slug in c1 {
        assert store[0].slug !in c2;
      }
    }
  }

  /** Units of two carts with no key in common add up. */
  lemma {:induction false} UnitsOfUnion(store: seq<Item>, c1: Cart, c2: Cart)
    requires c1.Keys !! c2.Keys
    ensures CheckoutUnits(store, c1 + c2) == CheckoutUnits(store, c1) + CheckoutUnits(store, c2)
  {
    if |store| > 0 {
      UnitsOfUnion(store[1..], c1, c2);
      if store[0].slug in c1 {
        assert store[0].slug !in c2;
      }
    }
  }

  /** With unique slugs, a one-entry cart holding `q` units of store item
      `it` sums to that item's column times `q`. */
  lemma {:induction false} SumOfOne(store: seq<Item>, it: Item, q: int, n: Nutrient)
    requires DistinctSlugs(store) && it in store
    ensures CheckoutSum(store, map[it.slug := q], n) == Amount(it, n) * q
  {
    var one := map[it.slug := q];
    if store[0] == it {
      SumOfUnstocked(store[1..], one, n);
    } else {
      assert store == [store[0]] + store[1..];
      SumOfOne(store[1..], it, q, n);
    }
  }

  /** With unique slugs, a one-entry cart holding `q` units of store item
      `it` counts `q` units. */
  lemma {:induction false} UnitsOfOne(store: seq<Item>, it: Item, q: int)
    requires DistinctSlugs(store) && it in store
    ensures CheckoutUnits(store, map[it.slug := q]) == q
  {
    var one := map[it.slug := q];
    if store[0] == it {
      UnitsOfUnstocked(store[1..], one);
    } else {
      assert store == [store[0]] + store[1..];
      UnitsOfOne(store[1..], it, q);
    }
  }

  /** With unique slugs, the checkout sum of `cart` is that of `cart` without
      store item `it`'s entry plus what `it` contributes. */
  lemma SumWithout(store: seq<Item>, cart: Cart, it: Item, n: Nutrient)
    requires DistinctSlugs(store) && it in store
    ensures CheckoutSum(store, cart, n) == CheckoutSum(store, cart - {it.slug}, n) + Contribution(it, cart, n)
  {
    var s := it.slug;
    var rest := cart - {s};
    if s in cart {
      assert cart == rest + map[s := cart[s]];
      SumOfUnion(store, rest, map[s := cart[s]], n);
      SumOfOne(store, it, cart[s], n);
    } else {
      assert cart == rest;
    }
  }

  /** A cart slug that no store item has is skipped: dropping it from the
      cart changes neither the selected items, nor the totals, nor the
      units. */
  lemma UnstockedSlugIgnored(store: seq<Item>, cart: Cart, k: string)
    requires !Stocked(store, k)
    ensures Select(store, cart.Keys) == Select(store, (cart - {k}).Keys)
    ensures CheckoutTotal(store, cart) == CheckoutTotal(store, cart - {k})
    ensures CheckoutUnits(store, cart) == CheckoutUnits(store, cart - {k})
  {
    var rest := cart - {k};
    SelectSameSlugs(store, cart.Keys, rest.Keys);
    if k in cart {
      var one := map[k := cart[k]];
      assert cart == rest + one;
      UnstockedEntryIgnored(store, rest, one, Energy);
      UnstockedEntryIgnored(store, rest, one, Protein);
      UnstockedEntryIgnored(store, rest, one, Fat);
      UnstockedEntryIgnored(store, rest, one, Carbs);
      UnstockedEntryIgnored(store, rest, one, Salt);
      UnitsOfUnion(store, rest, one);
      UnitsOfUnstocked(store, one);
    } else {
      assert rest == cart;
    }
  }

  lemma {:induction false} UnstockedEntryIgnored(store: seq<Item>, rest: Cart, one: Cart, n: Nutrient)
    requires rest.Keys !! one.Keys
    requires forall it :: it in store ==> it.slug !in one
    ensures CheckoutSum(store, rest + one, n) == CheckoutSum(store, rest, n)
  {
    SumOfUnion(store, rest, one, n);
    SumOfUnstocked(store, one, n);
  }

  /** Adding `qty` units of a slug that no store item has leaves the
      checkout unchanged. */
  lemma {:induction false} AddUnstockedSlug(store: seq<Item>, cart: Cart, s: string, qty: int)
    requires !Stocked(store, s)
    ensures Select(store, Added(cart, Some(s), qty).Keys) == Select(store, cart.Keys)
    ensures CheckoutTotal(store, Added(cart, Some(s), qty)) == CheckoutTotal(store, cart)
  {
    var after := Added(cart, Some(s), qty);
    UnstockedSlugIgnored(store, cart, s);
    UnstockedSlugIgnored(store, after, s);
    assert after - {s} == cart - {s};
  }

  /** Adding `qty` units of store item `it` raises its nutrient sums by the
      item's column times `qty`. */
  lemma AddStockedItem(store: seq<Item>, cart: Cart, it: Item, qty: int, n: Nutrient)
    requires DistinctSlugs(store) && it in store && it.slug != ""
    ensures CheckoutSum(store, Added(cart, Some(it.slug), qty), n)
            == CheckoutSum(store, cart, n) + Amount(it, n) * qty
  {
    var s := it.slug;
    var after := Added(cart, Some(s), qty);
    SumWithout(store, cart, it, n);
    SumWithout(store, after, it, n);
    assert after - {s} == cart - {s};
    var a, q := Amount(it, n), QtyOf(cart, s);
    assert a * (q + qty) == a * q + a * qty;
  }

  /** Removing one unit of store item `it` lowers its nutrient sums by one
      unit's column, or by its whole entry when the quantity was 1 or
      less. */
  lemma RemoveStockedItem(store: seq<Item>, cart: Cart, it: Item, n: Nutrient)
    requires DistinctSlugs(store) && it in store && it.slug in cart
    ensures CheckoutSum(store, Removed(cart, Some(it.slug)), n)
            == CheckoutSum(store, cart, n) - Amount(it, n) * (if cart[it.slug] > 1 then 1 else cart[it.slug])
  {
    var s := it.slug;
    var after := Removed(cart, Some(s));
    SumWithout(store, cart, it, n);
    SumWithout(store, after, it, n);
    assert after - {s} == cart - {s};
    var a, q := Amount(it, n), cart[s];
    assert a * q == a * (q - 1) + a;
  }

  /** Aggregation is linear: multiplying every quantity by `c` multiplies
      every sum by `c`. */
  lemma {:induction false} CheckoutScales(store: seq<Item>, cart: Cart, c: int, n: Nutrient)
    ensures CheckoutSum(store, ScaleCart(cart, c), n) == CheckoutSum(store, cart, n) * c
  {
    if |store| > 0 {
      var first := store[0];
      CheckoutScales(store[1..], cart, c, n);
      if first.slug in cart {
        var a, q := Amount(first, n), cart[first.slug];
        assert a * (q * c) == (a * q) * c;
      }
      var x, y := Contribution(first, cart, n), CheckoutSum(store[1..], cart, n);
      assert (x + y) * c == x * c + y * c;
    }
  }
}
