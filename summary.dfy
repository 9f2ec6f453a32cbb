/** The cart summary injected into every template (`inject_cart_summary`):
    the number of units in the cart and their kcal and protein, counting only
    the cart slugs that resolve to a store item. */
module HeaderSummary {
  import opened Menu
  import opened SessionCart
  import opened Checkout

  /** The `cart_summary` dict: `count`, `kcal` and `protein`. */
  datatype Summary = Summary(count: int, kcal: int, protein: int)

  /** What one resolved unit adds to a summary entry: 1 to `count`, the
      item's column to `kcal` (`Of(Energy)`) and `protein` (`Of(Protein)`). */
  datatype Weight = Unit | Of(n: Nutrient)

  function WeightOf(it: Item, w: Weight): int
  {
    match w
    case Unit => 1
    case Of(n) => Amount(it, n)
  }

  /** `{it["slug"]: it for it in items}`: a later row with the same slug
      replaces an earlier one, so each slug maps to its last row. */
  function BySlug(items: seq<Item>): (r: map<string, Item>)
    ensures forall k :: k in r <==> Stocked(items, k)
    ensures forall k :: k in r ==> r[k] in items && r[k].slug == k
  {
    if |items| == 0 then map[]
    else
      var later := BySlug(items[1..]);
      assert forall it :: it in items[1..] ==> it in items;
      if items[0].slug in later then later else later[items[0].slug := items[0]]
  }

  /** No key is listed twice. */
  predicate Distinct(order: seq<string>)
  {
    forall i, j :: 0 <= i < j < |order| ==> order[i] != order[j]
  }

  /** `order` is an iteration order of the cart: every key exactly once. */
  predicate Enumerates(order: seq<string>, cart: Cart)
  {
    Distinct(order) && (forall k :: k in order ==> k in cart) && (forall k :: k in cart ==> k in order)
  }

  /** What cart key `k` adds to a summary entry: nothing when the key does
      not resolve through `index`, else the weight times its quantity. */
  function Contrib(k: string, cart: Cart, index: map<string, Item>, w: Weight): int
  {
    if k in index then WeightOf(index[k], w) * QtyOf(cart, k) else 0
  }

  /** A summary entry once the loop has visited the keys of `order`. */
  function Tally(order: seq<string>, cart: Cart, index: map<string, Item>, w: Weight): int
  {
    if |order| == 0 then 0
    else Tally(order[..|order| - 1], cart, index, w) + Contrib(order[|order| - 1], cart, index, w)
  }

  /** The summary after the loop has visited the keys of `order`. */
  function SummaryOf(order: seq<string>, cart: Cart, index: map<string, Item>): Summary
  {
    Summary(Tally(order, cart, index, Unit), Tally(order, cart, index, Of(Energy)),
            Tally(order, cart, index, Of(Protein)))
  }

  /** `inject_cart_summary` with `cart` as `session.get("cart", {})` and
      `store` as `list_items()`. The cart's keys are visited in an order the
      model does not fix; the result is the same for every order. */
  method InjectCartSummary(cart: Cart, store: seq<Item>) returns (summary: Summary)
    ensures forall order :: Enumerates(order, cart) ==> summary == SummaryOf(order, cart, BySlug(store))
    ensures |cart| == 0 ==> summary == Summary(0, 0, 0)
    ensures DistinctSlugs(store) ==>
              summary.count == CheckoutUnits(store, cart)
              && summary.kcal == CheckoutTotal(store, cart).energyKcal
              && summary.protein == CheckoutTotal(store, cart).proteinG
  {
    summary := Summary(0, 0, 0);
    if |cart| == 0 {
      UnitsOfUnstocked(store, cart);
      SumOfUnstocked(store, cart, Energy);
      SumOfUnstocked(store, cart, Protein);
      return;
    }
    var bySlug := BySlug(store);
    var remaining := cart.Keys;
    ghost var visited: seq<string> := [];
    while remaining != {}
      invariant Distinct(visited)
      invariant forall k :: k in visited ==> k in cart
      invariant forall k :: k in cart ==> (k in visited <==> k !in remaining)
      invariant forall k :: k in remaining ==> k in cart
      invariant summary.count == Tally(visited, cart, bySlug, Unit)
      invariant summary.kcal == Tally(visited, cart, bySlug, Of(Energy))
      invariant summary.protein == Tally(visited, cart, bySlug, Of(Protein))
      decreases |remaining|
    {
      var slug :| slug in remaining;
      var qty := cart[slug];
      ghost var before := visited;
      visited := visited + [slug];
      remaining := remaining - {slug};
      assert visited[..|visited| - 1] == before;
      if slug !in bySlug {
        continue;
      }
      var it := bySlug[slug];
      summary := Summary(summary.count + qty, summary.kcal + it.energyKcal * qty,
                         summary.protein + it.proteinG * qty);
    }
    forall order | Enumerates(order, cart)
      ensures summary == SummaryOf(order, cart, bySlug)
    {
      TallyPermutation(visited, order, cart, bySlug, Unit);
      TallyPermutation(visited, order, cart, bySlug, Of(Energy));
      TallyPermutation(visited, order, cart, bySlug, Of(Protein));
    }
    if DistinctSlugs(store) {
      SummaryMatchesCheckout(store, cart, visited);
    }
  }

  /** POST /cart/clear followed by the summary of the next page: zero units,
      zero kcal, zero protein. */
  method ClearThenSummarize(s: Session, store: seq<Item>) returns (summary: Summary)
    modifies s
    ensures s.cart == None
    ensures summary == Summary(0, 0, 0)
  {
    s.CartClear();
    summary := InjectCartSummary(s.Current(), store);
  }

  // ----- The slug index -----

  /** Each slug maps to the last row that carries it. */
  lemma {:induction false} BySlugLast(items: seq<Item>, i: nat)
    requires i < |items|
    requires forall j :: i < j < |items| ==> items[j].slug != items[i].slug
    ensures BySlug(items)[items[i].slug] == items[i]
  {
    if i > 0 {
      forall j | i - 1 < j < |items[1..]|
        ensures items[1..][j].slug != items[1..][i - 1].slug
      {
        assert items[1..][j] == items[j + 1];
      }
      BySlugLast(items[1..], i - 1);
    }
  }

  /** With unique slugs, every store item is what its slug resolves to. */
  lemma {:induction false} BySlugUnique(items: seq<Item>, it: Item)
    requires DistinctSlugs(items) && it in items
    ensures it.slug in BySlug(items) && BySlug(items)[it.slug] == it
  {
    if items[0] != it {
      assert items == [items[0]] + items[1..];
      BySlugUnique(items[1..], it);
    } else {
      assert !Stocked(items[1..], it.slug);
    }
  }

  // ----- Independence of the iteration order -----

  /** The summary over two consecutive runs of keys adds up. */
  lemma {:induction false} TallyAppend(a: seq<string>, b: seq<string>, cart: Cart, index: map<string, Item>, w: Weight)
    ensures Tally(a + b, cart, index, w) == Tally(a, cart, index, w) + Tally(b, cart, index, w)
  {
    if |b| > 0 {
      var ab := a + b;
      TallyAppend(a, b[..|b| - 1], cart, index, w);
      assert ab[..|ab| - 1] == a + b[..|b| - 1];
    } else {
      assert a + b == a;
    }
  }

  /** Taking one key out of the middle of an order takes away exactly its
      contribution. */
  lemma TallyRemoveAt(b: seq<string>, j: nat, cart: Cart, index: map<string, Item>, w: Weight)
    requires j < |b|
    ensures Tally(b, cart, index, w)
            == Tally(b[..j] + b[j + 1..], cart, index, w) + Contrib(b[j], cart, index, w)
  {
    assert b == (b[..j] + [b[j]]) + b[j + 1..];
    TallyAppend(b[..j] + [b[j]], b[j + 1..], cart, index, w);
    TallyAppend(b[..j], [b[j]], cart, index, w);
    TallyAppend(b[..j], b[j + 1..], cart, index, w);
    assert [b[j]][..0] == [];
  }

  /** Two duplicate-free orders of the same keys give the same summary entry:
      the order in which the cart is walked does not matter. */
  lemma {:induction false} TallyPermutation(a: seq<string>, b: seq<string>, cart: Cart, index: map<string, Item>, w: Weight)
    requires Distinct(a) && Distinct(b)
    requires forall k :: k in a <==> k in b
    ensures Tally(a, cart, index, w) == Tally(b, cart, index, w)
    decreases |a|
  {
    if |a| == 0 {
      assert forall i | 0 <= i < |b| :: b[i] in b;
    } else {
      var x := a[|a| - 1];
      assert x in b;
      var j :| 0 <= j < |b| && b[j] == x;
      DropAt(a, |a| - 1);
      DropAt(b, j);
      var a', b' := a[..|a| - 1], b[..j] + b[j + 1..];
      assert a' + a[|a|..] == a';
      forall k
        ensures k in a' <==> k in b'
      {
        assert k in a <==> k in b;
      }
      TallyPermutation(a', b', cart, index, w);
      TallyRemoveAt(b, j, cart, index, w);
    }
  }

  /** Dropping the key at position `j` of a duplicate-free order leaves a
      duplicate-free order of the other keys. */
  lemma DropAt(b: seq<string>, j: nat)
    requires Distinct(b) && j < |b|
    ensures Distinct(b[..j] + b[j + 1..])
    ensures forall k :: k in b[..j] + b[j + 1..] <==> k in b && k != b[j]
  {
  }

  /** Every cart has an iteration order: its keys listed once each. */
  lemma {:induction false} EnumerationExists(cart: Cart) returns (order: seq<string>)
    ensures Enumerates(order, cart)
    decreases |cart|
  {
    if |cart| == 0 {
      order := [];
    } else {
      var k :| k in cart;
      var rest := map x | x in cart && x != k :: cart[x];
      assert cart.Keys == rest.Keys + {k} && k !in rest.Keys;
      var pre := EnumerationExists(rest);
      order := pre + [k];
      assert forall x :: x in order <==> x in pre || x == k;
      forall i, j | 0 <= i < j < |order|
        ensures order[i] != order[j]
      {
        if j == |pre| {
          assert order[i] in pre;
        } else {
          assert order[i] == pre[i] && order[j] == pre[j];
        }
      }
    }
  }

  // ----- Agreement with the checkout view -----

  /** The part of `cart` whose keys are listed in `order`. */
  function Restrict(cart: Cart, order: seq<string>): Cart
  {
    map k | k in cart && k in order :: cart[k]
  }

  /** Over a prefix of the walk, each nutrient entry of the summary is the
      checkout sum of the cart entries visited so far. */
  lemma {:induction false} TallyIsCheckoutSum(store: seq<Item>, cart: Cart, order: seq<string>, n: Nutrient)
    requires DistinctSlugs(store) && Distinct(order)
    ensures Tally(order, cart, BySlug(store), Of(n)) == CheckoutSum(store, Restrict(cart, order), n)
  {
    if |order| == 0 {
      SumOfUnstocked(store, Restrict(cart, order), n);
    } else {
      var x := order[|order| - 1];
      var pre := order[..|order| - 1];
      TallyIsCheckoutSum(store, cart, pre, n);
      RestrictLast(cart, order);
      if x in cart {
        var one := map[x := cart[x]];
        SumOfUnion(store, Restrict(cart, pre), one, n);
        KeySum(store, x, cart[x], n);
      }
    }
  }

  /** Over a prefix of the walk, the summary count is the checkout units of
      the cart entries visited so far. */
  lemma {:induction false} TallyIsCheckoutUnits(store: seq<Item>, cart: Cart, order: seq<string>)
    requires DistinctSlugs(store) && Distinct(order)
    ensures Tally(order, cart, BySlug(store), Unit) == CheckoutUnits(store, Restrict(cart, order))
  {
    if |order| == 0 {
      UnitsOfUnstocked(store, Restrict(cart, order));
    } else {
      var x := order[|order| - 1];
      var pre := order[..|order| - 1];
      TallyIsCheckoutUnits(store, cart, pre);
      RestrictLast(cart, order);
      if x in cart {
        var one := map[x := cart[x]];
        UnitsOfUnion(store, Restrict(cart, pre), one);
        KeyUnits(store, x, cart[x]);
      }
    }
  }

  /** Restricting to one more, not yet listed key adds that key's entry. */
  lemma RestrictLast(cart: Cart, order: seq<string>)
    requires Distinct(order) && |order| > 0
    ensures var x, pre := order[|order| - 1], order[..|order| - 1];
            if x in cart then Restrict(cart, pre).Keys !! {x} && Restrict(cart, order) == Restrict(cart, pre) + map[x := cart[x]]
            else Restrict(cart, order) == Restrict(cart, pre)
  {
  }

  /** One cart key's entry alone, as the checkout sums it, is what the
      summary adds for it. */
  lemma {:induction false} KeySum(store: seq<Item>, x: string, q: int, n: Nutrient)
    requires DistinctSlugs(store)
    ensures CheckoutSum(store, map[x := q], n) == Contrib(x, map[x := q], BySlug(store), Of(n))
  {
    var index := BySlug(store);
    if x in index {
      SumOfOne(store, index[x], q, n);
    } else {
      SumOfUnstocked(store, map[x := q], n);
    }
  }

  /** One cart key's entry alone, as the checkout counts it, is what the
      summary counts for it. */
  lemma {:induction false} KeyUnits(store: seq<Item>, x: string, q: int)
    requires DistinctSlugs(store)
    ensures CheckoutUnits(store, map[x := q]) == Contrib(x, map[x := q], BySlug(store), Unit)
  {
    var index := BySlug(store);
    if x in index {
      UnitsOfOne(store, index[x], q);
    } else {
      UnitsOfUnstocked(store, map[x := q]);
    }
  }

  /** With unique store slugs, the header summary agrees with the checkout
      view: `count` is the checkout's units, `kcal` its `energy_kcal` total
      and `protein` its `protein_g` total. */
  lemma SummaryMatchesCheckout(store: seq<Item>, cart: Cart, order: seq<string>)
    requires DistinctSlugs(store) && Enumerates(order, cart)
    ensures SummaryOf(order, cart, BySlug(store)).count == CheckoutUnits(store, cart)
    ensures SummaryOf(order, cart, BySlug(store)).kcal == CheckoutTotal(store, cart).energyKcal
    ensures SummaryOf(order, cart, BySlug(store)).protein == CheckoutTotal(store, cart).proteinG
  {
    assert Restrict(cart, order) == cart;
    TallyIsCheckoutUnits(store, cart, order);
    TallyIsCheckoutSum(store, cart, order, Energy);
    TallyIsCheckoutSum(store, cart, order, Protein);
  }
}
