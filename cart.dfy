/** The session shopping cart: a dict from item slug to quantity, kept in the
    visitor's session under the key "cart" and changed by the add, remove and
    clear routes (app/routes.py). */
module SessionCart {
  import opened Menu

  type Cart = map<string, int>

  /** Python truthiness of the `slug` form field: a missing field (None) and
      the empty string are both false. */
  predicate Present(slug: Option<string>)
  {
    slug.Some? && slug.value != ""
  }

  /** `cart.get(slug, 0)` */
  function QtyOf(cart: Cart, slug: string): (q: int)
    ensures q != 0 ==> slug in cart
  {
    if slug in cart then cart[slug] else 0
  }

  /** Every stored quantity is at least 1. */
  predicate Positive(cart: Cart)
  {
    forall k :: k in cart ==> cart[k] >= 1
  }

  /** The cart after `cart_add`: a present slug has its quantity raised by
      `qty` (from 0 when absent); an absent or empty slug changes nothing. */
  function Added(cart: Cart, slug: Option<string>, qty: int): (r: Cart)
    ensures !Present(slug) ==> r == cart
    ensures Present(slug) ==> r.Keys == cart.Keys + {slug.value}
    ensures Present(slug) ==> r[slug.value] == QtyOf(cart, slug.value) + qty
    ensures forall k :: k in cart && !(Present(slug) && k == slug.value) ==> k in r && r[k] == cart[k]
  {
    if Present(slug) then cart[slug.value := QtyOf(cart, slug.value) + qty] else cart
  }

  /** The cart after `cart_remove`: a slug that is a key loses one unit, or
      the whole entry when its quantity is 1 or less; any other slug (None
      included) changes nothing. */
  function Removed(cart: Cart, slug: Option<string>): (r: Cart)
    ensures !(slug.Some? && slug.value in cart) ==> r == cart
    ensures slug.Some? && slug.value in cart && cart[slug.value] > 1 ==>
              r.Keys == cart.Keys && r[slug.value] == cart[slug.value] - 1
    ensures slug.Some? && slug.value in cart && cart[slug.value] <= 1 ==>
              r.Keys == cart.Keys - {slug.value}
    ensures forall k :: k in r ==> k in cart
    ensures forall k :: k in cart && !(slug.Some? && k == slug.value) ==> k in r && r[k] == cart[k]
  {
    if slug.Some? && slug.value in cart then
      if cart[slug.value] > 1 then cart[slug.value := cart[slug.value] - 1]
      else cart - {slug.value}
    else cart
  }

  /** The visitor's session, reduced to its "cart" entry. */
  class Session {
    /** `session["cart"]`; None while the session holds no cart. */
    var cart: Option<Cart>

    /** `session.get("cart", {})` */
    function Current(): (c: Cart)
      reads this
      ensures cart.None? ==> c == map[]
      ensures cart.Some? ==> c == cart.value
    {
      if cart.Some? then cart.value else map[]
    }

    /** Only a truthy slug is ever written as a key. */
    predicate Valid()
      reads this
    {
      "" !in Current()
    }

    /** A fresh session holds no cart. */
    constructor ()
      ensures cart == None && Current() == map[] && Valid()
    {
      cart := None;
    }

    /** POST /cart/add with form fields `slug` and `qty` (already converted
        by `int(...)`; the route's default is 1). */
    method CartAdd(slug: Option<string>, qty: int)
      requires Valid()
      modifies this
      ensures Valid()
      ensures Current() == Added(old(Current()), slug, qty)
      ensures cart == if Present(slug) then Some(Current()) else old(cart)
    {
      var c := Current();
      if slug.Some? && slug.value != "" {
        var s := slug.value;
        var prev := if s in c then c[s] else 0;
        c := c[s := prev + qty];
        cart := Some(c);
      }
    }

    /** POST /cart/remove with form field `slug`. */
    method CartRemove(slug: Option<string>)
      requires Valid()
      modifies this
      ensures Valid()
      ensures Current() == Removed(old(Current()), slug)
      ensures cart == if slug.Some? && slug.value in old(Current()) then Some(Current()) else old(cart)
    {
      var c := Current();
      if slug.Some? && slug.value in c {
        var s := slug.value;
        if c[s] > 1 {
          c := c[s := c[s] - 1];
        } else {
          c := c - {s};
        }
        cart := Some(c);
      }
    }

    /** POST /cart/clear: `session.pop("cart", None)`. */
    method CartClear()
      modifies this
      ensures cart == None && Current() == map[] && Valid()
    {
      cart := None;
    }
  }

  /** Adding one unit and then removing one unit of `s` gives back the cart
      exactly when `s` was absent or held at least one unit; from a stored
      quantity of 0 or less the pair deletes the entry instead. */
  lemma AddOneThenRemove(cart: Cart, s: string)
    requires s != ""
    ensures Removed(Added(cart, Some(s), 1), Some(s)) == cart <==> (s !in cart || cart[s] >= 1)
  {
  }

  /** With positive quantities, an add keeps them positive exactly when the
      entry it writes ends at 1 or more; the route itself does not check
      the sign of `qty`. */
  lemma AddKeepsPositiveIff(cart: Cart, slug: Option<string>, qty: int)
    requires Positive(cart) && Present(slug)
    ensures Positive(Added(cart, slug, qty)) <==> QtyOf(cart, slug.value) + qty >= 1
  {
  }

  /** A remove never stores a quantity below 1 where there was none. */
  lemma RemoveKeepsPositive(cart: Cart, slug: Option<string>)
    requires Positive(cart)
    ensures Positive(Removed(cart, slug))
  {
  }

  /** Removing an entry of quantity 1 or less deletes it, and removing it
      again changes nothing. */
  lemma RemoveLastUnitTwice(cart: Cart, s: string)
    requires s in cart && cart[s] <= 1
    ensures s !in Removed(cart, Some(s))
    ensures Removed(Removed(cart, Some(s)), Some(s)) == Removed(cart, Some(s))
  {
  }
}
