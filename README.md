# Session cart of the menu nutrition app

This project models the shopping cart of a small Flask application. The application shows a fast-food menu and adds up the nutrients of what a visitor puts in the cart.

The cart lives in the visitor's session under the key `"cart"`. It maps an item slug to an integer quantity. Three routes change it:

- `POST /cart/add` adds `qty` units of a slug. A missing or empty slug changes nothing.
- `POST /cart/remove` takes away one unit. It deletes the entry when the quantity is 1 or less, and a slug that is not a key changes nothing.
- `POST /cart/clear` drops the cart from the session.

Two read-side computations join the cart against the rows of the `items` table:

- The checkout view (`GET /check`) keeps the store items whose slug is in the cart, in store order. It sums energy, protein, fat, carbohydrate and salt, each column times the item's quantity.
- The header summary (`inject_cart_summary`) walks the cart. It resolves each slug through a slug-to-row index, skips slugs that do not resolve, and sums the unit count, kcal and protein.

Files:

- `menu.dfy` (module `Menu`): an `items` row, the five summed nutrients, and the `total` dict.
- `cart.dfy` (module `SessionCart`):
  - the cart operations as functions `Added` and `Removed`;
  - the session as a class whose `cart` field is `None` when the session holds no cart;
  - the routes as methods on that class.
- `checkout.dfy` (module `Checkout`):
  - the selection comprehension;
  - a reference sum over the store;
  - the accumulation loop of `check_view` as a method proved against that sum;
  - lemmas on how the totals move when the cart changes.
- `summary.dfy` (module `HeaderSummary`):
  - the `by_slug` index;
  - the summary loop as a method that visits the cart's keys in an arbitrary order;
  - proof that the result is the same for every order;
  - proof that, with unique slugs, it agrees with the checkout totals.

Quantities are `int`. The add route converts `qty` with `int(...)` and does not check its sign.

The code does not keep quantities positive: `cart_add` does not check the sign of `qty`, so it stores a zero or negative quantity whenever the old quantity (0 when absent) plus `qty` is 0 or less. The model follows the code:

- `AddKeepsPositiveIff` states exactly when an add keeps all quantities positive.
- `RemoveKeepsPositive` shows that a remove never breaks positivity.

Adding one unit and then removing one unit does not always give back the cart. When the slug holds 0 or less, the add leaves it at 1 or less and the remove deletes the entry. `AddOneThenRemove` proves the exact condition: the slug was absent or held at least 1.

The docstring of `cart_add` (app/routes.py:48) says it adds one unit, but line 53 adds `qty` units. The model follows the code: `Added` and `CartAdd` take `qty`, and one unit is the case `qty` = 1.

## Model

| member | source | states |
|---|---|---|
| SessionCart.QtyOf | app/routes.py:53 | `cart.get(slug, 0)`: a slug that is not a key reads as 0, so a nonzero quantity means the slug is a key |
| SessionCart.Session.Current | app/routes.py:51 | `session.get("cart", {})`: a session without a cart reads as the empty cart, otherwise as the stored cart |
| Menu.DistinctSlugsPairwise | app/db.py:86 | the unique-slug condition used by the checkout and summary lemmas holds exactly when no two rows, at any positions, share a slug (`slug TEXT UNIQUE`) |
| SessionCart.Added | app/routes.py:49-54 | a present slug's entry becomes its old quantity (0 when absent) plus `qty`, and the keys gain that slug; every other entry is unchanged; a missing or empty slug leaves the cart unchanged |
| SessionCart.Removed | app/routes.py:60-67 | a slug that is not a key (or no slug) leaves the cart unchanged; a quantity above 1 drops by exactly 1 with the same keys; a quantity of 1 or less deletes the key; no key is added and no other entry changes |
| SessionCart.Session.constructor | app/routes.py:51 | a fresh session holds no cart and reads as the empty cart |
| SessionCart.Session.CartAdd | app/routes.py:49-54 | the session's cart becomes `Added` of the old one; it is written back only when the slug is truthy; no empty-string key is ever stored |
| SessionCart.Session.CartRemove | app/routes.py:60-67 | the session's cart becomes `Removed` of the old one; it is written back only when the slug is a key |
| SessionCart.Session.CartClear | app/routes.py:95 | the session holds no cart afterwards and reads as empty |
| SessionCart.AddOneThenRemove | app/routes.py:52-66 | add one unit then remove one unit gives back the cart exactly when the slug was absent or held at least 1 |
| SessionCart.AddKeepsPositiveIff | app/routes.py:50-53 | from positive quantities, an add keeps all of them positive exactly when the written entry ends at 1 or more |
| SessionCart.RemoveKeepsPositive | app/routes.py:62-66 | a remove applied to positive quantities leaves them positive, so it never stores zero |
| SessionCart.RemoveLastUnitTwice | app/routes.py:62-66 | removing an entry of quantity 1 or less deletes it, and removing it again is a no-op |
| Checkout.Select | app/routes.py:79 | the selection is no longer than the store and every selected item's slug is a cart key |
| Checkout.CheckView | app/routes.py:71-90 | an empty cart gives no items and all-zero totals; otherwise the items are the store items whose slug is a key, as a subsequence of the store in store order, and each total is the reference sum over the store of column times quantity |
| Checkout.SelectIsSubsequence | app/routes.py:79 | the selection is a subsequence of the store |
| Checkout.SelectMembers | app/routes.py:79 | an item is selected if and only if it is in the store and its slug is a cart key |
| Checkout.SelectSameSlugs | app/routes.py:79 | the selection depends only on which store slugs are cart keys |
| Checkout.SelectNone | app/routes.py:79 | when no store slug is a key, nothing is selected |
| Checkout.SumSelectedAppend | app/routes.py:82-88 | the loop's sum over two consecutive runs of items is the sum of the two |
| Checkout.SumOfSelection | app/routes.py:79-88 | the accumulation loop over the selection equals the reference sum over the store |
| Checkout.EmptySelection | app/routes.py:74-76 | an empty cart selects nothing and its totals are all zero |
| Checkout.SumOfUnstocked | app/routes.py:79-88 | a cart with no key the store has sums to zero |
| Checkout.UnitsOfUnstocked | app/routes.py:112-116 | a cart with no key the store has counts no units |
| Checkout.SumOfUnion | app/routes.py:82-88 | the sums of two carts with disjoint keys add up |
| Checkout.UnitsOfUnion | app/routes.py:112-116 | the units of two carts with disjoint keys add up |
| Checkout.SumOfOne | app/routes.py:82-88 | with unique slugs, a one-entry cart of `q` units of a store item sums to that item's column times `q` |
| Checkout.UnitsOfOne | app/routes.py:112-116 | with unique slugs, a one-entry cart of `q` units of a store item counts `q` units |
| Checkout.SumWithout | app/routes.py:82-88 | with unique slugs, a cart's sum is the sum without one item's entry plus that item's contribution |
| Checkout.UnstockedSlugIgnored | app/routes.py:79-88 | dropping a slug no store item has changes neither the selection, the totals nor the units |
| Checkout.AddUnstockedSlug | app/routes.py:52-88 | adding a slug no store item has leaves the checkout items and totals unchanged |
| Checkout.AddStockedItem | app/routes.py:52-88 | adding `qty` units of a store item raises each total by that item's column times `qty` |
| Checkout.RemoveStockedItem | app/routes.py:62-88 | removing a unit of a store item lowers each total by one unit's column, or by the whole entry when its quantity was 1 or less |
| Checkout.CheckoutScales | app/routes.py:82-88 | multiplying every quantity by `c` multiplies every total by `c` |
| HeaderSummary.BySlug | app/routes.py:111 | the index has a slug exactly when some store row has it, and maps it to a store row carrying that slug |
| HeaderSummary.BySlugLast | app/routes.py:111 | a slug maps to the last row that carries it |
| HeaderSummary.BySlugUnique | app/db.py:86 | with unique slugs, every store item is what its own slug resolves to |
| HeaderSummary.InjectCartSummary | app/routes.py:107-119 | an empty cart gives count 0, kcal 0, protein 0; otherwise, whatever order the cart's keys are visited in, the result is the tally over that order of the resolved entries only; with unique slugs, the count is the checkout's units, the kcal its `energy_kcal` total and the protein its `protein_g` total |
| HeaderSummary.EnumerationExists | app/routes.py:112 | every cart has an iteration order listing each key once, so the order-independent result above is always determined |
| HeaderSummary.ClearThenSummarize | app/routes.py:95-108 | after clear the session holds no cart and the summary is count 0, kcal 0, protein 0 |
| HeaderSummary.TallyAppend | app/routes.py:112-118 | the tally over two consecutive runs of keys is the sum of the two |
| HeaderSummary.TallyRemoveAt | app/routes.py:112-118 | taking one key out of an order takes away exactly its contribution |
| HeaderSummary.TallyPermutation | app/routes.py:112-118 | two duplicate-free orders of the same keys give the same summary entry |
| HeaderSummary.TallyIsCheckoutSum | app/routes.py:112-118 | with unique slugs, the kcal or protein tally over some cart keys equals the checkout sum of the cart restricted to those keys |
| HeaderSummary.TallyIsCheckoutUnits | app/routes.py:112-116 | with unique slugs, the count over some cart keys equals the checkout units of the cart restricted to those keys |
| HeaderSummary.SummaryMatchesCheckout | app/routes.py:107-118 | with unique slugs, the summary's count is the checkout units, its kcal the checkout `energy_kcal` total and its protein the checkout `protein_g` total |

## Left out

- Reading `request.form`, `redirect`/`request.referrer`, `render_template` and the menu page (`menu_view`): request and presentation I/O. Each route method takes its form fields as parameters: the slug as an optional string, `qty` as an integer.
- The default `qty` of 1 when the field is missing belongs to the caller. The `ValueError` that `int(...)` raises on a malformed `qty` is input parsing at the HTTP boundary and is not modelled.
- Session storage: serialization, cookie signing and expiry are not modelled. The `Session` class keeps only its `"cart"` entry.
- Concurrent requests on one session (last write wins) are not modelled.
- The database layer (`get_db`, `close_db`, `list_categories`, `ensure_schema`) and the SQL filtering and `ORDER BY name` of `list_items` are library behaviour. The item store is passed in as a sequence of rows in whatever order the query returned them.
- A NULL slug, which `slug TEXT UNIQUE` allows, is not modelled: every row's slug is a string.
- Dict iteration order of `cart.items()` is not modelled. The summary loop picks any remaining key, and the result is proved the same for every order.
- `if not it` in the summary loop is modelled as "the slug does not resolve": a row is always truthy.
- Checkout.CheckView: fat, carbohydrate, protein and salt are REAL columns and are summed as exact integers here. Float rounding and accumulation order are not modelled.
- HeaderSummary.InjectCartSummary: `protein` is accumulated as an exact integer, not through `float(...)`. The model assumes every stored `energy_kcal` is a whole number, so `int(...)` changes nothing. SQLite's INTEGER affinity would still store a value such as 250.5 as REAL; `int(...)` would truncate it in the summary, while the checkout would not. The kcal equality of `SummaryMatchesCheckout` and `InjectCartSummary` rests on this assumption.
