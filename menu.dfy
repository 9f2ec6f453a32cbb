/** Menu items as the `items` table stores them, and the nutrient totals the
    cart views add up. The REAL gram columns are held as integers (a fixed
    unit), so sums are exact; `energy_kcal` is an INTEGER column already. */
module Menu {

  datatype Option<T> = None | Some(value: T)

  /** One row of the `items` table (app/db.py, SCHEMA_SQL). `slug` is the
      UNIQUE column the cart is keyed by. */
  datatype Item = Item(
    slug: string,
    name: string,
    category: string,
    energyKcal: int,
    fatG: int,
    satFatG: int,
    carbsG: int,
    sugarsG: int,
    fiberG: int,
    proteinG: int,
    saltG: int,
    servingLabel: string)

  /** The five nutrient columns the checkout view adds up. */
  datatype Nutrient = Energy | Protein | Fat | Carbs | Salt

  /** The column of row `it` that nutrient `n` names. */
  function Amount(it: Item, n: Nutrient): int
  {
    match n
    case Energy => it.energyKcal
    case Protein => it.proteinG
    case Fat => it.fatG
    case Carbs => it.carbsG
    case Salt => it.saltG
  }

  /** The `total` dict of the checkout view: five nutrient sums. */
  datatype Totals = Totals(energyKcal: int, proteinG: int, fatG: int, carbsG: int, saltG: int)

  /** `dict(energy_kcal=0, protein_g=0, fat_g=0, carbs_g=0, salt_g=0)` */
  const Zero := Totals(0, 0, 0, 0, 0)

  /** The slug column holds no repeated value (`slug TEXT UNIQUE`): no later
      row repeats the first row's slug, and the same holds of the rest. */
  predicate DistinctSlugs(items: seq<Item>)
  {
    |items| == 0 ||
    ((forall it :: it in items[1..] ==> it.slug != items[0].slug) && DistinctSlugs(items[1..]))
  }

  /** `DistinctSlugs` is the column constraint itself: no two rows, at any
      positions, share a slug. */
  lemma {:induction false} DistinctSlugsPairwise(items: seq<Item>)
    ensures DistinctSlugs(items) <==>
            forall i, j :: 0 <= i < j < |items| ==> items[i].slug != items[j].slug
  {
    if |items| > 0 {
      var rest := items[1..];
      DistinctSlugsPairwise(rest);
      if DistinctSlugs(items) {
        forall i, j | 0 <= i < j < |items|
          ensures items[i].slug != items[j].slug
        {
          assert items[j] == rest[j - 1];
          if i > 0 {
            assert items[i] == rest[i - 1];
          } else {
            assert items[j] in rest;
          }
        }
      }
      if forall i, j :: 0 <= i < j < |items| ==> items[i].slug != items[j].slug {
        forall it | it in rest
          ensures it.slug != items[0].slug
        {
          var j :| 0 <= j < |rest| && rest[j] == it;
          assert items[j + 1] == it;
        }
        forall i, j | 0 <= i < j < |rest|
          ensures rest[i].slug != rest[j].slug
        {
          assert rest[i] == items[i + 1] && rest[j] == items[j + 1];
        }
      }
    }
  }

  /** True when some row of `items` has slug `k`. */
  predicate Stocked(items: seq<Item>, k: string)
  {
    exists it :: it in items && it.slug == k
  }
}
