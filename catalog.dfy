/**
 * The catalog page (src/pages/CatalogPage.tsx): the text search over the
 * fetched products and the category chips. The fetch per category is the
 * backend's and is not part of this model; the page sees its result.
 */
module Catalog {
  import opened Domain
  import opened Text
  import opened Seqs

  /** The category selection the page starts with, and the value the "Todos" chip sets. */
  const AllCategories := "todos"

  /** The lower-cased query in the lower-cased name, or in the lower-cased description when there is one. */
  predicate Matches(p: Product, search: string)
  {
    var q := Lower(search);
    Contains(Lower(p.name), q) || (p.description.Some? && Contains(Lower(p.description.value), q))
  }

  /** `filtered`. */
  function Filtered(products: seq<Product>, search: string): (r: seq<Product>)
    ensures Subseq(r, products)
    ensures forall p :: p in r <==> p in products && Matches(p, search)
  {
    Filter(products, (p: Product) => Matches(p, search))
  }

  /** An empty search shows every fetched product, in order. */
  lemma EmptySearchKeepsAll(products: seq<Product>)
    ensures Filtered(products, "") == products
  {
    var keep := (p: Product) => Matches(p, "");
    forall p | p in products
      ensures keep(p)
    {
      ContainsEmpty(Lower(p.name));
    }
    FilterAll(products, keep);
  }

  lemma {:induction false} ContainsExtended(s: string, q: string, t: string)
    requires Contains(s, q + t)
    ensures Contains(s, q)
    decreases |s|
  {
    if q + t <= s {
      assert q <= s by {
        assert forall i :: 0 <= i < |q| ==> (q + t)[i] == q[i];
      }
    } else {
      ContainsExtended(s[1..], q, t);
    }
  }

  lemma LowerAppend(a: string, b: string)
    ensures Lower(a + b) == Lower(a) + Lower(b)
  {
    assert forall i :: 0 <= i < |a + b| ==> Lower(a + b)[i] == (Lower(a) + Lower(b))[i];
  }

  /** Typing more never brings a product back: what a longer query shows, the shorter one shows too. */
  lemma LongerSearchNarrows(products: seq<Product>, search: string, more: string, p: Product)
    requires p in Filtered(products, search + more)
    ensures p in Filtered(products, search)
  {
    LowerAppend(search, more);
    if Contains(Lower(p.name), Lower(search + more)) {
      ContainsExtended(Lower(p.name), Lower(search), Lower(more));
    } else {
      ContainsExtended(Lower(p.description.value), Lower(search), Lower(more));
    }
  }

  /** The chips: "Todos" and one per category. */
  datatype Chip = AllChip | CategoryChip(category: Category)

  /** The selection a chip sets: "todos" for the first, the category's slug for the others. */
  function ChipValue(chip: Chip): (v: string)
    ensures chip == AllChip ==> v == AllCategories
    ensures chip.CategoryChip? ==> v == chip.category.slug
  {
    match chip
    case AllChip => AllCategories
    case CategoryChip(c) => c.slug
  }

  /** A chip is highlighted when the selection is its value. */
  predicate ChipActive(chip: Chip, selected: string)
  {
    ChipValue(chip) == selected
  }

  /** The chip row: "Todos" first, then the categories in their order. */
  function Chips(categories: seq<Category>): (r: seq<Chip>)
    ensures |r| == |categories| + 1 && r[0] == AllChip
    ensures forall i :: 0 <= i < |categories| ==> r[i + 1] == CategoryChip(categories[i])
  {
    [AllChip] + seq(|categories|, i requires 0 <= i < |categories| => CategoryChip(categories[i]))
  }

  /** Clicking a chip highlights it; on the first visit "Todos" is highlighted, alone unless a category uses that slug. */
  lemma ClickedChipActive(categories: seq<Category>, chip: Chip)
    ensures ChipActive(chip, ChipValue(chip))
    ensures ChipActive(AllChip, AllCategories)
    ensures forall i :: 0 <= i < |Chips(categories)| && i > 0 && ChipActive(Chips(categories)[i], AllCategories) ==>
      categories[i - 1].slug == AllCategories
  {
  }

  /**
   * With distinct slugs, none of them "todos", a selection made by a click
   * highlights exactly that chip, and a selection no chip sets highlights none.
   */
  lemma ExactlyOneChipActive(categories: seq<Category>, k: int)
    requires forall i, j :: 0 <= i < j < |categories| ==> categories[i].slug != categories[j].slug
    requires forall i :: 0 <= i < |categories| ==> categories[i].slug != AllCategories
    requires 0 <= k < |Chips(categories)|
    ensures forall i :: 0 <= i < |Chips(categories)| ==>
      (ChipActive(Chips(categories)[i], ChipValue(Chips(categories)[k])) <==> i == k)
  {
    var chips := Chips(categories);
    forall i | 0 <= i < |chips| && i != k
      ensures !ChipActive(chips[i], ChipValue(chips[k]))
    {
      if i == 0 {
        assert ChipValue(chips[k]) == categories[k - 1].slug;
      } else if k == 0 {
        assert ChipValue(chips[i]) == categories[i - 1].slug;
      } else {
        assert ChipValue(chips[i]) == categories[i - 1].slug && ChipValue(chips[k]) == categories[k - 1].slug;
      }
    }
  }

  /** A selection that is neither "todos" nor any category's slug highlights no chip. */
  lemma UnknownSelectionNoChip(categories: seq<Category>, selected: string)
    requires selected != AllCategories
    requires forall i :: 0 <= i < |categories| ==> categories[i].slug != selected
    ensures forall i :: 0 <= i < |Chips(categories)| ==> !ChipActive(Chips(categories)[i], selected)
  {
    var chips := Chips(categories);
    forall i | 0 <= i < |chips|
      ensures !ChipActive(chips[i], selected)
    {
      if i > 0 {
        assert chips[i] == CategoryChip(categories[i - 1]);
      }
    }
  }
}
