/**
 * The home-page product catalogue: category buttons ("All" followed by the
 * distinct categories in order of first appearance) and the category filter.
 * The category functions are generic in the product record so that the
 * products page, which keeps a richer record, shares them.
 */
module Products {
  import opened Types
  import Seqs
  import Constants

  /** `['All', ...Array.from(new Set(cats))]`. */
  function CategoryButtons(cats: seq<string>): (r: seq<string>)
    ensures |r| >= 1 && r[0] == "All" && r[1..] == Seqs.Distinct(cats)
    ensures forall i | 1 <= i < |r| :: r[i] in cats
    ensures Seqs.NoDuplicates(r[1..])
  {
    ["All"] + Seqs.Distinct(cats)
  }

  /** A category other than "All" gets exactly one button, after the "All" button. */
  lemma CategoryButtonsOnce(cats: seq<string>, c: string)
    requires c in cats && c != "All"
    ensures exists i :: 1 <= i < |CategoryButtons(cats)| && CategoryButtons(cats)[i] == c
    ensures forall i, j | 0 <= i < |CategoryButtons(cats)| && 0 <= j < |CategoryButtons(cats)|
      && CategoryButtons(cats)[i] == c && CategoryButtons(cats)[j] == c :: i == j
  {
    var r := CategoryButtons(cats);
    var d := Seqs.Distinct(cats);
    Seqs.DistinctOnce(cats, c);
    var k :| 0 <= k < |d| && d[k] == c;
    assert r[k + 1] == c;
    forall i, j | 0 <= i < |r| && 0 <= j < |r| && r[i] == c && r[j] == c
      ensures i == j
    {
      assert i > 0 && j > 0;
      assert d[i - 1] == c && d[j - 1] == c;
    }
  }

  /** The category buttons after "All" come in the order the categories first appear. */
  lemma CategoryButtonsOrder(cats: seq<string>)
    ensures forall i, j | 1 <= i < j < |CategoryButtons(cats)| ::
      Seqs.Before(cats, CategoryButtons(cats)[i], CategoryButtons(cats)[j])
  {
    var r := CategoryButtons(cats);
    var d := Seqs.Distinct(cats);
    Seqs.DistinctFirstAppearanceOrder(cats);
    forall i, j | 1 <= i < j < |r|
      ensures Seqs.Before(cats, r[i], r[j])
    {
      assert r[i] == d[i - 1] && r[j] == d[j - 1];
    }
  }

  /** `filteredProducts`: every item under "All", otherwise the items of that category, in order. */
  function ByCategory<P>(filter: string, items: seq<P>, category: P -> string): (r: seq<P>)
    ensures |r| <= |items|
    ensures forall i | 0 <= i < |r| :: r[i] in items && (filter == "All" || category(r[i]) == filter)
  {
    if filter == "All" then items else Seqs.Filter(items, x => category(x) == filter)
  }

  /** An item is listed exactly when it is in the catalogue and the filter is "All" or its own category. */
  lemma ByCategoryExactly<P>(filter: string, items: seq<P>, category: P -> string, x: P)
    ensures x in ByCategory(filter, items, category) <==> x in items && (filter == "All" || category(x) == filter)
  {
    var r := ByCategory(filter, items, category);
    if x in r {
      var i :| 0 <= i < |r| && r[i] == x;
    } else if x in items && filter != "All" && category(x) == filter {
      Seqs.FilterComplete(items, y => category(y) == filter, x);
    }
  }

  /** Filtering by category keeps catalogue order. */
  lemma ByCategoryInOrder<P>(filter: string, items: seq<P>, category: P -> string)
    ensures Seqs.IsSubsequence(ByCategory(filter, items, category), items)
  {
    if filter == "All" {
      Seqs.FilterKeepsAll(items, (x: P) => true);
      Seqs.FilterIsSubsequence(items, (x: P) => true);
    } else {
      Seqs.FilterIsSubsequence(items, x => category(x) == filter);
    }
  }

  /** The category buttons of a catalogue. */
  function ButtonsFor<P>(items: seq<P>, category: P -> string): seq<string> {
    CategoryButtons(Seqs.Map(items, category))
  }

  /** No category button of a non-empty catalogue shows an empty list. */
  lemma EveryButtonListsSomething<P>(items: seq<P>, category: P -> string, b: nat)
    requires |items| > 0
    requires b < |ButtonsFor(items, category)|
    ensures |ByCategory(ButtonsFor(items, category)[b], items, category)| > 0
  {
    var cats := Seqs.Map(items, category);
    var button := CategoryButtons(cats)[b];
    if button != "All" {
      var k :| 0 <= k < |cats| && cats[k] == button;
      ByCategoryExactly(button, items, category, items[k]);
    }
  }

  /** The category of a home-page product. */
  function CategoryOf(p: Product): string {
    p.category
  }

  /** No home-page product is filed under the reserved name "All". */
  lemma NoProductInAll()
    ensures forall i | 0 <= i < |Constants.PRODUCTS| :: Constants.PRODUCTS[i].category != "All"
  {
  }

  /**
   * In a catalogue where no category is named "All", every item's category
   * has exactly one button, and that button lists the item.
   */
  lemma EachItemHasOneButton<P>(items: seq<P>, category: P -> string, x: P)
    requires x in items
    requires forall i | 0 <= i < |items| :: category(items[i]) != "All"
    ensures exists i :: 1 <= i < |ButtonsFor(items, category)| && ButtonsFor(items, category)[i] == category(x)
    ensures forall i, j | 0 <= i < |ButtonsFor(items, category)| && 0 <= j < |ButtonsFor(items, category)|
      && ButtonsFor(items, category)[i] == category(x) && ButtonsFor(items, category)[j] == category(x) :: i == j
    ensures x in ByCategory(category(x), items, category)
  {
    var k :| 0 <= k < |items| && items[k] == x;
    var cats := Seqs.Map(items, category);
    assert cats[k] == category(x);
    CategoryButtonsOnce(cats, category(x));
    var i :| 1 <= i < |CategoryButtons(cats)| && CategoryButtons(cats)[i] == category(x);
    assert ButtonsFor(items, category)[i] == category(x);
    ByCategoryExactly(category(x), items, category, x);
  }

  /** On the home page, every product's category has exactly one button, which lists the product. */
  lemma EachProductHasOneButton(p: Product)
    requires p in Constants.PRODUCTS
    ensures exists i ::
      1 <= i < |ButtonsFor(Constants.PRODUCTS, CategoryOf)| && ButtonsFor(Constants.PRODUCTS, CategoryOf)[i] == p.category
    ensures forall i, j | 0 <= i < |ButtonsFor(Constants.PRODUCTS, CategoryOf)|
      && 0 <= j < |ButtonsFor(Constants.PRODUCTS, CategoryOf)|
      && ButtonsFor(Constants.PRODUCTS, CategoryOf)[i] == p.category
      && ButtonsFor(Constants.PRODUCTS, CategoryOf)[j] == p.category :: i == j
    ensures p in ByCategory(p.category, Constants.PRODUCTS, CategoryOf)
  {
    NoProductInAll();
    EachItemHasOneButton(Constants.PRODUCTS, CategoryOf, p);
  }

  /** The catalogue section's state: the selected category. */
  class ProductsSection {
    var filter: string

    constructor()
      ensures filter == "All"
    {
      filter := "All";
    }

    /** A category button was pressed. */
    method SetFilter(category: string)
      modifies this
      ensures filter == category
    {
      filter := category;
    }

    /** The cards on screen. */
    function Shown(): seq<Product>
      reads this
    {
      ByCategory(filter, Constants.PRODUCTS, CategoryOf)
    }

    /** The category buttons. */
    function Buttons(): seq<string> {
      ButtonsFor(Constants.PRODUCTS, CategoryOf)
    }
  }
}
