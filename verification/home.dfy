/** The customer's catalogue page: the category pills and the product list they filter. */
module Home {
  import opened Common
  import opened Domain

  /** The filter the page starts with. */
  const InitialFilter := "all"

  /** The pill labels, in display order. */
  const PillLabels := ["All products", "Breads", "Cakes"]

  /** The filter value a pill sets: "Breads" is the bakery category, "Cakes" the cake category, any other label all. */
  function LabelToFilter(pill: string): (filter: string)
    ensures filter in {"all", "bakery", "cake"}
    ensures filter == "bakery" <==> pill == "Breads"
    ensures filter == "cake" <==> pill == "Cakes"
  {
    if pill == "Cakes" then "cake" else if pill == "Breads" then "bakery" else "all"
  }

  /** Every filter a pill can set is set by exactly one pill, so exactly one pill is shown as active. */
  lemma OnePillPerFilter(filter: string)
    requires filter in {"all", "bakery", "cake"}
    ensures exists i :: 0 <= i < |PillLabels| && LabelToFilter(PillLabels[i]) == filter
    ensures forall i, j :: 0 <= i < j < |PillLabels| ==> LabelToFilter(PillLabels[i]) != LabelToFilter(PillLabels[j])
  {
    if filter == "all" {
      assert LabelToFilter(PillLabels[0]) == filter;
    } else if filter == "bakery" {
      assert LabelToFilter(PillLabels[1]) == filter;
    } else {
      assert LabelToFilter(PillLabels[2]) == filter;
    }
  }

  function Shows(filter: string): Product -> bool {
    (p: Product) => filter == "all" || p.category == filter
  }

  /** The products listed under a filter: all of them for "all", otherwise those of that category, in order. */
  function FilterCatalogue(products: seq<Product>, filter: string): (r: seq<Product>)
    ensures IsSubsequence(r, products)
    ensures forall p :: p in r <==> p in products && (filter == "all" || p.category == filter)
  {
    Filter(products, Shows(filter))
  }

  /** The "all" filter lists the whole catalogue in its original order. */
  lemma AllShowsEverything(products: seq<Product>)
    ensures FilterCatalogue(products, "all") == products
  {
    FilterKeepsAll(products, Shows("all"));
  }

  /** The bread and cake lists never share a product and together list at most the whole catalogue. */
  lemma CategoriesAreDisjoint(products: seq<Product>)
    ensures |FilterCatalogue(products, "bakery")| + |FilterCatalogue(products, "cake")| <= |FilterCatalogue(products, "all")|
  {
    AllShowsEverything(products);
    DisjointFiltersFit(products, Shows("bakery"), Shows("cake"));
  }
}
