/**
  The filter sidebar: the category list it offers, the three conjunctive
  filters it applies to the catalog, and the state its controls update.
 */
module ProductFilters {
  import opened Storefront
  import opened JsString

  /** The category entry that lets every product through. */
  const AllCategories := "all"

  /** The price slider's starting position. */
  const InitialPriceRange := 100

  datatype FilterSettings = FilterSettings(selectedCategory: string, priceRange: int, searchTerm: string)

  /** The settings the sidebar starts with. */
  function InitialSettings(): FilterSettings {
    FilterSettings(AllCategories, InitialPriceRange, "")
  }

  /** Whether a product passes all three filters. */
  predicate Matches(p: Product, f: FilterSettings) {
    && (f.selectedCategory == AllCategories || p.category == f.selectedCategory)
    && p.price <= f.priceRange as real
    && Includes(ToLowerCase(p.title), ToLowerCase(f.searchTerm))
  }

  /** `a` is `b` with some elements left out, the rest kept in order. */
  predicate IsSubsequence<T(==)>(a: seq<T>, b: seq<T>)
    decreases |b|
  {
    |a| == 0 ||
    (|b| > 0 && ((a[0] == b[0] && IsSubsequence(a[1..], b[1..])) || IsSubsequence(a, b[1..])))
  }

  /**
    products.filter(...): the products that match, in catalog order. Each
    product occurs in the result exactly as often as in the input when it
    matches, and not at all otherwise.
   */
  function Filter(products: seq<Product>, f: FilterSettings): (r: seq<Product>)
    ensures IsSubsequence(r, products)
    ensures forall p :: multiset(r)[p] == if Matches(p, f) then multiset(products)[p] else 0
    ensures forall p :: p in r <==> p in products && Matches(p, f)
    ensures |r| <= |products|
  {
    if |products| == 0 then []
    else
      var rest := Filter(products[1..], f);
      assert products == [products[0]] + products[1..];
      if Matches(products[0], f) then [products[0]] + rest else rest
  }

  /** Filtering an already filtered list with the same settings changes nothing. */
  lemma {:induction false} FilterIdempotent(products: seq<Product>, f: FilterSettings)
    ensures Filter(Filter(products, f), f) == Filter(products, f)
  {
    if |products| > 0 {
      FilterIdempotent(products[1..], f);
      if Matches(products[0], f) {
        assert Filter(products, f)[1..] == Filter(products[1..], f);
      }
    }
  }

  /** An empty search term matches every title, whatever its case. */
  lemma EmptySearchMatchesEveryTitle(title: string)
    ensures Includes(ToLowerCase(title), ToLowerCase(""))
  {
    assert ToLowerCase("") == "";
    IncludesEmpty(ToLowerCase(title));
  }

  /** With every category, a price limit above every price and no search term, nothing is filtered out. */
  lemma {:induction false} FilterKeepsEverything(products: seq<Product>, f: FilterSettings)
    requires f.selectedCategory == AllCategories && f.searchTerm == ""
    requires forall p :: p in products ==> p.price <= f.priceRange as real
    ensures Filter(products, f) == products
  {
    if |products| > 0 {
      EmptySearchMatchesEveryTitle(products[0].title);
      FilterKeepsEverything(products[1..], f);
    }
  }

  /** The search is case-insensitive: searching for a term or for its lower-case form keeps the same products. */
  lemma SearchIgnoresCase(p: Product, f: FilterSettings)
    ensures Matches(p, f) == Matches(p, f.(searchTerm := ToLowerCase(f.searchTerm)))
  {
    ToLowerCaseIdempotent(f.searchTerm);
  }

  /** products.map(p => p.category). */
  function Categories(products: seq<Product>): seq<string> {
    seq(|products|, i requires 0 <= i < |products| => products[i].category)
  }

  predicate Distinct<T(==)>(s: seq<T>) {
    forall i, j :: 0 <= i < j < |s| ==> s[i] != s[j]
  }

  /** Index of the first occurrence of x in s. */
  ghost function FirstIndex<T>(s: seq<T>, x: T): (k: nat)
    requires x in s
    ensures k < |s| && s[k] == x && x !in s[..k]
  {
    if s[0] == x then 0 else 1 + FirstIndex(s[1..], x)
  }

  lemma {:induction false} FirstIndexAppend<T>(s: seq<T>, y: T, x: T)
    requires x in s
    ensures FirstIndex(s + [y], x) == FirstIndex(s, x)
  {
    if s[0] != x {
      assert (s + [y])[1..] == s[1..] + [y];
      FirstIndexAppend(s[1..], y, x);
    }
  }

  /**
    [...new Set(s)]: each value once, in the order of its first
    occurrence in s.
   */
  function Dedup(s: seq<string>): (d: seq<string>)
    ensures forall x :: x in d <==> x in s
    ensures Distinct(d)
    ensures forall i, j :: 0 <= i < j < |d| ==> FirstIndex(s, d[i]) < FirstIndex(s, d[j])
  {
    if |s| == 0 then []
    else
      var init, last := s[..|s| - 1], s[|s| - 1];
      var d' := Dedup(init);
      assert s == init + [last];
      forall x | x in init ensures FirstIndex(s, x) == FirstIndex(init, x) {
        FirstIndexAppend(init, last, x);
      }
      if last in d' then d' else d' + [last]
  }

  /** The sidebar's category list: "all" followed by the catalog's categories in order of first appearance. */
  function UniqueCategories(products: seq<Product>): seq<string> {
    [AllCategories] + Dedup(Categories(products))
  }

  /**
    The list starts with "all"; the entries after it are distinct, cover
    every product's category, name only categories that occur, and follow
    the order in which categories first appear in the catalog.
   */
  lemma UniqueCategoriesSpec(products: seq<Product>)
    ensures |UniqueCategories(products)| >= 1 && UniqueCategories(products)[0] == AllCategories
    ensures Distinct(UniqueCategories(products)[1..])
    ensures forall i :: 0 <= i < |products| ==> products[i].category in UniqueCategories(products)[1..]
    ensures forall c :: c in UniqueCategories(products)[1..] ==>
              exists i :: 0 <= i < |products| && products[i].category == c
    ensures forall i, j :: 1 <= i < j < |UniqueCategories(products)| ==>
              FirstIndex(Categories(products), UniqueCategories(products)[i]) <
              FirstIndex(Categories(products), UniqueCategories(products)[j])
  {
    var cats := Categories(products);
    var r := UniqueCategories(products);
    assert r[1..] == Dedup(cats);
    forall i | 0 <= i < |products| ensures products[i].category in r[1..] {
      assert cats[i] == products[i].category;
    }
    forall c | c in r[1..] ensures exists i :: 0 <= i < |products| && products[i].category == c {
      var i :| 0 <= i < |cats| && cats[i] == c;
    }
  }

  /** When no product's category is literally "all", the whole list, "all" included, is duplicate-free. */
  lemma CategoriesDistinctWithoutAllCategory(products: seq<Product>)
    requires forall i :: 0 <= i < |products| ==> products[i].category != AllCategories
    ensures Distinct(UniqueCategories(products))
  {
    var r := UniqueCategories(products);
    UniqueCategoriesSpec(products);
    forall i, j | 0 <= i < j < |r| ensures r[i] != r[j] {
      if i == 0 {
        assert r[j] in r[1..];
        var k :| 0 <= k < |products| && products[k].category == r[j];
      } else {
        assert r[i] == r[1..][i - 1] && r[j] == r[1..][j - 1];
      }
    }
  }

  /** The sidebar's state: the catalog it was given, its category list and the three controls. */
  class FilterState {
    var products: seq<Product>
    var categories: seq<string>
    var selectedCategory: string
    var priceRange: int
    var searchTerm: string

    function Settings(): FilterSettings
      reads this
    {
      FilterSettings(selectedCategory, priceRange, searchTerm)
    }

    /** What the sidebar hands to onFilterChange for its current state. */
    function Filtered(): seq<Product>
      reads this
    {
      Filter(products, Settings())
    }

    /** Mounting: no categories yet, every category, the price limit 100 and an empty search. */
    constructor (products: seq<Product>)
      ensures this.products == products && categories == []
      ensures Settings() == InitialSettings()
      ensures Settings() == FilterSettings(AllCategories, 100, "")
    {
      this.products := products;
      categories := [];
      selectedCategory := AllCategories;
      priceRange := InitialPriceRange;
      searchTerm := "";
    }

    /** A new catalog: both effects run, rebuilding the category list and re-filtering. */
    method ReceiveProducts(newProducts: seq<Product>) returns (emitted: seq<Product>)
      modifies this`products, this`categories
      ensures products == newProducts && categories == UniqueCategories(newProducts)
      ensures emitted == Filtered()
    {
      products := newProducts;
      categories := UniqueCategories(products);
      emitted := Filter(products, Settings());
    }

    /**
      A click on a category button. Setting state to the value it already
      has makes React skip the re-render, so the filter effect runs (and
      onFilterChange is called) only when the category really changes.
     */
    method SelectCategory(category: string) returns (emitted: Option<seq<Product>>)
      modifies this`selectedCategory
      ensures selectedCategory == category
      ensures category == old(selectedCategory) ==> emitted == None
      ensures category != old(selectedCategory) ==> emitted == Some(Filtered())
    {
      if category == selectedCategory {
        emitted := None;
      } else {
        selectedCategory := category;
        emitted := Some(Filter(products, Settings()));
      }
    }

    /** The price slider moved; the filter effect re-runs only if the limit changed. */
    method SetPriceRange(limit: int) returns (emitted: Option<seq<Product>>)
      modifies this`priceRange
      ensures priceRange == limit
      ensures limit == old(priceRange) ==> emitted == None
      ensures limit != old(priceRange) ==> emitted == Some(Filtered())
    {
      if limit == priceRange {
        emitted := None;
      } else {
        priceRange := limit;
        emitted := Some(Filter(products, Settings()));
      }
    }

    /** The search box changed; the filter effect re-runs only if the term changed. */
    method SetSearchTerm(term: string) returns (emitted: Option<seq<Product>>)
      modifies this`searchTerm
      ensures searchTerm == term
      ensures term == old(searchTerm) ==> emitted == None
      ensures term != old(searchTerm) ==> emitted == Some(Filtered())
    {
      if term == searchTerm {
        emitted := None;
      } else {
        searchTerm := term;
        emitted := Some(Filter(products, Settings()));
      }
    }
  }
}
