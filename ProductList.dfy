/**
  The catalog page: per-category counts, the page count, the slice of the
  filtered products shown on the current page, and the page state that
  filter changes and the pagination buttons update.
 */
module ProductList {
  import opened JsMath
  import opened JsArray
  import opened Storefront
  import opened Pagination
  import opened ProductFilters

  /** ITEMS_PER_PAGE. */
  const ItemsPerPage := 8

  /** How many products in ps have category c. */
  function CountOf(ps: seq<Product>, c: string): nat {
    if |ps| == 0 then 0
    else CountOf(ps[..|ps| - 1], c) + (if ps[|ps| - 1].category == c then 1 else 0)
  }

  lemma {:induction false} CountOfAbsent(ps: seq<Product>, c: string)
    requires c !in CategorySet(ps)
    ensures CountOf(ps, c) == 0
  {
    if |ps| > 0 {
      var init := ps[..|ps| - 1];
      assert CategorySet(init) <= CategorySet(ps) by {
        forall j | 0 <= j < |init| ensures init[j].category in CategorySet(ps) {
          assert init[j] == ps[j];
        }
      }
      assert ps[|ps| - 1].category in CategorySet(ps);
      CountOfAbsent(init, c);
    }
  }

  /** The categories that occur in ps. */
  function CategorySet(ps: seq<Product>): set<string> {
    set i | 0 <= i < |ps| :: ps[i].category
  }

  /**
    The forEach loop that fills the `counts` dictionary: afterwards its keys
    are exactly the categories present and each maps to how many products
    have that category.
   */
  method CountCategories(products: seq<Product>) returns (counts: map<string, nat>)
    ensures counts.Keys == CategorySet(products)
    ensures forall c :: c in counts ==> counts[c] == CountOf(products, c) && counts[c] >= 1
  {
    counts := map[];
    var i := 0;
    while i < |products|
      invariant 0 <= i <= |products|
      invariant counts.Keys == CategorySet(products[..i])
      invariant forall c :: c in counts ==> counts[c] == CountOf(products[..i], c) && counts[c] >= 1
    {
      var c := products[i].category;
      if c !in counts {
        CountOfAbsent(products[..i], c);
      }
      var previous := if c in counts then counts[c] else 0;
      counts := counts[c := previous + 1];
      assert products[..i + 1][..i] == products[..i];
      assert CategorySet(products[..i + 1]) == CategorySet(products[..i]) + {c} by {
        assert forall j :: 0 <= j < i ==> products[..i + 1][j] == products[..i][j];
      }
      i := i + 1;
    }
    assert products[..i] == products;
  }

  /** How many of the categories in cats equal x. */
  function Hits(cats: seq<string>, x: string): nat {
    if |cats| == 0 then 0 else (if cats[0] == x then 1 else 0) + Hits(cats[1..], x)
  }

  lemma {:induction false} HitsOfDistinct(cats: seq<string>, x: string)
    requires Distinct(cats)
    ensures Hits(cats, x) == if x in cats then 1 else 0
  {
    if |cats| > 0 {
      HitsOfDistinct(cats[1..], x);
      if cats[0] == x {
        assert x !in cats[1..] by {
          forall k | 0 <= k < |cats| - 1 ensures cats[1..][k] != x {
            assert cats[1..][k] == cats[k + 1];
          }
        }
      }
    }
  }

  /** The sum of the counts of the categories in cats. */
  function SumCounts(cats: seq<string>, ps: seq<Product>): nat {
    if |cats| == 0 then 0 else CountOf(ps, cats[0]) + SumCounts(cats[1..], ps)
  }

  lemma {:induction false} SumCountsStep(cats: seq<string>, ps: seq<Product>, p: Product)
    ensures SumCounts(cats, ps + [p]) == SumCounts(cats, ps) + Hits(cats, p.category)
  {
    assert (ps + [p])[..|ps|] == ps;
    if |cats| > 0 {
      SumCountsStep(cats[1..], ps, p);
    }
  }

  lemma {:induction false} SumCountsCoveringDistinct(cats: seq<string>, ps: seq<Product>)
    requires Distinct(cats)
    requires forall i :: 0 <= i < |ps| ==> ps[i].category in cats
    ensures SumCounts(cats, ps) == |ps|
  {
    if |ps| == 0 {
      SumCountsOfEmpty(cats, ps);
    } else {
      var init, last := ps[..|ps| - 1], ps[|ps| - 1];
      assert ps == init + [last];
      SumCountsCoveringDistinct(cats, init);
      SumCountsStep(cats, init, last);
      HitsOfDistinct(cats, last.category);
    }
  }

  lemma {:induction false} SumCountsOfEmpty(cats: seq<string>, ps: seq<Product>)
    requires |ps| == 0
    ensures SumCounts(cats, ps) == 0
  {
    if |cats| > 0 {
      SumCountsOfEmpty(cats[1..], ps);
    }
  }

  /**
    The counts dictionary's keys are the entries of the sidebar's category
    list after "all", and its counts add up to the size of the catalog.
   */
  lemma CategoryCountsSumToCatalogSize(ps: seq<Product>)
    ensures forall c :: c in CategorySet(ps) <==> c in UniqueCategories(ps)[1..]
    ensures SumCounts(UniqueCategories(ps)[1..], ps) == |ps|
  {
    UniqueCategoriesSpec(ps);
    SumCountsCoveringDistinct(UniqueCategories(ps)[1..], ps);
  }

  /** Math.ceil(n / ITEMS_PER_PAGE). */
  function PageCount(n: nat): nat {
    (n + ItemsPerPage - 1) / ItemsPerPage
  }

  /** The page count is the ceiling: zero exactly for no products, and otherwise the last page is partly or fully used. */
  lemma PageCountIsCeiling(n: nat)
    ensures PageCount(n) == 0 <==> n == 0
    ensures n > 0 ==> (PageCount(n) - 1) * ItemsPerPage < n <= PageCount(n) * ItemsPerPage
  {
  }

  /** filteredProducts.slice((page - 1) * 8, page * 8). */
  function PageSlice(ps: seq<Product>, page: int): seq<Product> {
    Slice(ps, (page - 1) * ItemsPerPage, page * ItemsPerPage)
  }

  /**
    From page 1 on, a page holds the products at indices [(page-1)*8, page*8)
    that exist: at most eight, and at least one for every page up to the
    page count.
   */
  lemma PageSliceSpec(ps: seq<Product>, page: int)
    requires page >= 1
    ensures PageSlice(ps, page) == ps[Min((page - 1) * ItemsPerPage, |ps|)..Min(page * ItemsPerPage, |ps|)]
    ensures |PageSlice(ps, page)| <= ItemsPerPage
    ensures page <= PageCount(|ps|) ==> |PageSlice(ps, page)| >= 1
  {
    SliceNonNegative(ps, (page - 1) * ItemsPerPage, page * ItemsPerPage);
  }

  /** Pages 1..k one after another. */
  function PagesUpTo(ps: seq<Product>, k: nat): seq<Product> {
    if k == 0 then [] else PagesUpTo(ps, k - 1) + PageSlice(ps, k)
  }

  lemma {:induction false} PagesUpToIsPrefix(ps: seq<Product>, k: nat)
    ensures PagesUpTo(ps, k) == ps[..Min(k * ItemsPerPage, |ps|)]
  {
    if k > 0 {
      PagesUpToIsPrefix(ps, k - 1);
      PageSliceSpec(ps, k);
    }
  }

  /** Reading every page in turn gives back the filtered list, in order, with nothing lost or repeated. */
  lemma PagesReassembleList(ps: seq<Product>)
    ensures PagesUpTo(ps, PageCount(|ps|)) == ps
  {
    PagesUpToIsPrefix(ps, PageCount(|ps|));
    PageCountIsCeiling(|ps|);
  }

  /** The page's state: the catalog, the list the filters produced, the current page and the category counts. */
  class ListState {
    var allProducts: seq<Product>
    var filteredProducts: seq<Product>
    var currentPage: int
    var categoryCount: map<string, nat>

    /** totalPages. */
    function TotalPages(): nat
      reads this
    {
      PageCount(|filteredProducts|)
    }

    /** paginatedProducts: what the grid shows. */
    function VisibleProducts(): seq<Product>
      reads this
    {
      PageSlice(filteredProducts, currentPage)
    }

    /** The pagination control is rendered only when there is more than one page. */
    predicate PaginationShown()
      reads this
    {
      TotalPages() > 1
    }

    /** The current page is a real page, or page 1 of an empty list. */
    predicate PageInRange()
      reads this
    {
      1 <= currentPage <= Max(1, TotalPages())
    }

    constructor ()
      ensures allProducts == [] && filteredProducts == [] && categoryCount == map[]
      ensures currentPage == 1 && PageInRange()
    {
      allProducts := [];
      filteredProducts := [];
      currentPage := 1;
      categoryCount := map[];
    }

    /** Loading finished: count the categories and show the whole catalog. The page is left as it was. */
    method FinishLoading(products: seq<Product>)
      modifies this`allProducts, this`filteredProducts, this`categoryCount
      ensures allProducts == products && filteredProducts == products
      ensures categoryCount.Keys == CategorySet(products)
      ensures forall c :: c in categoryCount ==> categoryCount[c] == CountOf(products, c)
    {
      allProducts := products;
      var counts := CountCategories(products);
      categoryCount := counts;
      filteredProducts := products;
    }

    /** handleFilterChange: take the new list and go back to page 1. */
    method HandleFilterChange(newFilteredProducts: seq<Product>)
      modifies this`filteredProducts, this`currentPage
      ensures filteredProducts == newFilteredProducts && currentPage == 1
      ensures PageInRange()
      ensures VisibleProducts() == newFilteredProducts[..Min(ItemsPerPage, |newFilteredProducts|)]
    {
      filteredProducts := newFilteredProducts;
      currentPage := 1;
      PageSliceSpec(filteredProducts, 1);
    }

    /** A click on Previous: acts only when the control is shown and the button enabled. */
    method ClickPrevious()
      modifies this`currentPage
      ensures old(PaginationShown()) && old(currentPage) != 1 ==> currentPage == old(currentPage) - 1
      ensures !(old(PaginationShown()) && old(currentPage) != 1) ==> currentPage == old(currentPage)
      ensures old(PageInRange()) ==> PageInRange()
    {
      if PaginationShown() {
        var request := PreviousRequest(currentPage);
        if request.Some? {
          currentPage := request.value;
        }
      }
    }

    /** A click on Next: acts only when the control is shown and the button enabled. */
    method ClickNext()
      modifies this`currentPage
      ensures old(PaginationShown()) && old(currentPage) != TotalPages() ==> currentPage == old(currentPage) + 1
      ensures !(old(PaginationShown()) && old(currentPage) != TotalPages()) ==> currentPage == old(currentPage)
      ensures old(PageInRange()) ==> PageInRange()
    {
      if PaginationShown() {
        var request := NextRequest(currentPage, TotalPages());
        if request.Some? {
          currentPage := request.value;
        }
      }
    }

    /** A click on the k-th page-number button: the page it names is always a real page. */
    method ClickPageNumber(k: nat)
      modifies this`currentPage
      ensures old(PaginationShown()) && k < Min(MaxVisible, TotalPages()) ==>
                currentPage == Max(1, Min(old(currentPage) - 2, TotalPages() - MaxVisible + 1)) + k
      ensures !(old(PaginationShown()) && k < Min(MaxVisible, TotalPages())) ==> currentPage == old(currentPage)
      ensures currentPage != old(currentPage) ==> PaginationShown() && 1 <= currentPage <= TotalPages()
      ensures old(PageInRange()) ==> PageInRange()
    {
      if PaginationShown() {
        var pages := GetPageNumbers(currentPage, TotalPages());
        if k < |pages| {
          currentPage := pages[k];
        }
      }
    }
  }

  /** Twenty products: three pages, the first holding items 0..7 and the last items 16..19. */
  lemma TwentyProductsExample(ps: seq<Product>)
    requires |ps| == 20
    ensures PageCount(|ps|) == 3
    ensures PageSlice(ps, 1) == ps[0..8] && PageSlice(ps, 3) == ps[16..20]
    ensures NextRequest(3, PageCount(|ps|)).None?
  {
    PageSliceSpec(ps, 1);
    PageSliceSpec(ps, 3);
  }
}
