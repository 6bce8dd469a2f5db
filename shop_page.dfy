/** The shop page: the catalogue filtered by search term, category, price
    range, sizes and colours, sorted by the chosen order and shown twelve
    products per page. The component state is modelled as the fields of a
    ShopPageState object; the effect that recomputes the results runs inside
    every handler that changes one of its dependencies. */
module ShopPage {
  import opened Common

  datatype ShopProduct = ShopProduct(id: string, name: string, price: real, salePrice: Option<real>,
                                     category: string, rating: real, reviewCount: int,
                                     isNew: bool, isFeatured: bool, sizes: seq<string>, colors: seq<string>)

  /** The filter and sort controls. */
  datatype Filters = Filters(search: string, category: string, priceLo: real, priceHi: real,
                             sizes: seq<string>, colors: seq<string>, sortBy: string)

  const AllCategories: string := "all"
  const Featured: string := "featured"
  const PriceLow: string := "price-low"
  const PriceHigh: string := "price-high"
  const ByRating: string := "rating"
  const Newest: string := "newest"
  const ProductsPerPage: nat := 12

  const InitialFilters: Filters := Filters("", AllCategories, 0.0, 1000.0, [], [], Featured)

  /** `product.salePrice || product.price`. */
  function EffectivePrice(p: ShopProduct): real
  {
    RealOr(p.salePrice, p.price)
  }

  // ---------------------------------------------------------------------
  // The filters

  predicate MatchesSearch(f: Filters, p: ShopProduct) { f.search == "" || IncludesIgnoreCase(p.name, f.search) }

  predicate MatchesCategory(f: Filters, p: ShopProduct) { f.category == AllCategories || p.category == f.category }

  predicate MatchesPrice(f: Filters, p: ShopProduct) { f.priceLo <= EffectivePrice(p) <= f.priceHi }

  /** `xs.some(x => selected.includes(x))`. */
  predicate SharesAny(xs: seq<string>, selected: seq<string>)
  {
    exists i :: 0 <= i < |xs| && xs[i] in selected
  }

  predicate MatchesSizes(f: Filters, p: ShopProduct) { |f.sizes| == 0 || SharesAny(p.sizes, f.sizes) }

  predicate MatchesColors(f: Filters, p: ShopProduct) { |f.colors| == 0 || SharesAny(p.colors, f.colors) }

  /** A product passes every active filter. */
  predicate Matches(f: Filters, p: ShopProduct)
  {
    MatchesSearch(f, p) && MatchesCategory(f, p) && MatchesPrice(f, p) && MatchesSizes(f, p) && MatchesColors(f, p)
  }

  // The single tests, and the conjunctions of the first few, as filter callbacks.
  function SearchTest(f: Filters): ShopProduct -> bool { (p: ShopProduct) => MatchesSearch(f, p) }
  function CategoryTest(f: Filters): ShopProduct -> bool { (p: ShopProduct) => MatchesCategory(f, p) }
  function PriceTest(f: Filters): ShopProduct -> bool { (p: ShopProduct) => MatchesPrice(f, p) }
  function SizesTest(f: Filters): ShopProduct -> bool { (p: ShopProduct) => MatchesSizes(f, p) }
  function ColorsTest(f: Filters): ShopProduct -> bool { (p: ShopProduct) => MatchesColors(f, p) }
  function UpToCategory(f: Filters): ShopProduct -> bool
  {
    (p: ShopProduct) => MatchesSearch(f, p) && MatchesCategory(f, p)
  }
  function UpToPrice(f: Filters): ShopProduct -> bool
  {
    (p: ShopProduct) => MatchesSearch(f, p) && MatchesCategory(f, p) && MatchesPrice(f, p)
  }
  function UpToSizes(f: Filters): ShopProduct -> bool
  {
    (p: ShopProduct) => MatchesSearch(f, p) && MatchesCategory(f, p) && MatchesPrice(f, p) && MatchesSizes(f, p)
  }
  function AllTests(f: Filters): ShopProduct -> bool { (p: ShopProduct) => Matches(f, p) }

  /** The effect's chain of filters: search and category only when set, the
      price range always, sizes and colours only when some are selected. */
  function Filtered(products: seq<ShopProduct>, f: Filters): seq<ShopProduct>
  {
    var bySearch := if f.search != "" then Filter(products, SearchTest(f)) else products;
    var byCategory := if f.category != AllCategories then Filter(bySearch, CategoryTest(f)) else bySearch;
    var byPrice := Filter(byCategory, PriceTest(f));
    var bySizes := if |f.sizes| > 0 then Filter(byPrice, SizesTest(f)) else byPrice;
    if |f.colors| > 0 then Filter(bySizes, ColorsTest(f)) else bySizes
  }

  /** The chain keeps exactly the products that pass every filter, in
      catalogue order: it is one filter by the conjunction. */
  lemma FilteredIsOneFilter(products: seq<ShopProduct>, f: Filters)
    ensures Filtered(products, f) == Filter(products, AllTests(f))
  {
    var bySearch := if f.search != "" then Filter(products, SearchTest(f)) else products;
    assert bySearch == Filter(products, SearchTest(f)) by {
      if f.search == "" {
        FilterKeepsAll(products, SearchTest(f));
      }
    }
    var byCategory := if f.category != AllCategories then Filter(bySearch, CategoryTest(f)) else bySearch;
    assert byCategory == Filter(products, UpToCategory(f)) by {
      if f.category != AllCategories {
        FilterThenFilter(products, SearchTest(f), CategoryTest(f), UpToCategory(f));
      } else {
        FilterSameTest(products, SearchTest(f), UpToCategory(f));
      }
    }
    var byPrice := Filter(byCategory, PriceTest(f));
    FilterThenFilter(products, UpToCategory(f), PriceTest(f), UpToPrice(f));
    var bySizes := if |f.sizes| > 0 then Filter(byPrice, SizesTest(f)) else byPrice;
    assert bySizes == Filter(products, UpToSizes(f)) by {
      if |f.sizes| > 0 {
        FilterThenFilter(products, UpToPrice(f), SizesTest(f), UpToSizes(f));
      } else {
        FilterSameTest(products, UpToPrice(f), UpToSizes(f));
      }
    }
    if |f.colors| > 0 {
      FilterThenFilter(products, UpToSizes(f), ColorsTest(f), AllTests(f));
    } else {
      FilterSameTest(products, UpToSizes(f), AllTests(f));
    }
  }

  // ---------------------------------------------------------------------
  // Sorting

  /** The comparators of the sort select, as "may stand before". */
  predicate CheaperFirst(a: ShopProduct, b: ShopProduct) { EffectivePrice(a) <= EffectivePrice(b) }
  predicate DearerFirst(a: ShopProduct, b: ShopProduct) { EffectivePrice(a) >= EffectivePrice(b) }
  predicate BetterRatedFirst(a: ShopProduct, b: ShopProduct) { a.rating >= b.rating }
  predicate NewFirst(a: ShopProduct, b: ShopProduct) { a.isNew || !b.isNew }

  lemma ComparatorsAreTotal()
    ensures TotalPreorder(CheaperFirst) && TotalPreorder(DearerFirst)
    ensures TotalPreorder(BetterRatedFirst) && TotalPreorder(NewFirst)
  {
  }

  /** The comparator of a sort option; "featured" and unknown options keep the order. */
  function SortOrder(sortBy: string): Option<(ShopProduct, ShopProduct) -> bool>
  {
    if sortBy == PriceLow then Some(CheaperFirst)
    else if sortBy == PriceHigh then Some(DearerFirst)
    else if sortBy == ByRating then Some(BetterRatedFirst)
    else if sortBy == Newest then Some(NewFirst)
    else None
  }

  lemma SortOrderIsTotal(sortBy: string)
    requires SortOrder(sortBy).Some?
    ensures TotalPreorder(SortOrder(sortBy).value)
  {
    ComparatorsAreTotal();
    if sortBy == PriceLow {
    } else if sortBy == PriceHigh {
    } else if sortBy == ByRating {
    } else {
      assert SortOrder(sortBy).value == NewFirst;
    }
  }

  function SortProducts(s: seq<ShopProduct>, sortBy: string): seq<ShopProduct>
  {
    match SortOrder(sortBy)
    case None => s
    case Some(le) => SortBy(s, le)
  }

  /** The products the page lists. */
  function Results(products: seq<ShopProduct>, f: Filters): seq<ShopProduct>
  {
    SortProducts(Filtered(products, f), f.sortBy)
  }

  /** The results are the matching products, each as often as in the
      catalogue, never more than the catalogue holds. */
  lemma ResultsAreMatches(products: seq<ShopProduct>, f: Filters)
    ensures forall p :: p in Results(products, f) <==> p in products && Matches(f, p)
    ensures multiset(Results(products, f)) == multiset(Filter(products, AllTests(f)))
    ensures |Results(products, f)| <= |products|
  {
    FilteredIsOneFilter(products, f);
    var filtered := Filter(products, AllTests(f));
    var r := Results(products, f);
    assert multiset(r) == multiset(filtered);
    assert |r| == |multiset(r)|;
    forall p ensures p in r <==> p in filtered {
      assert p in r <==> p in multiset(r);
    }
  }

  /** The results follow the chosen sort; with "featured" (or any other option
      without a comparator) they keep the catalogue order. */
  lemma ResultsOrder(products: seq<ShopProduct>, f: Filters)
    ensures SortOrder(f.sortBy).Some? ==> SortedBy(Results(products, f), SortOrder(f.sortBy).value)
    ensures SortOrder(f.sortBy).None? ==> IsSubseq(Results(products, f), products)
  {
    FilteredIsOneFilter(products, f);
    var filtered := Filter(products, AllTests(f));
    if SortOrder(f.sortBy).Some? {
      SortOrderIsTotal(f.sortBy);
      SortBySorted(filtered, SortOrder(f.sortBy).value);
    } else {
      FilterIsSubseq(products, AllTests(f));
    }
  }

  // ---------------------------------------------------------------------
  // Pagination

  /** `Math.ceil(n / 12)`. */
  function TotalPages(n: nat): nat
  {
    CeilDiv(n, ProductsPerPage)
  }

  /** `filtered.slice((page - 1) * 12, page * 12)`, clamped to the list as slice does. */
  function PageSlice(s: seq<ShopProduct>, page: nat): (r: seq<ShopProduct>)
    requires page >= 1
    ensures |r| <= ProductsPerPage
    ensures r != [] ==> (page - 1) * ProductsPerPage + |r| <= |s|
    ensures forall j :: 0 <= j < |r| ==> r[j] == s[(page - 1) * ProductsPerPage + j]
  {
    var lo := Min((page - 1) * ProductsPerPage, |s|);
    var hi := Min(page * ProductsPerPage, |s|);
    s[lo..hi]
  }

  /** Every product is shown on exactly one page, at its index modulo 12;
      the pages up to the page count are non-empty and those after it empty. */
  lemma PagesCoverResults(s: seq<ShopProduct>, i: nat, page: nat)
    requires page >= 1
    ensures i < |s| ==> PageSlice(s, i / ProductsPerPage + 1)[i % ProductsPerPage] == s[i]
    ensures page <= TotalPages(|s|) <==> PageSlice(s, page) != []
  {
    if i < |s| {
      assert (i / ProductsPerPage) * ProductsPerPage + i % ProductsPerPage == i;
    }
    var n := TotalPages(|s|);
    if page <= n {
      assert (page - 1) * ProductsPerPage <= (n - 1) * ProductsPerPage;
      assert |PageSlice(s, page)| > 0;
    } else {
      assert (page - 1) * ProductsPerPage >= n * ProductsPerPage;
    }
  }

  // ---------------------------------------------------------------------
  // Selection lists

  /** `selected.filter(s => s !== value)`. */
  function Unchecked(selected: seq<string>, value: string): (r: seq<string>)
    ensures value !in r
    ensures forall x :: x != value ==> (x in r <==> x in selected)
    ensures IsSubseq(r, selected)
  {
    FilterIsSubseq(selected, (x: string) => x != value);
    Filter(selected, (x: string) => x != value)
  }

  /** The new selection after a checkbox changes. */
  function Toggled(selected: seq<string>, value: string, checked: bool): (r: seq<string>)
    ensures checked ==> |r| == |selected| + 1 && r[..|selected|] == selected && r[|selected|] == value
    ensures !checked ==> r == Unchecked(selected, value)
  {
    if checked then selected + [value] else Unchecked(selected, value)
  }

  // ---------------------------------------------------------------------
  // Page state

  class ShopPageState {
    var products: seq<ShopProduct>
    var filteredProducts: seq<ShopProduct>
    var searchTerm: string
    var selectedCategory: string
    var priceLo: real
    var priceHi: real
    var selectedSizes: seq<string>
    var selectedColors: seq<string>
    var sortBy: string
    var currentPage: nat

    function CurrentFilters(): Filters
      reads this
    {
      Filters(searchTerm, selectedCategory, priceLo, priceHi, selectedSizes, selectedColors, sortBy)
    }

    /** The listed products are always the results of the current controls,
        and the current page lies between 1 and the page count (1 when there
        is at most one page). */
    ghost predicate Valid()
      reads this
    {
      && filteredProducts == Results(products, CurrentFilters())
      && 1 <= currentPage <= Max(1, TotalPages(|filteredProducts|))
    }

    /** The first render: no products yet, the initial controls. */
    constructor ()
      ensures Valid()
      ensures products == [] && filteredProducts == [] && CurrentFilters() == InitialFilters && currentPage == 1
    {
      products, filteredProducts := [], [];
      searchTerm, selectedCategory, priceLo, priceHi := "", AllCategories, 0.0, 1000.0;
      selectedSizes, selectedColors, sortBy := [], [], Featured;
      currentPage := 1;
    }

    /** The filter-and-sort effect: recompute the list and go back to page 1. */
    method RunEffect()
      modifies this`filteredProducts, this`currentPage
      ensures Valid()
      ensures filteredProducts == Results(products, CurrentFilters()) && currentPage == 1
      ensures CurrentFilters() == old(CurrentFilters())
    {
      filteredProducts := Results(products, CurrentFilters());
      currentPage := 1;
    }

    /** The simulated fetch delivers the catalogue. */
    method Load(catalogue: seq<ShopProduct>)
      modifies this`products, this`filteredProducts, this`currentPage
      ensures Valid()
      ensures products == catalogue && currentPage == 1
    {
      products := catalogue;
      RunEffect();
    }

    /** The search box; an unchanged string does not rerun the effect. */
    method SetSearchTerm(term: string)
      requires Valid()
      modifies this`searchTerm, this`filteredProducts, this`currentPage
      ensures Valid() && searchTerm == term
      ensures currentPage == if term == old(searchTerm) then old(currentPage) else 1
    {
      if term != searchTerm {
        searchTerm := term;
        RunEffect();
      }
    }

    /** The category select; choosing the current category changes nothing. */
    method SetCategory(category: string)
      requires Valid()
      modifies this`selectedCategory, this`filteredProducts, this`currentPage
      ensures Valid() && selectedCategory == category
      ensures currentPage == if category == old(selectedCategory) then old(currentPage) else 1
    {
      if category != selectedCategory {
        selectedCategory := category;
        RunEffect();
      }
    }

    /** The sort select; choosing the current order changes nothing. */
    method SetSortBy(order: string)
      requires Valid()
      modifies this`sortBy, this`filteredProducts, this`currentPage
      ensures Valid() && sortBy == order
      ensures currentPage == if order == old(sortBy) then old(currentPage) else 1
    {
      if order != sortBy {
        sortBy := order;
        RunEffect();
      }
    }

    /** The price slider sets a new range array, so the effect always reruns. */
    method SetPriceRange(lo: real, hi: real)
      modifies this`priceLo, this`priceHi, this`filteredProducts, this`currentPage
      ensures Valid() && priceLo == lo && priceHi == hi && currentPage == 1
    {
      priceLo, priceHi := lo, hi;
      RunEffect();
    }

    method HandleSizeChange(size: string, checked: bool)
      modifies this`selectedSizes, this`filteredProducts, this`currentPage
      ensures Valid() && selectedSizes == Toggled(old(selectedSizes), size, checked) && currentPage == 1
    {
      selectedSizes := Toggled(selectedSizes, size, checked);
      RunEffect();
    }

    method HandleColorChange(color: string, checked: bool)
      modifies this`selectedColors, this`filteredProducts, this`currentPage
      ensures Valid() && selectedColors == Toggled(old(selectedColors), color, checked) && currentPage == 1
    {
      selectedColors := Toggled(selectedColors, color, checked);
      RunEffect();
    }

    /** Every control back to its initial value; the new range array reruns the effect. */
    method ClearFilters()
      modifies this`searchTerm, this`selectedCategory, this`priceLo, this`priceHi
      modifies this`selectedSizes, this`selectedColors, this`sortBy, this`filteredProducts, this`currentPage
      ensures Valid() && CurrentFilters() == InitialFilters && currentPage == 1
    {
      var f := InitialFilters;
      searchTerm, selectedCategory, priceLo, priceHi := f.search, f.category, f.priceLo, f.priceHi;
      selectedSizes, selectedColors, sortBy := f.sizes, f.colors, f.sortBy;
      assert CurrentFilters() == f;
      RunEffect();
    }

    /** "Previous", shown only when there is more than one page. */
    method PreviousPage()
      requires Valid() && TotalPages(|filteredProducts|) > 1
      modifies this`currentPage
      ensures Valid() && currentPage == Max(old(currentPage) - 1, 1)
    {
      currentPage := Max(currentPage - 1, 1);
    }

    /** "Next", shown only when there is more than one page. */
    method NextPage()
      requires Valid() && TotalPages(|filteredProducts|) > 1
      modifies this`currentPage
      ensures Valid() && currentPage == Min(old(currentPage) + 1, TotalPages(|filteredProducts|))
    {
      currentPage := Min(currentPage + 1, TotalPages(|filteredProducts|));
    }

    /** A page number link. */
    method SelectPage(index: nat)
      requires Valid() && TotalPages(|filteredProducts|) > 1 && index < TotalPages(|filteredProducts|)
      modifies this`currentPage
      ensures Valid() && currentPage == index + 1
    {
      currentPage := index + 1;
    }

    /** The products on the current page: at most twelve, and all of them
        results, and none when there are no results. */
    function CurrentProducts(): (r: seq<ShopProduct>)
      reads this
      requires Valid()
      ensures |r| <= ProductsPerPage
      ensures forall p :: p in r ==> p in filteredProducts
      ensures filteredProducts != [] ==> r != []
    {
      PagesCoverResults(filteredProducts, 0, currentPage);
      PageSlice(filteredProducts, currentPage)
    }
  }
}
