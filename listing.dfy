/**
 * The product listing page: the distinct categories of the catalog, the
 * `filteredProducts` pipeline (search text, categories, price range, the
 * "sale" / "new" URL filter, then a sort or a reversal), and the filter state
 * with `toggleCategory`, `clearFilters` and `activeFiltersCount`.
 */
module ProductListing {
  import opened Wrappers
  import opened Seqs
  import opened Store

  // ---------------------------------------------------------------------------
  // Text matching
  // ---------------------------------------------------------------------------

  /** `toLowerCase` on one character, for the ASCII letters. */
  function LowerChar(ch: char): (r: char)
  {
    if 'A' <= ch <= 'Z' then (ch as int + 32) as char else ch
  }

  function Lower(s: string): (r: string)
  {
    seq(|s|, i requires 0 <= i < |s| => LowerChar(s[i]))
  }

  /** `q` occurs in `s` starting at index `i`. */
  predicate OccursAt(s: string, q: string, i: nat)
  {
    i + |q| <= |s| && s[i..i + |q|] == q
  }

  /** `s.includes(q)`: `q` occurs in `s` as a contiguous substring. */
  predicate Includes(s: string, q: string)
  {
    exists i :: 0 <= i <= |s| && OccursAt(s, q, i)
  }

  /** The search box matches the name or the category, ignoring letter case. */
  predicate MatchesQuery(p: Product, query: string)
  {
    Includes(Lower(p.name), Lower(query)) || Includes(Lower(p.category), Lower(query))
  }

  /** `p.originalPrice` is truthy: present and not zero. */
  predicate OnSale(p: Product)
  {
    p.originalPrice.Some? && p.originalPrice.value != 0.0
  }

  /** `p.tags?.includes("New Arrival")`. */
  predicate IsNewArrival(p: Product)
  {
    p.tags.Some? && "New Arrival" in p.tags.value
  }

  // ---------------------------------------------------------------------------
  // Filter state and the set of products it admits
  // ---------------------------------------------------------------------------

  /**
   * What the pipeline reads: the page's own state (search text, selected
   * categories, the two ends of the price slider, the sort choice) and the
   * `filter` URL parameter (`None` when absent).
   */
  datatype Criteria = Criteria(
    searchQuery: string,
    selectedCategories: seq<string>,
    priceLow: real,
    priceHigh: real,
    filterParam: Option<string>,
    sortBy: string)

  predicate SearchOk(c: Criteria, p: Product)
  {
    c.searchQuery == "" || MatchesQuery(p, c.searchQuery)
  }

  predicate CategoryOk(c: Criteria, p: Product)
  {
    |c.selectedCategories| == 0 || p.category in c.selectedCategories
  }

  predicate PriceOk(c: Criteria, p: Product)
  {
    c.priceLow <= p.price <= c.priceHigh
  }

  predicate SaleOk(c: Criteria, p: Product)
  {
    c.filterParam == Some("sale") ==> OnSale(p)
  }

  predicate NewOk(c: Criteria, p: Product)
  {
    c.filterParam == Some("new") ==> IsNewArrival(p)
  }

  /** A product is listed when it passes every active filter. */
  predicate Admits(c: Criteria, p: Product)
  {
    SearchOk(c, p) && CategoryOk(c, p) && PriceOk(c, p) && SaleOk(c, p) && NewOk(c, p)
  }

  /** The catalog products `c` admits, in catalog order. */
  function Selection(catalog: seq<Product>, c: Criteria): (r: seq<Product>)
    ensures forall p :: p in r <==> p in catalog && Admits(c, p)
  {
    Filter(catalog, (p: Product) => Admits(c, p))
  }

  /** The first `stages` filters of the pipeline, in the order the page applies them. */
  predicate PassesFirst(c: Criteria, stages: nat, p: Product)
  {
    && (stages > 0 ==> SearchOk(c, p))
    && (stages > 1 ==> CategoryOk(c, p))
    && (stages > 2 ==> PriceOk(c, p))
    && (stages > 3 ==> SaleOk(c, p))
    && (stages > 4 ==> NewOk(c, p))
  }

  /**
   * One step of the pipeline: whether or not the stage's filter is applied,
   * the running list is the catalog filtered by one more stage.
   */
  lemma Stage(catalog: seq<Product>, c: Criteria, k: nat, before: seq<Product>, after: seq<Product>,
              active: bool, keep: Product -> bool)
    requires before == Filter(catalog, (p: Product) => PassesFirst(c, k, p))
    requires after == if active then Filter(before, keep) else before
    requires forall p :: PassesFirst(c, k + 1, p) == (PassesFirst(c, k, p) && (active ==> keep(p)))
    ensures after == Filter(catalog, (p: Product) => PassesFirst(c, k + 1, p))
  {
    if active {
      FilterThenFilter(catalog, (p: Product) => PassesFirst(c, k, p), keep,
                       (p: Product) => PassesFirst(c, k + 1, p));
    } else {
      FilterAgree(catalog, (p: Product) => PassesFirst(c, k, p), (p: Product) => PassesFirst(c, k + 1, p));
    }
  }

  // ---------------------------------------------------------------------------
  // Sorting and reversing in place
  // ---------------------------------------------------------------------------

  /** The three comparators, each read as an ascending order on a key. */
  datatype Order = PriceLowToHigh | PriceHighToLow | RatingHighToLow

  /**
   * `(a, b) => a.price - b.price` sorts by price ascending;
   * `b.price - a.price` and `b.rating - a.rating` sort by the negated key ascending.
   */
  function Key(order: Order, p: Product): (r: real)
  {
    match order
    case PriceLowToHigh => p.price
    case PriceHighToLow => -p.price
    case RatingHighToLow => -p.rating
  }

  predicate SortedBy(s: seq<Product>, order: Order)
  {
    forall i, j :: 0 <= i < j < |s| ==> Key(order, s[i]) <= Key(order, s[j])
  }

  /** Exchanges two entries of the array and leaves the others in place. */
  method Swap(a: array<Product>, x: nat, y: nat)
    requires x < a.Length && y < a.Length
    modifies a
    ensures a[..] == old(a[..])[x := old(a[y])][y := old(a[x])]
    ensures multiset(a[..]) == multiset(old(a[..]))
  {
    a[x], a[y] := a[y], a[x];
  }

  /**
   * The state of one insertion pass over `s[..i + 1]`: the moving entry sits
   * at `j`, the others are in order, everything after `j` has a strictly
   * larger key, and the entries on both sides of `j` are in order.
   */
  ghost predicate Inserting(s: seq<Product>, i: nat, j: nat, order: Order)
  {
    j <= i < |s|
    && (forall x, y :: 0 <= x < y <= i && x != j && y != j ==> Key(order, s[x]) <= Key(order, s[y]))
    && (forall y :: j < y <= i ==> Key(order, s[j]) < Key(order, s[y]))
    && (0 < j < i ==> Key(order, s[j - 1]) <= Key(order, s[j + 1]))
  }

  /** Exchanging the moving entry with a larger left neighbour keeps the pass's state. */
  lemma InsertingStep(s: seq<Product>, i: nat, j: nat, order: Order)
    requires Inserting(s, i, j, order) && 0 < j && Key(order, s[j - 1]) > Key(order, s[j])
    ensures Inserting(s[j - 1 := s[j]][j := s[j - 1]], i, j - 1, order)
  {
  }

  /** The pass stops at the front or behind a key no larger, and then `s[..i + 1]` is in order. */
  lemma InsertingDone(s: seq<Product>, i: nat, j: nat, order: Order)
    requires Inserting(s, i, j, order) && (j == 0 || Key(order, s[j - 1]) <= Key(order, s[j]))
    ensures forall x, y :: 0 <= x < y <= i ==> Key(order, s[x]) <= Key(order, s[y])
  {
  }

  /**
   * One pass of the insertion sort: with `a[..i]` sorted, moves `a[i]` left
   * past every strictly larger key, so equal keys keep their order.
   */
  method InsertAt(a: array<Product>, i: nat, order: Order)
    requires i < a.Length
    requires forall x, y :: 0 <= x < y < i ==> Key(order, a[x]) <= Key(order, a[y])
    modifies a
    ensures forall x, y :: 0 <= x < y <= i ==> Key(order, a[x]) <= Key(order, a[y])
    ensures multiset(a[..]) == multiset(old(a[..]))
    ensures a[i + 1..] == old(a[i + 1..])
  {
    var j: nat := i;
    while j > 0 && Key(order, a[j - 1]) > Key(order, a[j])
      invariant Inserting(a[..], i, j, order)
      invariant multiset(a[..]) == multiset(old(a[..]))
      invariant a[i + 1..] == old(a[i + 1..])
    {
      InsertingStep(a[..], i, j, order);
      Swap(a, j - 1, j);
      j := j - 1;
    }
    InsertingDone(a[..], i, j, order);
  }

  /** `filtered.sort(comparator)`, as an insertion sort. */
  method SortInPlace(a: array<Product>, order: Order)
    modifies a
    ensures SortedBy(a[..], order)
    ensures multiset(a[..]) == multiset(old(a[..]))
  {
    var i := 0;
    while i < a.Length
      invariant 0 <= i <= a.Length
      invariant forall x, y :: 0 <= x < y < i ==> Key(order, a[x]) <= Key(order, a[y])
      invariant multiset(a[..]) == multiset(old(a[..]))
    {
      InsertAt(a, i, order);
      i := i + 1;
    }
  }

  /** `filtered.reverse()`: swaps from both ends towards the middle. */
  method ReverseInPlace(a: array<Product>)
    modifies a
    ensures a[..] == Reversed(old(a[..]))
  {
    ghost var s := a[..];
    var lo, hi := 0, a.Length - 1;
    while lo < hi
      invariant 0 <= lo && hi == a.Length - 1 - lo && lo <= hi + 1
      invariant forall k :: 0 <= k < lo ==> a[k] == s[a.Length - 1 - k]
      invariant forall k :: hi < k < a.Length ==> a[k] == s[a.Length - 1 - k]
      invariant forall k :: lo <= k <= hi ==> a[k] == s[k]
    {
      Swap(a, lo, hi);
      lo, hi := lo + 1, hi - 1;
    }
    forall k | 0 <= k < a.Length
      ensures a[k] == s[a.Length - 1 - k]
    {
      if lo <= k <= hi {
        assert k == a.Length - 1 - k;
      }
    }
    ReversedByIndex(s, a[..]);
  }

  // ---------------------------------------------------------------------------
  // filteredProducts
  // ---------------------------------------------------------------------------

  /** The search stage: `if (searchQuery) filtered = filtered.filter(...)`. */
  lemma SearchStage(catalog: seq<Product>, c: Criteria, before: seq<Product>)
    requires before == Filter(catalog, (p: Product) => PassesFirst(c, 0, p))
    ensures (if c.searchQuery != "" then Filter(before, (p: Product) => MatchesQuery(p, c.searchQuery)) else before)
         == Filter(catalog, (p: Product) => PassesFirst(c, 1, p))
  {
    Stage(catalog, c, 0, before,
          if c.searchQuery != "" then Filter(before, (p: Product) => MatchesQuery(p, c.searchQuery)) else before,
          c.searchQuery != "", (p: Product) => MatchesQuery(p, c.searchQuery));
  }

  /** The category stage: `if (selectedCategories.length > 0) ...`. */
  lemma CategoryStage(catalog: seq<Product>, c: Criteria, before: seq<Product>)
    requires before == Filter(catalog, (p: Product) => PassesFirst(c, 1, p))
    ensures (if |c.selectedCategories| > 0 then Filter(before, (p: Product) => p.category in c.selectedCategories) else before)
         == Filter(catalog, (p: Product) => PassesFirst(c, 2, p))
  {
    Stage(catalog, c, 1, before,
          if |c.selectedCategories| > 0 then Filter(before, (p: Product) => p.category in c.selectedCategories) else before,
          |c.selectedCategories| > 0, (p: Product) => p.category in c.selectedCategories);
  }

  /** The price stage, always applied. */
  lemma PriceStage(catalog: seq<Product>, c: Criteria, before: seq<Product>)
    requires before == Filter(catalog, (p: Product) => PassesFirst(c, 2, p))
    ensures Filter(before, (p: Product) => PriceOk(c, p)) == Filter(catalog, (p: Product) => PassesFirst(c, 3, p))
  {
    Stage(catalog, c, 2, before, Filter(before, (p: Product) => PriceOk(c, p)), true, (p: Product) => PriceOk(c, p));
  }

  /** The sale stage: `if (filterParam === "sale") ...`. */
  lemma SaleStage(catalog: seq<Product>, c: Criteria, before: seq<Product>)
    requires before == Filter(catalog, (p: Product) => PassesFirst(c, 3, p))
    ensures (if c.filterParam == Some("sale") then Filter(before, (p: Product) => OnSale(p)) else before)
         == Filter(catalog, (p: Product) => PassesFirst(c, 4, p))
  {
    Stage(catalog, c, 3, before,
          if c.filterParam == Some("sale") then Filter(before, (p: Product) => OnSale(p)) else before,
          c.filterParam == Some("sale"), (p: Product) => OnSale(p));
  }

  /** The new-arrivals stage: `if (filterParam === "new") ...`. */
  lemma NewStage(catalog: seq<Product>, c: Criteria, before: seq<Product>)
    requires before == Filter(catalog, (p: Product) => PassesFirst(c, 4, p))
    ensures (if c.filterParam == Some("new") then Filter(before, (p: Product) => IsNewArrival(p)) else before)
         == Selection(catalog, c)
  {
    Stage(catalog, c, 4, before,
          if c.filterParam == Some("new") then Filter(before, (p: Product) => IsNewArrival(p)) else before,
          c.filterParam == Some("new"), (p: Product) => IsNewArrival(p));
    FilterAgree(catalog, (p: Product) => PassesFirst(c, 5, p), (p: Product) => Admits(c, p));
  }

  /** The filtering half of `filteredProducts`: copy the catalog and narrow it filter by filter. */
  method NarrowCatalog(catalog: seq<Product>, c: Criteria) returns (filtered: seq<Product>)
    ensures filtered == Selection(catalog, c)
  {
    filtered := catalog;
    FilterKeepsAll(catalog, (p: Product) => PassesFirst(c, 0, p));

    SearchStage(catalog, c, filtered);
    if c.searchQuery != "" {
      filtered := Filter(filtered, (p: Product) => MatchesQuery(p, c.searchQuery));
    }

    CategoryStage(catalog, c, filtered);
    if |c.selectedCategories| > 0 {
      filtered := Filter(filtered, (p: Product) => p.category in c.selectedCategories);
    }

    PriceStage(catalog, c, filtered);
    filtered := Filter(filtered, (p: Product) => PriceOk(c, p));

    SaleStage(catalog, c, filtered);
    if c.filterParam == Some("sale") {
      filtered := Filter(filtered, (p: Product) => OnSale(p));
    }

    NewStage(catalog, c, filtered);
    if c.filterParam == Some("new") {
      filtered := Filter(filtered, (p: Product) => IsNewArrival(p));
    }
  }

  /** The ordering half of `filteredProducts`: the `sortBy` switch on the filtered array. */
  method OrderListing(filtered: seq<Product>, sortBy: string) returns (r: seq<Product>)
    ensures multiset(r) == multiset(filtered)
    ensures sortBy == "price-low" ==> forall i, j :: 0 <= i < j < |r| ==> r[i].price <= r[j].price
    ensures sortBy == "price-high" ==> forall i, j :: 0 <= i < j < |r| ==> r[i].price >= r[j].price
    ensures sortBy == "rating" ==> forall i, j :: 0 <= i < j < |r| ==> r[i].rating >= r[j].rating
    ensures sortBy == "newest" ==> r == Reversed(filtered)
    ensures sortBy !in {"price-low", "price-high", "rating", "newest"} ==> r == filtered
  {
    var a := new Product[|filtered|](i requires 0 <= i < |filtered| => filtered[i]);
    assert a[..] == filtered;
    if sortBy == "price-low" {
      SortInPlace(a, PriceLowToHigh);
    } else if sortBy == "price-high" {
      SortInPlace(a, PriceHighToLow);
    } else if sortBy == "rating" {
      SortInPlace(a, RatingHighToLow);
    } else if sortBy == "newest" {
      ReverseInPlace(a);
    }
    r := a[..];
  }

  /** `filteredProducts`: the admitted products, in the order `sortBy` asks for. */
  method ListProducts(catalog: seq<Product>, c: Criteria) returns (r: seq<Product>)
    ensures multiset(r) == multiset(Selection(catalog, c))
    ensures c.sortBy == "price-low" ==> forall i, j :: 0 <= i < j < |r| ==> r[i].price <= r[j].price
    ensures c.sortBy == "price-high" ==> forall i, j :: 0 <= i < j < |r| ==> r[i].price >= r[j].price
    ensures c.sortBy == "rating" ==> forall i, j :: 0 <= i < j < |r| ==> r[i].rating >= r[j].rating
    ensures c.sortBy == "newest" ==> r == Reversed(Selection(catalog, c))
    ensures c.sortBy !in {"price-low", "price-high", "rating", "newest"} ==> r == Selection(catalog, c)
  {
    var filtered := NarrowCatalog(catalog, c);
    r := OrderListing(filtered, c.sortBy);
  }

  /** Every listed product passes every active filter, and every catalog product that does is listed. */
  lemma ListedIffAdmitted(catalog: seq<Product>, c: Criteria, r: seq<Product>, p: Product)
    requires multiset(r) == multiset(Selection(catalog, c))
    ensures p in r <==> p in catalog && Admits(c, p)
  {
    assert p in r <==> p in multiset(r);
    assert p in Selection(catalog, c) <==> p in multiset(Selection(catalog, c));
  }

  // ---------------------------------------------------------------------------
  // categories, activeFiltersCount, clearFilters
  // ---------------------------------------------------------------------------

  /** `products.map((p) => p.category)`. */
  function CategoryColumn(catalog: seq<Product>): (r: seq<string>)
    ensures |r| == |catalog|
  {
    seq(|catalog|, i requires 0 <= i < |catalog| => catalog[i].category)
  }

  /** `[...new Set(products.map((p) => p.category))]`. */
  function Categories(catalog: seq<Product>): (r: seq<string>)
    ensures NoDup(r)
    ensures forall x :: x in r <==> exists i :: 0 <= i < |catalog| && catalog[i].category == x
  {
    var column := CategoryColumn(catalog);
    assert forall x :: x in column <==> exists i :: 0 <= i < |catalog| && catalog[i].category == x by {
      forall x ensures x in column <==> exists i :: 0 <= i < |catalog| && catalog[i].category == x {
        if x in column {
          var i :| 0 <= i < |column| && column[i] == x;
          assert catalog[i].category == x;
        }
        if exists i :: 0 <= i < |catalog| && catalog[i].category == x {
          var i :| 0 <= i < |catalog| && catalog[i].category == x;
          assert column[i] == x;
        }
      }
    }
    Distinct(column)
  }

  /** The categories come in the order in which they first appear in the catalog. */
  lemma CategoriesInFirstAppearanceOrder(catalog: seq<Product>)
    ensures forall i, j :: 0 <= i < j < |Categories(catalog)| ==>
      FirstIndex(CategoryColumn(catalog), Categories(catalog)[i])
        < FirstIndex(CategoryColumn(catalog), Categories(catalog)[j])
  {
    DistinctFirstAppearance(CategoryColumn(catalog));
  }

  /**
   * `activeFiltersCount`: the selected categories, one for a price slider
   * moved off either end of 0..600, one for a non-empty search.
   */
  function ActiveFilters(c: Criteria): (n: nat)
    ensures n >= |c.selectedCategories|
    ensures n == 0 <==> c.searchQuery == "" && c.selectedCategories == [] && c.priceLow <= 0.0 && c.priceHigh >= 600.0
  {
    |c.selectedCategories|
      + (if c.priceLow > 0.0 || c.priceHigh < 600.0 then 1 else 0)
      + (if c.searchQuery != "" then 1 else 0)
  }

  /** `clearFilters`: resets search, categories, price range and sort; the URL filter stays. */
  function Cleared(c: Criteria): (r: Criteria)
    ensures ActiveFilters(r) == 0
    ensures r.filterParam == c.filterParam && r.sortBy == "featured"
  {
    c.(searchQuery := "", selectedCategories := [], priceLow := 0.0, priceHigh := 600.0, sortBy := "featured")
  }

  /** After clearing, the only narrowing left is the 0..600 price range and the URL filter. */
  lemma ClearedAdmits(c: Criteria, p: Product)
    ensures Admits(Cleared(c), p) <==> 0.0 <= p.price <= 600.0 && SaleOk(c, p) && NewOk(c, p)
  {
  }

  // ---------------------------------------------------------------------------
  // The page's filter state
  // ---------------------------------------------------------------------------

  /** The `useState` fields of the listing page, with the URL's `filter` parameter fixed at load. */
  class ProductsPage {
    const filterParam: Option<string>
    var searchQuery: string
    var sortBy: string
    var priceLow: real
    var priceHigh: real
    var selectedCategories: seq<string>

    ghost predicate Valid()
      reads this
    {
      NoDup(selectedCategories)
    }

    function Current(): (c: Criteria)
      reads this
    {
      Criteria(searchQuery, selectedCategories, priceLow, priceHigh, filterParam, sortBy)
    }

    /** A non-empty `category` URL parameter starts out as the one selected category. */
    constructor (categoryParam: Option<string>, filterParam: Option<string>)
      ensures Valid()
      ensures Current() == Criteria("", if categoryParam.Some? && categoryParam.value != "" then [categoryParam.value] else [],
                                    0.0, 600.0, filterParam, "featured")
    {
      this.filterParam := filterParam;
      searchQuery := "";
      sortBy := "featured";
      priceLow, priceHigh := 0.0, 600.0;
      selectedCategories := if categoryParam.Some? && categoryParam.value != "" then [categoryParam.value] else [];
    }

    function ActiveFiltersCount(): (n: nat)
      reads this
    {
      ActiveFilters(Current())
    }

    /** `filteredProducts` over the given catalog for the page's current filter state. */
    method FilteredProducts(catalog: seq<Product>) returns (r: seq<Product>)
      ensures multiset(r) == multiset(Selection(catalog, Current()))
      ensures sortBy == "price-low" ==> forall i, j :: 0 <= i < j < |r| ==> r[i].price <= r[j].price
      ensures sortBy == "price-high" ==> forall i, j :: 0 <= i < j < |r| ==> r[i].price >= r[j].price
      ensures sortBy == "rating" ==> forall i, j :: 0 <= i < j < |r| ==> r[i].rating >= r[j].rating
      ensures sortBy == "newest" ==> r == Reversed(Selection(catalog, Current()))
      ensures sortBy !in {"price-low", "price-high", "rating", "newest"} ==> r == Selection(catalog, Current())
    {
      r := ListProducts(catalog, Current());
    }

    method ToggleCategory(category: string)
      requires Valid()
      modifies this
      ensures Valid()
      ensures Current() == old(Current()).(selectedCategories := Toggle(old(selectedCategories), category))
      ensures category in selectedCategories <==> category !in old(selectedCategories)
    {
      ToggleKeepsNoDup(selectedCategories, category);
      selectedCategories := Toggle(selectedCategories, category);
    }

    method ClearFilters()
      requires Valid()
      modifies this
      ensures Valid()
      ensures Current() == Cleared(old(Current()))
      ensures ActiveFiltersCount() == 0
    {
      searchQuery := "";
      selectedCategories := [];
      priceLow, priceHigh := 0.0, 600.0;
      sortBy := "featured";
    }
  }
}
