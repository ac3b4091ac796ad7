/**
  The product listing page: the filter state, the three filters applied in
  turn (search, categories, price range), the four sort orders, and the
  filter-state setters. Prices are in cents; the price slider works in whole
  dollars.
 */
module Listing {
  import opened Wrappers
  import Seqs
  import Strings
  import Catalog

  /** The categories offered as checkboxes, in display order. */
  const Categories: seq<string> := ["guns", "animals", "plants", "geometric", "abstract"]

  /** The slider's bounds, in whole dollars. */
  const MinPrice: int := 0
  const MaxPrice: int := 100

  /** The listing's filter state: search text, ticked categories, slider range (dollars) and sort key. */
  datatype Filters = Filters(
    searchTerm: string,
    selectedCategories: seq<string>,
    low: int,
    high: int,
    sortBy: string)

  // ---------------------------------------------------------------------------
  // The filters

  /** The lower-cased term occurs in the lower-cased name, description or short description. */
  predicate SearchMatches(p: Catalog.Product, term: string)
  {
    var search := Strings.ToLower(term);
    Strings.Contains(Strings.ToLower(p.name), search) ||
    Strings.Contains(Strings.ToLower(p.description), search) ||
    Strings.Contains(Strings.ToLower(p.shortDescription), search)
  }

  /** The price, in cents, lies in the slider's inclusive range, in dollars. */
  predicate InPriceRange(p: Catalog.Product, low: int, high: int)
  {
    low * 100 <= p.price <= high * 100
  }

  /** Every active filter accepts `p`: an empty term and an empty category list are inactive. */
  predicate PassesAll(p: Catalog.Product, f: Filters)
  {
    (|f.searchTerm| == 0 || SearchMatches(p, f.searchTerm)) &&
    (|f.selectedCategories| == 0 || p.category in f.selectedCategories) &&
    InPriceRange(p, f.low, f.high)
  }

  /** The products every active filter accepts, in catalog order. */
  function Passing(ps: seq<Catalog.Product>, f: Filters): seq<Catalog.Product>
  {
    Seqs.Filter(ps, (p: Catalog.Product) => PassesAll(p, f))
  }

  /** Searching ignores the case of the term, as far as ASCII letters go. */
  lemma SearchIgnoresCase(p: Catalog.Product, term: string)
    ensures SearchMatches(p, term) == SearchMatches(p, Strings.ToLower(term))
  {
    Strings.ToLowerIdempotent(term);
  }

  /** With no search term and no category ticked, only the price range filters. */
  lemma InactiveFiltersImposeNothing(ps: seq<Catalog.Product>, f: Filters)
    requires f.searchTerm == [] && f.selectedCategories == []
    ensures Passing(ps, f) == Seqs.Filter(ps, (p: Catalog.Product) => InPriceRange(p, f.low, f.high))
  {
    PassingByPrice(ps, f);
  }

  lemma {:induction false} PassingByPrice(ps: seq<Catalog.Product>, f: Filters)
    requires f.searchTerm == [] && f.selectedCategories == []
    ensures Passing(ps, f) == Seqs.Filter(ps, (p: Catalog.Product) => InPriceRange(p, f.low, f.high))
  {
    if |ps| > 0 {
      PassingByPrice(ps[1..], f);
    }
  }

  // ---------------------------------------------------------------------------
  // The sort orders: each comparator read as "a is not after b"

  /** `a.price - b.price` is not positive. */
  predicate PriceAscending(a: Catalog.Product, b: Catalog.Product)
  {
    a.price - b.price <= 0
  }

  /** `b.price - a.price` is not positive. */
  predicate PriceDescending(a: Catalog.Product, b: Catalog.Product)
  {
    b.price - a.price <= 0
  }

  /** The name order (the locale order replaced by character-code order). */
  predicate NameOrder(a: Catalog.Product, b: Catalog.Product)
  {
    Strings.LexLe(a.name, b.name)
  }

  /** The featured comparator puts `a` after `b` only when `a` is not featured and `b` is. */
  predicate FeaturedFirst(a: Catalog.Product, b: Catalog.Product)
  {
    !(!a.featured && b.featured)
  }

  predicate NotFeatured(p: Catalog.Product)
  {
    !p.featured
  }

  /** The sort key's effect: a stable sort by the key's comparator; an unknown key sorts featured first. */
  function SortListing(ps: seq<Catalog.Product>, sortBy: string): (r: seq<Catalog.Product>)
    ensures multiset(r) == multiset(ps)
  {
    var le := SortOrder(sortBy);
    Seqs.InsertionSortPermutes(ps, le);
    Seqs.InsertionSort(ps, le)
  }

  /** The comparator a sort key selects. */
  function SortOrder(sortBy: string): (Catalog.Product, Catalog.Product) -> bool
  {
    if sortBy == "price-low" then PriceAscending
    else if sortBy == "price-high" then PriceDescending
    else if sortBy == "name" then NameOrder
    else FeaturedFirst
  }

  /** The keys the page treats as "featured first": `featured` itself and every unrecognised key. */
  predicate IsFeaturedOrder(sortBy: string)
  {
    sortBy != "price-low" && sortBy != "price-high" && sortBy != "name"
  }

  lemma PriceAscendingIsPreorder()
    ensures Seqs.Total(PriceAscending) && Seqs.Transitive(PriceAscending)
  {
  }

  lemma PriceDescendingIsPreorder()
    ensures Seqs.Total(PriceDescending) && Seqs.Transitive(PriceDescending)
  {
  }

  lemma NameOrderIsPreorder()
    ensures Seqs.Total(NameOrder) && Seqs.Transitive(NameOrder)
  {
    Strings.LexLeIsTotalOrder();
    forall a: Catalog.Product, b: Catalog.Product ensures NameOrder(a, b) || NameOrder(b, a) {
    }
    forall a: Catalog.Product, b: Catalog.Product, c: Catalog.Product | NameOrder(a, b) && NameOrder(b, c)
      ensures NameOrder(a, c)
    {
      Strings.LexLeTransitive(a.name, b.name, c.name);
    }
  }

  /** `price-low` lists prices in non-decreasing order. */
  lemma PriceLowAscends(ps: seq<Catalog.Product>)
    ensures var r := SortListing(ps, "price-low");
      forall i, j :: 0 <= i < j < |r| ==> r[i].price <= r[j].price
  {
    PriceAscendingIsPreorder();
    Seqs.InsertionSortSorted(ps, PriceAscending);
  }

  /** `price-high` lists prices in non-increasing order. */
  lemma PriceHighDescends(ps: seq<Catalog.Product>)
    ensures var r := SortListing(ps, "price-high");
      forall i, j :: 0 <= i < j < |r| ==> r[i].price >= r[j].price
  {
    PriceDescendingIsPreorder();
    Seqs.InsertionSortSorted(ps, PriceDescending);
  }

  /** `name` lists names in order. */
  lemma NameSortOrders(ps: seq<Catalog.Product>)
    ensures var r := SortListing(ps, "name");
      forall i, j :: 0 <= i < j < |r| ==> Strings.LexLe(r[i].name, r[j].name)
  {
    NameOrderIsPreorder();
    Seqs.InsertionSortSorted(ps, NameOrder);
  }

  /** The featured comparator ranks featured products ahead and ties every other pair. */
  lemma FeaturedFirstRanksFeatured()
    ensures Seqs.RanksFirst(FeaturedFirst, Catalog.IsFeatured, NotFeatured)
  {
  }

  /**
    `featured` and any unrecognised key: the sort is stable, so the listing is
    the featured products in their original order, then the others in theirs.
   */
  lemma FeaturedOrderSplits(ps: seq<Catalog.Product>, sortBy: string)
    requires IsFeaturedOrder(sortBy)
    ensures SortListing(ps, sortBy) == Seqs.Filter(ps, Catalog.IsFeatured) + Seqs.Filter(ps, NotFeatured)
  {
    FeaturedFirstRanksFeatured();
    Seqs.SortByClass(ps, FeaturedFirst, Catalog.IsFeatured, NotFeatured);
  }

  // ---------------------------------------------------------------------------
  // The pipeline

  /**
    The listing effect: filter by search term, then by category, then by
    price, and sort the result by the sort key.
   */
  method ApplyFilters(ps: seq<Catalog.Product>, f: Filters) returns (result: seq<Catalog.Product>)
    ensures forall i :: 0 <= i < |result| ==> PassesAll(result[i], f)
    ensures multiset(result) == multiset(Passing(ps, f))
    ensures |result| <= |ps|
    ensures f.sortBy == "price-low" ==> forall i, j :: 0 <= i < j < |result| ==> result[i].price <= result[j].price
    ensures f.sortBy == "price-high" ==> forall i, j :: 0 <= i < j < |result| ==> result[i].price >= result[j].price
    ensures f.sortBy == "name" ==> forall i, j :: 0 <= i < j < |result| ==> Strings.LexLe(result[i].name, result[j].name)
    ensures IsFeaturedOrder(f.sortBy) ==>
      result == Seqs.Filter(Passing(ps, f), Catalog.IsFeatured) + Seqs.Filter(Passing(ps, f), NotFeatured)
  {
    var searchOk := (p: Catalog.Product) => |f.searchTerm| == 0 || SearchMatches(p, f.searchTerm);
    var categoryOk := (p: Catalog.Product) => |f.selectedCategories| == 0 || p.category in f.selectedCategories;
    var priceOk := (p: Catalog.Product) => InPriceRange(p, f.low, f.high);
    var searchAndCategory := (p: Catalog.Product) => searchOk(p) && categoryOk(p);
    var all := (p: Catalog.Product) => PassesAll(p, f);

    result := ps;
    if |f.searchTerm| > 0 {
      var matches := (p: Catalog.Product) => SearchMatches(p, f.searchTerm);
      Seqs.FilterAgrees(result, matches, searchOk);
      result := Seqs.Filter(result, matches);
    } else {
      Seqs.FilterKeepsAll(ps, searchOk);
    }
    assert result == Seqs.Filter(ps, searchOk);
    var afterSearch := result;
    if |f.selectedCategories| > 0 {
      var ticked := (p: Catalog.Product) => p.category in f.selectedCategories;
      Seqs.FilterAgrees(result, ticked, categoryOk);
      result := Seqs.Filter(result, ticked);
    } else {
      Seqs.FilterKeepsAll(afterSearch, categoryOk);
    }
    assert result == Seqs.Filter(Seqs.Filter(ps, searchOk), categoryOk);
    Seqs.FilterTwice(ps, searchOk, categoryOk, searchAndCategory);
    result := Seqs.Filter(result, priceOk);
    Seqs.FilterTwice(ps, searchAndCategory, priceOk, all);
    var passing := result;
    assert passing == Passing(ps, f);

    result := SortListing(passing, f.sortBy);
    if f.sortBy == "price-low" {
      PriceLowAscends(passing);
    } else if f.sortBy == "price-high" {
      PriceHighDescends(passing);
    } else if f.sortBy == "name" {
      NameSortOrders(passing);
    } else {
      FeaturedOrderSplits(passing, f.sortBy);
    }
    forall i | 0 <= i < |result| ensures PassesAll(result[i], f) {
      assert result[i] in multiset(passing);
      Seqs.FilterAccepted(ps, (p: Catalog.Product) => PassesAll(p, f), result[i]);
    }
  }

  // ---------------------------------------------------------------------------
  // The filter-state setters

  predicate NoDuplicates(s: seq<string>)
  {
    forall i, j :: 0 <= i < j < |s| ==> s[i] != s[j]
  }

  /** Ticking a category: a ticked one is removed (every occurrence), an unticked one appended. */
  function ToggleCategory(selected: seq<string>, category: string): (r: seq<string>)
    ensures category in selected ==> category !in r
    ensures category in selected ==> forall i :: 0 <= i < |selected| && selected[i] != category ==> selected[i] in r
    ensures category in selected ==> forall i :: 0 <= i < |r| ==> r[i] in selected
    ensures category !in selected ==> r == selected + [category]
  {
    if category in selected then
      Seqs.FilterSpec(selected, (c: string) => c != category);
      Seqs.Filter(selected, (c: string) => c != category)
    else selected + [category]
  }

  lemma {:induction false} RemoveAllMultiset(s: seq<string>, category: string)
    ensures multiset(Seqs.Filter(s, (c: string) => c != category)) == multiset(s)[category := 0]
  {
    if |s| > 0 {
      RemoveAllMultiset(s[1..], category);
      assert s == [s[0]] + s[1..];
    }
  }

  lemma {:induction false} NoDuplicatesCount(s: seq<string>, x: string)
    requires NoDuplicates(s)
    ensures multiset(s)[x] <= 1
  {
    if |s| > 0 {
      NoDuplicatesCount(s[1..], x);
      assert s == [s[0]] + s[1..];
      if s[0] == x {
        assert x !in s[1..];
      }
    }
  }

  /**
    Toggling the same category twice gives back a duplicate-free selection
    up to order; an unticked category is appended and removed again, leaving
    the selection exactly as it was.
   */
  lemma ToggleCategoryTwice(selected: seq<string>, category: string)
    requires NoDuplicates(selected)
    ensures multiset(ToggleCategory(ToggleCategory(selected, category), category)) == multiset(selected)
    ensures category !in selected ==> ToggleCategory(ToggleCategory(selected, category), category) == selected
  {
    var keep := (c: string) => c != category;
    if category in selected {
      RemoveAllMultiset(selected, category);
      NoDuplicatesCount(selected, category);
    } else {
      var once := selected + [category];
      RemoveAllMultiset(once, category);
      Seqs.FilterAppend(selected, [category], keep);
      Seqs.FilterKeepsAll(selected, keep);
    }
  }

  /** Toggling keeps a selection free of duplicates. */
  lemma ToggleCategoryKeepsNoDuplicates(selected: seq<string>, category: string)
    requires NoDuplicates(selected)
    ensures NoDuplicates(ToggleCategory(selected, category))
  {
    if category in selected {
      Seqs.FilterPairwise(selected, (c: string) => c != category, (x: string, y: string) => x != y);
    }
  }

  /** `clearFilters`: no search term, no category, the whole slider range, featured first. */
  function ClearFilters(): (f: Filters)
    ensures forall p: Catalog.Product :: PassesAll(p, f) <==> 0 <= p.price <= 10000
    ensures IsFeaturedOrder(f.sortBy)
  {
    Filters("", [], MinPrice, MaxPrice, "featured")
  }

  /** After clearing, the whole catalog is listed, featured products first. */
  lemma ClearedListingShowsCatalog()
    ensures Passing(Catalog.Products, ClearFilters()) == Catalog.Products
  {
    Catalog.PricesWithinSlider();
    Seqs.FilterKeepsAll(Catalog.Products, (p: Catalog.Product) => PassesAll(p, ClearFilters()));
  }

  /** The category named in the address is ticked alone, and only when it is a known category. */
  function AdoptUrlCategory(param: Option<string>, selected: seq<string>): (r: seq<string>)
    ensures param.Some? && param.value in Categories ==> r == [param.value]
    ensures !(param.Some? && param.value in Categories) ==> r == selected
    ensures forall i :: 0 <= i < |r| && r[i] !in selected ==> r[i] in Categories
  {
    if param.Some? && |param.value| > 0 && param.value in Categories then [param.value] else selected
  }
}
