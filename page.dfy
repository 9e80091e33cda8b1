/** The property page's state and the pipeline it recomputes on every change:
    filter the catalog, then sort a copy of the result. */
module PropertiesPage {
  import opened Listing
  import opened Text
  import opened Filtering
  import opened Sorting

  /** `sortedProperties`: the filtered records, sorted by the chosen key. */
  function Shown(catalog: seq<Property>, query: string, f: Filters): (r: seq<Property>)
    ensures multiset(r) == multiset(Filter(catalog, query, f))
    ensures |r| <= |catalog|
  {
    SortBy(SortKeyOf(f.sortBy), Filter(catalog, query, f))
  }

  /** The shown list holds exactly the matching records, each as often as in
      the catalog, and is never longer than the catalog: the "Showing N of M"
      line has N <= M. */
  lemma ShownContents(catalog: seq<Property>, query: string, f: Filters, p: Property)
    ensures |Shown(catalog, query, f)| <= |catalog|
    ensures multiset(Shown(catalog, query, f))[p] == if Matches(p, query, f) then multiset(catalog)[p] else 0
    ensures p in Shown(catalog, query, f) <==> p in catalog && Matches(p, query, f)
  {
    var filtered := Filter(catalog, query, f);
    FilterMultiplicity(catalog, query, f, p);
    assert p in Shown(catalog, query, f) <==> p in multiset(filtered);
  }

  /** The shown list is in order for its key, and records of equal rank keep
      their catalog order. */
  lemma ShownOrder(catalog: seq<Property>, query: string, f: Filters, v: real)
    ensures Sorted(SortKeyOf(f.sortBy), Shown(catalog, query, f))
    ensures Ties(SortKeyOf(f.sortBy), Shown(catalog, query, f), v)
         == Ties(SortKeyOf(f.sortBy), Filter(catalog, query, f), v)
  {
    SortBySorted(SortKeyOf(f.sortBy), Filter(catalog, query, f));
    SortByStable(SortKeyOf(f.sortBy), Filter(catalog, query, f), v);
  }

  /** What each of the three sort choices promises about neighbouring records
      of the shown list. */
  lemma ShownOrderBySortBy(catalog: seq<Property>, query: string, f: Filters)
    ensures var r := Shown(catalog, query, f);
      && (f.sortBy == "price-low" ==> forall i :: 0 <= i < |r| - 1 ==> r[i].price <= r[i + 1].price)
      && (f.sortBy == "price-high" ==> forall i :: 0 <= i < |r| - 1 ==> r[i].price >= r[i + 1].price)
      && (f.sortBy == "roi-high" ==> forall i :: 0 <= i < |r| - 1 ==> r[i].roi >= r[i + 1].roi)
  {
    var key := SortKeyOf(f.sortBy);
    var r := Shown(catalog, query, f);
    ShownOrder(catalog, query, f, 0.0);
    forall i | 0 <= i < |r| - 1
      ensures Rank(key, r[i]) <= Rank(key, r[i + 1])
    {
    }
    if f.sortBy == "price-low" {
      assert key == PriceLow;
    } else if f.sortBy == "price-high" {
      assert key == PriceHigh;
    } else if f.sortBy == "roi-high" {
      assert key == RoiHigh;
    }
  }

  /** A sort key other than the three named ones shows the filtered records in
      catalog order. */
  lemma ShownUnknownSortKey(catalog: seq<Property>, query: string, f: Filters)
    requires f.sortBy != "price-low" && f.sortBy != "price-high" && f.sortBy != "roi-high"
    ensures Shown(catalog, query, f) == Filter(catalog, query, f)
  {
    SortOtherIsIdentity(Filter(catalog, query, f));
  }

  /** With the default filters and no search, a catalog whose prices lie in
      [0, 1000000] and whose ROIs lie in [0, 10] is shown whole, cheapest
      first. */
  lemma DefaultsShowWholeCatalog(catalog: seq<Property>)
    requires forall p :: p in catalog ==> 0.0 <= p.price <= DefaultMaxPrice && 0.0 <= p.roi <= 10.0
    ensures Shown(catalog, "", DefaultFilters) == SortBy(PriceLow, catalog)
  {
    FilterUnconstrained(catalog, DefaultFilters);
  }

  /** The view state: search text, filter aggregate and layout. Every handler
      replaces one of them (or one field of the aggregate) and leaves the rest
      alone. */
  class ViewState {
    var searchQuery: string
    var filters: Filters
    var viewMode: ViewMode

    /** The page's initial state. */
    constructor ()
      ensures searchQuery == "" && filters == DefaultFilters && viewMode == Grid
    {
      searchQuery := "";
      filters := DefaultFilters;
      viewMode := Grid;
    }

    /** The list the page renders for `catalog` in this state. */
    function Visible(catalog: seq<Property>): (r: seq<Property>)
      reads this
      ensures forall p :: p in r <==> p in catalog && Matches(p, searchQuery, filters)
    {
      var r := Shown(catalog, searchQuery, filters);
      assert forall p :: p in r <==> p in catalog && Matches(p, searchQuery, filters) by {
        forall p
          ensures p in r <==> p in catalog && Matches(p, searchQuery, filters)
        {
          ShownContents(catalog, searchQuery, filters, p);
        }
      }
      r
    }

    /** The N of "Showing N of M properties". */
    function ShowingCount(catalog: seq<Property>): (n: nat)
      reads this
      ensures n == |Filter(catalog, searchQuery, filters)|
      ensures n <= |catalog|
      ensures n == 0 <==> forall p :: p in catalog ==> !Matches(p, searchQuery, filters)
    {
      var r := Visible(catalog);
      assert r != [] ==> r[0] in r;
      |r|
    }

    method SetSearchQuery(text: string)
      modifies this`searchQuery
      ensures searchQuery == text
      ensures filters == old(filters) && viewMode == old(viewMode)
    {
      searchQuery := text;
    }

    /** The min-price field: an empty field means 0. */
    method SetMinPrice(input: NumberInput)
      modifies this`filters
      ensures filters == old(filters).(priceRange := Range(MinPriceOf(input), old(filters).priceRange.hi))
      ensures input == Blank ==> filters.priceRange.lo == 0.0
      ensures searchQuery == old(searchQuery) && viewMode == old(viewMode)
    {
      filters := filters.(priceRange := Range(MinPriceOf(input), filters.priceRange.hi));
    }

    /** The max-price field: an empty field means 1000000. */
    method SetMaxPrice(input: NumberInput)
      modifies this`filters
      ensures filters == old(filters).(priceRange := Range(old(filters).priceRange.lo, MaxPriceOf(input)))
      ensures input == Blank ==> filters.priceRange.hi == DefaultMaxPrice
      ensures searchQuery == old(searchQuery) && viewMode == old(viewMode)
    {
      filters := filters.(priceRange := Range(filters.priceRange.lo, MaxPriceOf(input)));
    }

    /** The min-ROI field: plain `Number`, so an empty field means 0. */
    method SetMinRoi(input: NumberInput)
      modifies this`filters
      ensures filters == old(filters).(roiRange := Range(NumberOf(input), old(filters).roiRange.hi))
      ensures input == Blank ==> filters.roiRange.lo == 0.0
      ensures searchQuery == old(searchQuery) && viewMode == old(viewMode)
    {
      filters := filters.(roiRange := Range(NumberOf(input), filters.roiRange.hi));
    }

    /** The max-ROI field: plain `Number` with no special case, so an empty
        field means 0 as well, and then only records with ROI <= 0 match. */
    method SetMaxRoi(input: NumberInput)
      modifies this`filters
      ensures filters == old(filters).(roiRange := Range(old(filters).roiRange.lo, NumberOf(input)))
      ensures input == Blank ==> filters.roiRange.hi == 0.0
      ensures searchQuery == old(searchQuery) && viewMode == old(viewMode)
    {
      filters := filters.(roiRange := Range(filters.roiRange.lo, NumberOf(input)));
    }

    method SetPropertyType(value: string)
      modifies this`filters
      ensures filters == old(filters).(propertyType := value)
      ensures searchQuery == old(searchQuery) && viewMode == old(viewMode)
    {
      filters := filters.(propertyType := value);
    }

    method SetSortBy(value: string)
      modifies this`filters
      ensures filters == old(filters).(sortBy := value)
      ensures searchQuery == old(searchQuery) && viewMode == old(viewMode)
    {
      filters := filters.(sortBy := value);
    }

    /** The grid and list buttons; the shown records do not depend on it. */
    method SetViewMode(mode: ViewMode)
      modifies this`viewMode
      ensures viewMode == mode
      ensures searchQuery == old(searchQuery) && filters == old(filters)
      ensures forall catalog :: Visible(catalog) == old(Visible(catalog))
    {
      viewMode := mode;
    }

    /** `resetFilters`: the initial filters and an empty search; the layout
        stays as it was. */
    method ResetFilters()
      modifies this`filters, this`searchQuery
      ensures filters == DefaultFilters && searchQuery == ""
      ensures viewMode == old(viewMode)
      ensures forall catalog :: Visible(catalog) == Shown(catalog, "", DefaultFilters)
    {
      filters := DefaultFilters;
      searchQuery := "";
    }
  }

  /** A two-record catalog: a villa and a cheaper apartment with a higher ROI. */
  const LakeHouse := Property(1, "Lake House", "X", 100000.0, 5.0, "villa", "")
  const DowntownLoft := Property(2, "Downtown Loft", "Y", 50000.0, 8.0, "apartment", "")

  lemma ExampleFilterKeepsBoth(sortBy: string)
    ensures Filter([LakeHouse, DowntownLoft], "", DefaultFilters.(sortBy := sortBy)) == [LakeHouse, DowntownLoft]
  {
    var f := DefaultFilters.(sortBy := sortBy);
    assert Matches(LakeHouse, "", f) && Matches(DowntownLoft, "", f);
    assert [LakeHouse, DowntownLoft][1..] == [DowntownLoft];
    assert Filter([DowntownLoft], "", f) == [DowntownLoft];
  }

  /** By default the cheaper record comes first. */
  lemma ExampleDefaultOrder()
    ensures Shown([LakeHouse, DowntownLoft], "", DefaultFilters) == [DowntownLoft, LakeHouse]
  {
    ExampleFilterKeepsBoth("price-low");
    assert DefaultFilters.(sortBy := "price-low") == DefaultFilters;
    assert [LakeHouse, DowntownLoft][1..] == [DowntownLoft];
    assert SortBy(PriceLow, [DowntownLoft]) == [DowntownLoft];
    assert Insert(PriceLow, LakeHouse, [DowntownLoft]) == [DowntownLoft, LakeHouse];
  }

  /** Sorting by ROI puts the higher ROI first. */
  lemma ExampleRoiOrder()
    ensures Shown([LakeHouse, DowntownLoft], "", DefaultFilters.(sortBy := "roi-high")) == [DowntownLoft, LakeHouse]
  {
    ExampleFilterKeepsBoth("roi-high");
    assert [LakeHouse, DowntownLoft][1..] == [DowntownLoft];
    assert SortBy(RoiHigh, [DowntownLoft]) == [DowntownLoft];
    assert Insert(RoiHigh, LakeHouse, [DowntownLoft]) == [DowntownLoft, LakeHouse];
  }

  /** The type filter "villa" keeps only the villa. */
  lemma ExampleTypeFilter()
    ensures Shown([LakeHouse, DowntownLoft], "", DefaultFilters.(propertyType := "villa")) == [LakeHouse]
  {
    var f := DefaultFilters.(propertyType := "villa");
    assert Matches(LakeHouse, "", f) && !Matches(DowntownLoft, "", f);
    assert [LakeHouse, DowntownLoft][1..] == [DowntownLoft];
    assert Filter([DowntownLoft], "", f) == [];
    assert Filter([LakeHouse, DowntownLoft], "", f) == [LakeHouse];
    assert SortBy(PriceLow, [LakeHouse]) == [LakeHouse];
  }

  lemma ExampleLowerCase()
    ensures ToLower("loft") == "loft"
    ensures ToLower("Downtown Loft") == "downtown loft"
    ensures ToLower("Lake House") == "lake house"
    ensures ToLower("X") == "x"
  {
  }

  lemma ExampleLoftIncluded()
    ensures Includes("downtown loft", "loft")
  {
    var hay := "downtown loft";
    assert hay[9..13] == "loft";
    assert OccursAt(hay, "loft", 9);
    IncludesIff(hay, "loft");
  }

  lemma ExampleLoftNotIncluded()
    ensures !Includes("lake house", "loft")
    ensures !Includes("x", "loft")
  {
    IncludesIff("lake house", "loft");
    forall i | OccursAt("lake house", "loft", i)
      ensures false
    {
      OccursAtChar("lake house", "loft", i, 0);
      OccursAtChar("lake house", "loft", i, 1);
      assert false;
    }
  }

  /** The search "loft" finds "Downtown Loft" though the title is capitalised. */
  lemma ExampleSearch()
    ensures Shown([LakeHouse, DowntownLoft], "loft", DefaultFilters) == [DowntownLoft]
  {
    ExampleLowerCase();
    ExampleLoftIncluded();
    ExampleLoftNotIncluded();
    var f := DefaultFilters;
    assert !Matches(LakeHouse, "loft", f) && Matches(DowntownLoft, "loft", f);
    assert [LakeHouse, DowntownLoft][1..] == [DowntownLoft];
    assert Filter([DowntownLoft], "loft", f) == [DowntownLoft];
    assert Filter([LakeHouse, DowntownLoft], "loft", f) == [DowntownLoft];
    assert SortBy(PriceLow, [DowntownLoft]) == [DowntownLoft];
  }
}
