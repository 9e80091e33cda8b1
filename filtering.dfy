/** The filter predicate of the property page and the `properties.filter`
    call that applies it to the catalog. */
module Filtering {
  import opened Listing
  import opened Text

  /** Empty query, or the title or the location contains the query, both
      compared in lower case. */
  predicate MatchesSearch(p: Property, query: string)
    ensures MatchesSearch(p, query) ==> query == "" || |query| <= |p.title| || |query| <= |p.location|
  {
    query == ""
    || Includes(ToLower(p.title), ToLower(query))
    || Includes(ToLower(p.location), ToLower(query))
  }

  /** Inclusive at both ends; an inverted range admits nothing. */
  predicate MatchesPrice(p: Property, f: Filters)
    ensures MatchesPrice(p, f) ==> f.priceRange.lo <= f.priceRange.hi
  {
    f.priceRange.Contains(p.price)
  }

  /** Inclusive at both ends; an inverted range admits nothing. */
  predicate MatchesRoi(p: Property, f: Filters)
    ensures MatchesRoi(p, f) ==> f.roiRange.lo <= f.roiRange.hi
  {
    f.roiRange.Contains(p.roi)
  }

  predicate MatchesType(p: Property, f: Filters) {
    f.propertyType == AllTypes || p.kind == f.propertyType
  }

  /** A record is kept when all four conditions hold. */
  predicate Matches(p: Property, query: string, f: Filters)
    ensures Matches(p, query, f) ==> f.priceRange.lo <= f.priceRange.hi && f.roiRange.lo <= f.roiRange.hi
  {
    MatchesSearch(p, query) && MatchesPrice(p, f) && MatchesRoi(p, f) && MatchesType(p, f)
  }

  /** `properties.filter(...)`: the matching records, in catalog order. */
  function Filter(catalog: seq<Property>, query: string, f: Filters): (r: seq<Property>)
    ensures |r| <= |catalog|
    ensures forall p :: p in r <==> p in catalog && Matches(p, query, f)
  {
    if catalog == [] then []
    else (if Matches(catalog[0], query, f) then [catalog[0]] else [])
         + Filter(catalog[1..], query, f)
  }

  /** `xs` is `ys` with some elements dropped and the rest in their order. */
  predicate IsSubsequence<T(==)>(xs: seq<T>, ys: seq<T>)
    decreases |ys|
  {
    xs == [] || (ys != [] && ((xs[0] == ys[0] && IsSubsequence(xs[1..], ys[1..])) || IsSubsequence(xs, ys[1..])))
  }

  /** The result is an order-preserving subsequence of the catalog. */
  lemma {:induction false} FilterIsSubsequence(catalog: seq<Property>, query: string, f: Filters)
    ensures IsSubsequence(Filter(catalog, query, f), catalog)
  {
    if catalog != [] {
      FilterIsSubsequence(catalog[1..], query, f);
      var r := Filter(catalog, query, f);
      if Matches(catalog[0], query, f) {
        assert r[0] == catalog[0] && r[1..] == Filter(catalog[1..], query, f);
      } else {
        assert r == Filter(catalog[1..], query, f);
        if r != [] {
          assert IsSubsequence(r, catalog[1..]);
        }
      }
    }
  }

  /** Each matching record is kept as often as the catalog lists it, each
      other record never. */
  lemma {:induction false} FilterMultiplicity(catalog: seq<Property>, query: string, f: Filters, p: Property)
    ensures multiset(Filter(catalog, query, f))[p] == if Matches(p, query, f) then multiset(catalog)[p] else 0
  {
    if catalog != [] {
      FilterMultiplicity(catalog[1..], query, f, p);
      assert catalog == [catalog[0]] + catalog[1..];
    }
  }

  /** With an empty query, type `all` and ranges covering every record, the
      whole catalog comes back unchanged. */
  lemma {:induction false} FilterUnconstrained(catalog: seq<Property>, f: Filters)
    requires f.propertyType == AllTypes
    requires forall p :: p in catalog ==> f.priceRange.Contains(p.price) && f.roiRange.Contains(p.roi)
    ensures Filter(catalog, "", f) == catalog
  {
    if catalog != [] {
      FilterUnconstrained(catalog[1..], f);
    }
  }

  /** No range is clamped: a price range or an ROI range whose lower bound
      exceeds its upper bound matches nothing. */
  lemma FilterInvertedRange(catalog: seq<Property>, query: string, f: Filters)
    requires f.priceRange.lo > f.priceRange.hi || f.roiRange.lo > f.roiRange.hi
    ensures Filter(catalog, query, f) == []
  {
  }

  /** Search is case-insensitive: lower-casing the query beforehand does not
      change which records match. */
  lemma SearchIgnoresQueryCase(p: Property, query: string)
    ensures MatchesSearch(p, ToLower(query)) == MatchesSearch(p, query)
  {
    ToLowerIdempotent(query);
    ToLowerEmpty(query);
  }

  /** The explicit empty-query test is redundant: `includes("")` always holds,
      so the search condition is just the two `includes` tests. */
  lemma EmptyQueryTestRedundant(p: Property, query: string)
    ensures MatchesSearch(p, query)
        <==> Includes(ToLower(p.title), ToLower(query)) || Includes(ToLower(p.location), ToLower(query))
  {
    if query == "" {
      assert ToLower(query) == "";
    }
  }
}
