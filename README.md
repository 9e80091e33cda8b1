# Property-listing page: filter, sort and reset pipeline

This project models the logic of the property-listing page (`app/properties/page.tsx`).
The page shows a read-only catalog of real-estate investment listings. The user narrows it with:

- a free-text search over title and location, ignoring case;
- an inclusive price range and an inclusive ROI range;
- a property type.

The user also picks a sort key and a grid or list layout. After every change the page filters the catalog again and sorts a copy of the result.

Modules, one file each:

- `Listing` (`listing.dfy`): the `Property` record, the `Filters` aggregate with its defaults, the view mode, and how the numeric input fields turn their text into numbers. An empty min-price field means 0. An empty max-price field means 1000000. An empty ROI field means 0, because that is `Number('')`.
- `Text` (`text.dfy`): `toLowerCase`, restricted to ASCII, and `includes`. `IncludesIff` proves `Includes` equal to the existence of an occurrence.
- `Filtering` (`filtering.dfy`): the four-part predicate and `properties.filter`.
- `Sorting` (`sorting.dfy`): the `sortBy` dispatch, the comparator, and the stable sort. `Array.prototype.sort` is stable since ECMAScript 2019 (section 23.1.3.30 of the 14th edition of ECMA-262). The sort is modelled as a stable insertion sort driven by the page's own comparator. `SortByUnique` proves that any list which is sorted by the key and keeps each tie group in input order equals this sort's output. So the model does not depend on the algorithm a JavaScript engine uses.
- `PropertiesPage` (`page.dfy`): the pipeline `Shown` (filter, then sort) and the `ViewState` class. The class holds `searchQuery`, `filters` and `viewMode`, and has one method per change handler plus `ResetFilters`.

Prices and ROIs are `real`. The page only compares and subtracts them.

Two behaviours of the code are worth noting:

- The code has one handler per range bound, not one setter per range.
- Empty input is not coerced to a permissive default everywhere. An empty max-ROI field gives 0, so afterwards only records with ROI at most 0 match.

One behaviour of the code is stated as a lemma rather than changed: `Listing.MaxPriceFieldRoundTrip`. The max-price field displays `priceRange[1] || ''`. A stored maximum of 0 therefore shows as an empty field, and an empty field stands for 1000000 when edited. The filter still uses 0.

## Model

| member | source | states |
|---|---|---|
| Listing.NumberOf | app/properties/page.tsx:156 | Models `Number(text)` on a numeric field: an empty field gives 0, a parsed number gives itself. Used by both ROI handlers (lines 156 and 166). |
| Listing.MinPriceOf | app/properties/page.tsx:120 | The min-price coercion `'' ? 0 : Number(text)` always equals `Number(text)`, because `Number('')` is already 0. |
| Listing.MaxPriceOf | app/properties/page.tsx:136 | The max-price coercion `'' ? 1000000 : Number(text)` differs from `Number(text)` exactly on the empty field. |
| Listing.PriceFieldText | app/properties/page.tsx:116 | Models the price fields' display binding (lines 116 and 131), which falls back to the empty string for a falsy bound: a bound of 0 shows as an empty field, any other bound as itself. |
| Listing.MinPriceFieldRoundTrip | app/properties/page.tsx:116-123 | Editing the min-price field with the text it displays gives back the stored bound, for every bound. This includes 0, which displays as an empty field. |
| Listing.MaxPriceFieldRoundTrip | app/properties/page.tsx:131-138 | The same round trip holds for the max-price field at every nonzero bound. At 0 the displayed empty field stands for 1000000 instead. |
| Text.ToLower | app/properties/page.tsx:34-35 | The lower-cased string has the same length and contains no capital letter. |
| Text.ToLowerIdempotent | app/properties/page.tsx:34-35 | Lower-casing twice gives the same result as lower-casing once. |
| Text.ToLowerEmpty | app/properties/page.tsx:33-35 | A query lower-cases to the empty string exactly when it is empty. |
| Text.Includes | app/properties/page.tsx:34-35 | Models `includes`. Every text includes the empty string, and a needle longer than the text is never included. |
| Text.IncludesIff | app/properties/page.tsx:34-35 | `includes` holds exactly when the needle occurs at some index of the text. |
| Filtering.MatchesSearch | app/properties/page.tsx:33-35 | The search condition: empty query, or lower-cased title or location includes the lower-cased query. A non-empty query longer than both title and location never matches. |
| Filtering.MatchesPrice | app/properties/page.tsx:38-40 | The inclusive price test. A record can pass it only when the price range is not inverted. |
| Filtering.MatchesRoi | app/properties/page.tsx:43-45 | The inclusive ROI test. A record can pass it only when the ROI range is not inverted. |
| Filtering.MatchesType | app/properties/page.tsx:48-50 | Models the type test: the filter is `all` or equals the record's type. |
| Filtering.Matches | app/properties/page.tsx:31-53 | A record is kept only when all four tests hold. So any kept record implies both ranges are not inverted. |
| Filtering.Filter | app/properties/page.tsx:31-53 | No longer than the catalog. A record is in the result if and only if it is in the catalog and meets all four conditions. |
| Filtering.FilterIsSubsequence | app/properties/page.tsx:31-53 | The result is an order-preserving subsequence of the catalog. |
| Filtering.FilterMultiplicity | app/properties/page.tsx:31-53 | A matching record appears as often as in the catalog. Any other record never appears. |
| Filtering.FilterUnconstrained | app/properties/page.tsx:31-53 | Empty search, type `all` and ranges covering every record return the catalog unchanged. |
| Filtering.FilterInvertedRange | app/properties/page.tsx:38-45 | A price or ROI range with lower bound above upper bound yields the empty list. No clamping happens. |
| Filtering.SearchIgnoresQueryCase | app/properties/page.tsx:33-35 | Lower-casing the query first does not change which records match. |
| Filtering.EmptyQueryTestRedundant | app/properties/page.tsx:33-35 | The search condition is equivalent to the two `includes` tests alone, because every string includes `''`. |
| Sorting.SortKeyOf | app/properties/page.tsx:57-65 | `price-low`, `price-high` and `roi-high` select their own key. Every other `sortBy` string selects the default branch. |
| Sorting.Compare | app/properties/page.tsx:57-66 | The comparator for each key equals the difference of one numeric rank per record. So it is a consistent comparator, and a zero result means equal rank. |
| Sorting.Insert | app/properties/page.tsx:56-66 | Inserting a record adds exactly that record to the multiset of records. |
| Sorting.SortBy | app/properties/page.tsx:56-67 | The sorted copy is a permutation of its input, with the same length. |
| Sorting.InsertSorted | app/properties/page.tsx:56-66 | Inserting into a sorted list keeps it sorted. |
| Sorting.SortBySorted | app/properties/page.tsx:56-66 | The sorted copy never ranks a record above one that follows it. |
| Sorting.InsertTies | app/properties/page.tsx:56-66 | Insertion puts the new record before every record of its own rank and leaves every other tie group unchanged. |
| Sorting.SortByStable | app/properties/page.tsx:56-66 | Stability: for every rank, the records of that rank appear in the sorted copy in their input order. |
| Sorting.SortOtherIsIdentity | app/properties/page.tsx:64-65 | The default branch leaves the list exactly as it was. |
| Sorting.SortOrderByKey | app/properties/page.tsx:57-63 | For `price-low`, adjacent prices never decrease. For `price-high`, they never increase. For `roi-high`, adjacent ROIs never increase. |
| Sorting.SortedTiesDetermine | app/properties/page.tsx:56 | Two lists sorted by the same key with the same tie groups in the same order are equal. |
| Sorting.SortByUnique | app/properties/page.tsx:56 | Any sorted list with the input's tie groups in input order is `SortBy`'s result. So every stable sort gives the modelled order. |
| PropertiesPage.Shown | app/properties/page.tsx:31-67 | `sortedProperties`: the sorted copy holds exactly the filtered records, with their multiplicities, and is never longer than the catalog. |
| PropertiesPage.ShownContents | app/properties/page.tsx:31-67 | The shown list holds exactly the matching catalog records, each as often as in the catalog. Its length (the "Showing N of M" count) is at most the catalog length. |
| PropertiesPage.ShownOrder | app/properties/page.tsx:56-67 | The shown list is sorted by the selected key. Each tie group keeps its filtered (catalog) order. |
| PropertiesPage.ShownOrderBySortBy | app/properties/page.tsx:57-63 | For `sortBy` `price-low`, adjacent shown prices never decrease. For `price-high`, they never increase. For `roi-high`, adjacent shown ROIs never increase. |
| PropertiesPage.ShownUnknownSortKey | app/properties/page.tsx:64-65 | An unrecognised sort key shows the filtered records in catalog order. |
| PropertiesPage.DefaultsShowWholeCatalog | app/properties/page.tsx:22-27 | With the default filters and an empty search, a catalog within the default ranges is shown whole, sorted by ascending price. |
| PropertiesPage.ViewState.constructor | app/properties/page.tsx:21-28 | The initial state is an empty search, the default filters (price [0, 1000000], ROI [0, 10], type `all`, sort `price-low`) and grid layout. |
| PropertiesPage.ViewState.Visible | app/properties/page.tsx:252 | The list rendered in the current state: a record appears in it exactly when it is in the catalog and matches the current search and filters. |
| PropertiesPage.ViewState.ShowingCount | app/properties/page.tsx:225 | The count shown equals the number of filtered records, so it is at most the catalog size. It is 0 exactly when no catalog record matches, which is when the "no properties found" message appears (line 344). |
| PropertiesPage.ViewState.SetSearchQuery | app/properties/page.tsx:103 | Replaces the search text. Nothing else changes. |
| PropertiesPage.ViewState.SetMinPrice | app/properties/page.tsx:117-123 | Replaces only the lower price bound. An empty field gives 0. |
| PropertiesPage.ViewState.SetMaxPrice | app/properties/page.tsx:132-138 | Replaces only the upper price bound. An empty field gives 1000000. |
| PropertiesPage.ViewState.SetMinRoi | app/properties/page.tsx:154-157 | Replaces only the lower ROI bound with `Number(text)`. An empty field gives 0. |
| PropertiesPage.ViewState.SetMaxRoi | app/properties/page.tsx:164-167 | Replaces only the upper ROI bound with `Number(text)`. An empty field gives 0; there is no special case. |
| PropertiesPage.ViewState.SetPropertyType | app/properties/page.tsx:178 | Replaces only the type filter. |
| PropertiesPage.ViewState.SetSortBy | app/properties/page.tsx:197 | Replaces only the sort key. |
| PropertiesPage.ViewState.SetViewMode | app/properties/page.tsx:234-241 | Replaces only the layout. The shown list is the same for every catalog. |
| PropertiesPage.ViewState.ResetFilters | app/properties/page.tsx:70-78 | Restores the initial filters and clears the search. Keeps the layout. Afterwards the shown list is the default pipeline's result. |
| PropertiesPage.ExampleDefaultOrder | app/properties/page.tsx:31-67 | With two records and the default filters, the cheaper record is shown first. |
| PropertiesPage.ExampleRoiOrder | app/properties/page.tsx:62-63 | Sorting the same two records by `roi-high` shows the higher ROI first. |
| PropertiesPage.ExampleTypeFilter | app/properties/page.tsx:48-50 | Type `villa` keeps only the villa. |
| PropertiesPage.ExampleSearch | app/properties/page.tsx:33-35 | The query `loft` matches the title `Downtown Loft` despite the capital letter, and nothing else. |

## Left out

- Rendering (JSX, CSS classes, cards, buttons, icons, images) and the links to `/property/<id>`: presentational or routing, not logic.
- The catalog's content (`@/lib/properties-data` is not part of this model): the catalog is an arbitrary sequence of `Property` records.
- General `Number(text)` parsing: a numeric field's value is modelled as either empty or an already-parsed number (`NumberInput`). Text the browser could not parse is not modelled.
- NaN and infinite prices or ROIs: they cannot be expressed as `real`. A NaN comparator result would make the sort order implementation-defined.
- Text.ToLower: lowercases ASCII capitals only. Unicode case mapping of `toLowerCase` is not modelled.
- `toLocaleString` price formatting: locale-dependent output only.
- The ROI fields' display binding: they show the stored number directly, with no coercion.
- The select controls' option lists: the handlers accept any string, as the code does. The options only limit what a user can pick.
- React scheduling and re-rendering: each handler is one synchronous field replacement, and the pipeline is recomputed from the new state (`ViewState.Visible`).
