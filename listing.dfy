/** The records the property page shows and the filter state it keeps
    (app/properties/page.tsx, the `Filters` type and its initial value). */
module Listing {

  /** One catalog record. The catalog itself comes from a data module outside
      the page and is never changed by it. `kind` is the record's `type` field
      (apartment, villa, office, ...), renamed because `type` is a keyword. */
  datatype Property = Property(
    id: int,
    title: string,
    location: string,
    price: real,
    roi: real,
    kind: string,
    image: string)

  /** An inclusive numeric interval `[lo, hi]`; nothing forces `lo <= hi`. */
  datatype Range = Range(lo: real, hi: real) {
    predicate Contains(x: real) {
      lo <= x && x <= hi
    }
  }

  /** The filter aggregate: both ranges, the type constraint and the sort key,
      the last two held as the strings the select controls produce. */
  datatype Filters = Filters(
    priceRange: Range,
    roiRange: Range,
    propertyType: string,
    sortBy: string)

  /** Layout toggle; it never influences which records are shown. */
  datatype ViewMode = Grid | List

  /** The `propertyType` value that means "no type constraint". */
  const AllTypes: string := "all"

  /** The price an empty max-price field stands for, and the default upper bound. */
  const DefaultMaxPrice: real := 1000000.0

  /** The filters the page starts with and that the reset button restores. */
  const DefaultFilters: Filters :=
    Filters(Range(0.0, DefaultMaxPrice), Range(0.0, 10.0), AllTypes, "price-low")

  /** What a numeric input field hands to its change handler: either nothing
      (the empty string) or a number the browser has already parsed. */
  datatype NumberInput = Blank | Value(v: real)

  /** JavaScript's `Number(text)` on a numeric field: the empty string is 0. */
  function NumberOf(input: NumberInput): real {
    match input
    case Blank => 0.0
    case Value(v) => v
  }

  /** The min-price handler: an empty field means 0, which is what `Number`
      gives for it anyway, so the special case changes nothing. */
  function MinPriceOf(input: NumberInput): (r: real)
    ensures r == NumberOf(input)
  {
    if input == Blank then 0.0 else NumberOf(input)
  }

  /** The max-price handler: an empty field means the default maximum; only
      there does it differ from `Number`. */
  function MaxPriceOf(input: NumberInput): (r: real)
    ensures input != Blank ==> r == NumberOf(input)
    ensures r != NumberOf(input) <==> input == Blank
  {
    if input == Blank then DefaultMaxPrice else NumberOf(input)
  }

  /** What a price field displays for a stored bound: `bound || ''`, so 0 shows
      as an empty field. */
  function PriceFieldText(bound: real): NumberInput {
    if bound == 0.0 then Blank else Value(bound)
  }

  /** Editing the min-price field with what it displays gives back the stored
      bound, for every bound: the empty field and the bound 0 correspond. */
  lemma MinPriceFieldRoundTrip(bound: real)
    ensures MinPriceOf(PriceFieldText(bound)) == bound
  {
  }

  /** The same holds for the max-price field except at 0: a max price of 0 is
      shown as an empty field, and an empty field stands for 1000000. */
  lemma MaxPriceFieldRoundTrip(bound: real)
    ensures bound != 0.0 ==> MaxPriceOf(PriceFieldText(bound)) == bound
    ensures MaxPriceOf(PriceFieldText(0.0)) == DefaultMaxPrice
  {
  }
}
