/** The filter panel (src/components/FilterSection.tsx): its state, the reset
    button, the "any filter active" test, level captions and the option tables
    of the two range selectors. */
module FilterSection {
  import opened Wrappers
  import opened DroneTypes

  /** The selection the panel displays: brand and level as strings ('' for any),
      the two range selectors as option values. */
  datatype FilterState = FilterState(brand: string, priceRange: int, flightDistanceRange: int, level: string)

  /** `hasActiveFilters`: something other than "any" is selected. A non-empty
      string is truthy, so brand and level count when they are not ''. With
      non-negative selector values, no filter is active exactly in the state
      the reset button produces. */
  predicate HasActiveFilters(s: FilterState)
    ensures s.priceRange >= 0 && s.flightDistanceRange >= 0 ==>
      (!HasActiveFilters(s) <==> s == FilterState("", 0, 0, ""))
  {
    s.brand != "" || s.priceRange > 0 || s.flightDistanceRange > 0 || s.level != ""
  }

  /** `handleResetFilters`: every selector back to its "any" option. */
  function ResetFilters(s: FilterState): (r: FilterState)
    ensures !HasActiveFilters(r)
    ensures 0 <= r.priceRange < |PriceRanges()| && PriceRanges()[r.priceRange] == Band("전체", 0, Unbounded)
    ensures 0 <= r.flightDistanceRange < |FlightDistanceRanges()|
    ensures FlightDistanceRanges()[r.flightDistanceRange] == Band("전체", 0, Unbounded)
  {
    FilterState("", 0, 0, "")
  }

  /** Resetting twice is resetting once, and with non-negative selector values a
      state shows no active filter exactly when it is the reset state. */
  lemma ResetIdempotent(s: FilterState)
    ensures ResetFilters(ResetFilters(s)) == ResetFilters(s)
    ensures s.priceRange >= 0 && s.flightDistanceRange >= 0 ==>
      (!HasActiveFilters(s) <==> s == ResetFilters(s))
  {
  }

  /** `getLevelLabel`: the Korean caption of a level; any other string is shown as is. */
  function LevelLabel(level: string): (r: string)
    ensures ParseLevel(level).None? ==> r == level
    ensures ParseLevel(level).Some? ==> r != level
  {
    match ParseLevel(level)
    case Some(Beginner) => "입문용"
    case Some(Intermediate) => "중급자용"
    case Some(Professional) => "전문가용"
    case Some(Industrial) => "산업용"
    case None => level
  }

  /** The four levels get four different captions. */
  lemma LevelLabelsDistinct(l: Level, m: Level)
    requires l != m
    ensures LevelLabel(LevelName(l)) != LevelLabel(LevelName(m))
  {
  }

  datatype RangeOption = RangeOption(caption: string, value: int)

  /** An option table whose values are the positions 0.. and whose option 0 is "any". */
  predicate IndexedFromAny(options: seq<RangeOption>) {
    && |options| > 0
    && options[0].caption == "전체"
    && forall i :: 0 <= i < |options| ==> options[i].value == i
  }

  function PriceRangeOptions(): (r: seq<RangeOption>)
    ensures |r| == 5 && IndexedFromAny(r)
    ensures forall i :: 0 <= i < |r| ==> r[i].caption == PriceRanges()[i].caption
  {
    [ RangeOption("전체", 0), RangeOption("10만원 이하", 1), RangeOption("10-30만원", 2),
      RangeOption("30-50만원", 3), RangeOption("50만원 이상", 4) ]
  }

  function FlightDistanceRangeOptions(): (r: seq<RangeOption>)
    ensures |r| == 5 && IndexedFromAny(r)
    ensures forall i :: 0 <= i < |r| ==> r[i].caption == FlightDistanceRanges()[i].caption
  {
    [ RangeOption("전체", 0), RangeOption("1km 이하", 1), RangeOption("1-3km", 2),
      RangeOption("3-5km", 3), RangeOption("5km 이상", 4) ]
  }
}
