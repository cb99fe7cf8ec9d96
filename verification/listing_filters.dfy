/** The drone predicates shared by the home and search pages: default visibility
    (status active) and the brand, level and inclusive price-range constraints.
    An empty brand and an absent level impose nothing. */
module ListingFilters {
  import opened Wrappers
  import opened DroneTypes

  /** The filter state a page holds: brand ('' for any), level (absent for any)
      and the price pair `[lo, hi]`. */
  datatype Criteria = Criteria(brand: string, level: Option<Level>, lo: int, hi: int)

  /** The price pair both pages start from. */
  const DefaultLo: int := 0
  const DefaultHi: int := 10000000

  predicate IsActive(d: Drone) {
    d.status == Active
  }

  predicate BrandOk(d: Drone, brand: string) {
    brand == "" || d.brand == brand
  }

  predicate LevelOk(d: Drone, level: Option<Level>) {
    level.None? || d.level == level.value
  }

  predicate PriceOk(d: Drone, lo: int, hi: int) {
    lo <= d.price && d.price <= hi
  }

  /** The single-constraint stages the pages apply one after another. */
  function BrandIs(brand: string): Drone -> bool {
    (d: Drone) => d.brand == brand
  }

  function LevelIs(level: Level): Drone -> bool {
    (d: Drone) => d.level == level
  }

  function PriceWithin(lo: int, hi: int): Drone -> bool {
    (d: Drone) => PriceOk(d, lo, hi)
  }

  /** The conjunction of the three user-selected constraints. */
  predicate Matches(d: Drone, c: Criteria) {
    BrandOk(d, c.brand) && LevelOk(d, c.level) && PriceOk(d, c.lo, c.hi)
  }

  /** `c` is at least as strict as `wide`: a brand or level is only added, never
      changed, and the price range only shrinks. */
  predicate Narrows(c: Criteria, wide: Criteria) {
    && (wide.brand == "" || c.brand == wide.brand)
    && (wide.level.None? || c.level == wide.level)
    && wide.lo <= c.lo && c.hi <= wide.hi
  }

  /** Narrower criteria accept fewer drones. */
  lemma NarrowsImpliesMatches(c: Criteria, wide: Criteria, d: Drone)
    requires Narrows(c, wide)
    requires Matches(d, c)
    ensures Matches(d, wide)
  {
  }
}
