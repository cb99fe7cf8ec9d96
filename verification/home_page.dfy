/** The home page's listing (src/app/page.tsx): the initial list of active
    drones, and `handleFilterChange`, which re-filters the whole catalogue in
    stages — active, then brand, then level, then inclusive price. */
module HomePage {
  import opened Wrappers
  import opened DroneTypes
  import opened Seqs
  import opened ListingFilters

  /** The list shown before any filter change: the active drones, in catalogue order. */
  function InitialListing(catalogue: seq<Drone>): (r: seq<Drone>)
    ensures forall d :: d in r <==> d in catalogue && d.status == Active
    ensures forall d :: multiset(r)[d] == if d.status == Active then multiset(catalogue)[d] else 0
    ensures IsSubseq(r, catalogue)
  {
    FilterIsSubseq(catalogue, IsActive);
    FilterMultiset(catalogue, IsActive);
    Filter(catalogue, IsActive)
  }

  /** `handleFilterChange(brand, level, [lo, hi])`, stage by stage as written. */
  function HandleFilterChange(catalogue: seq<Drone>, c: Criteria): (r: seq<Drone>)
    ensures forall d :: d in r <==> d in catalogue && IsActive(d) && Matches(d, c)
    ensures c.lo > c.hi ==> r == []
  {
    var active := Filter(catalogue, IsActive);
    var byBrand := if c.brand != "" then Filter(active, BrandIs(c.brand)) else active;
    var byLevel := if c.level.Some? then Filter(byBrand, LevelIs(c.level.value)) else byBrand;
    var r := Filter(byLevel, PriceWithin(c.lo, c.hi));
    assert c.lo > c.hi ==> r == [] by {
      if c.lo > c.hi {
        FilterNone(byLevel, PriceWithin(c.lo, c.hi));
      }
    }
    r
  }

  /** The stages act as one conjunction over the catalogue: the result is exactly
      the single-pass filter by "active and matches", hence an order-preserving
      subsequence of the catalogue. */
  lemma {:induction false} HandleFilterChangeIsConjunction(catalogue: seq<Drone>, c: Criteria)
    ensures HandleFilterChange(catalogue, c) == Filter(catalogue, (d: Drone) => IsActive(d) && Matches(d, c))
    ensures IsSubseq(HandleFilterChange(catalogue, c), catalogue)
  {
    var active := Filter(catalogue, IsActive);
    var s1 := (d: Drone) => IsActive(d) && BrandOk(d, c.brand);
    var s2 := (d: Drone) => s1(d) && LevelOk(d, c.level);
    var s3 := (d: Drone) => IsActive(d) && Matches(d, c);
    var byBrand := if c.brand != "" then Filter(active, BrandIs(c.brand)) else active;
    if c.brand != "" {
      FilterCompose(catalogue, IsActive, BrandIs(c.brand), s1);
    } else {
      FilterExt(catalogue, IsActive, s1);
    }
    assert byBrand == Filter(catalogue, s1);
    var byLevel := if c.level.Some? then Filter(byBrand, LevelIs(c.level.value)) else byBrand;
    if c.level.Some? {
      FilterCompose(catalogue, s1, LevelIs(c.level.value), s2);
    } else {
      FilterExt(catalogue, s1, s2);
    }
    assert byLevel == Filter(catalogue, s2);
    FilterCompose(catalogue, s2, PriceWithin(c.lo, c.hi), s3);
    FilterIsSubseq(catalogue, s3);
  }

  /** With every active drone priced inside the default pair, the initial list
      equals what `handleFilterChange` yields for the default filter state.
      A drone priced above 10,000,000 is shown initially but not after a reset. */
  lemma InitialAgreesWithDefaultFilter(catalogue: seq<Drone>)
    requires forall d :: d in catalogue && IsActive(d) ==> DefaultLo <= d.price <= DefaultHi
    ensures InitialListing(catalogue) == HandleFilterChange(catalogue, Criteria("", None, DefaultLo, DefaultHi))
  {
    var c := Criteria("", None, DefaultLo, DefaultHi);
    HandleFilterChangeIsConjunction(catalogue, c);
    FilterExt(catalogue, IsActive, (d: Drone) => IsActive(d) && Matches(d, c));
  }
}
