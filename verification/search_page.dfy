/** The search page's query pipeline (src/app/search/page.tsx): active drones,
    then the free-text query, then brand, level and inclusive price, each stage
    filtering the previous one. */
module SearchPage {
  import opened Wrappers
  import opened DroneTypes
  import opened Seqs
  import opened Text
  import opened ListingFilters
  import HomePage

  /** The lower-cased term occurs in the lower-cased name, brand, description or location. */
  predicate TextMatches(d: Drone, term: string) {
    || Includes(Lower(d.name), term)
    || Includes(Lower(d.brand), term)
    || Includes(Lower(d.description), term)
    || Includes(Lower(d.location), term)
  }

  function MentionsTerm(term: string): Drone -> bool {
    (d: Drone) => TextMatches(d, term)
  }

  /** The text stage: an empty query keeps everything. */
  predicate QueryOk(d: Drone, query: string) {
    query == "" || TextMatches(d, Lower(query))
  }

  /** The `useEffect` pipeline for query `q` and filter state `c`. */
  function Search(catalogue: seq<Drone>, query: string, c: Criteria): (r: seq<Drone>)
    ensures forall d :: d in r <==> d in catalogue && IsActive(d) && QueryOk(d, query) && Matches(d, c)
    ensures |r| <= |catalogue|
  {
    var active := Filter(catalogue, IsActive);
    var byText := if query != "" then Filter(active, MentionsTerm(Lower(query))) else active;
    var byBrand := if c.brand != "" then Filter(byText, BrandIs(c.brand)) else byText;
    var byLevel := if c.level.Some? then Filter(byBrand, LevelIs(c.level.value)) else byBrand;
    Filter(byLevel, PriceWithin(c.lo, c.hi))
  }

  /** The reference: one pass over the catalogue with the whole conjunction. */
  predicate Selected(d: Drone, query: string, c: Criteria) {
    IsActive(d) && QueryOk(d, query) && Matches(d, c)
  }

  /** The staged pipeline equals the single-pass conjunction, so the result is an
      order-preserving subsequence of the active drones. */
  lemma {:induction false} SearchIsConjunction(catalogue: seq<Drone>, query: string, c: Criteria)
    ensures Search(catalogue, query, c) == Filter(catalogue, (d: Drone) => Selected(d, query, c))
    ensures IsSubseq(Search(catalogue, query, c), Filter(catalogue, IsActive))
  {
    var active := Filter(catalogue, IsActive);
    var s0 := (d: Drone) => IsActive(d) && QueryOk(d, query);
    var s1 := (d: Drone) => s0(d) && BrandOk(d, c.brand);
    var s2 := (d: Drone) => s1(d) && LevelOk(d, c.level);
    var s3 := (d: Drone) => Selected(d, query, c);
    var byText := if query != "" then Filter(active, MentionsTerm(Lower(query))) else active;
    if query != "" {
      FilterCompose(catalogue, IsActive, MentionsTerm(Lower(query)), s0);
    } else {
      FilterExt(catalogue, IsActive, s0);
    }
    var byBrand := if c.brand != "" then Filter(byText, BrandIs(c.brand)) else byText;
    if c.brand != "" {
      FilterCompose(catalogue, s0, BrandIs(c.brand), s1);
    } else {
      FilterExt(catalogue, s0, s1);
    }
    var byLevel := if c.level.Some? then Filter(byBrand, LevelIs(c.level.value)) else byBrand;
    if c.level.Some? {
      FilterCompose(catalogue, s1, LevelIs(c.level.value), s2);
    } else {
      FilterExt(catalogue, s1, s2);
    }
    FilterCompose(catalogue, s2, PriceWithin(c.lo, c.hi), s3);
    FilterMonotone(catalogue, s3, IsActive);
  }

  /** Setting a brand or level, or narrowing the price range, never adds a result
      and keeps the surviving results in the same order. */
  lemma SearchNarrowing(catalogue: seq<Drone>, query: string, c: Criteria, wide: Criteria)
    requires Narrows(c, wide)
    ensures IsSubseq(Search(catalogue, query, c), Search(catalogue, query, wide))
  {
    SearchIsConjunction(catalogue, query, c);
    SearchIsConjunction(catalogue, query, wide);
    forall d | Selected(d, query, c)
      ensures Selected(d, query, wide)
    {
      NarrowsImpliesMatches(c, wide, d);
    }
    FilterMonotone(catalogue, (d: Drone) => Selected(d, query, c), (d: Drone) => Selected(d, query, wide));
  }

  /** With no query the search page lists exactly what the home page lists for
      the same filter state. */
  lemma EmptyQueryIsHomeFilter(catalogue: seq<Drone>, c: Criteria)
    ensures Search(catalogue, "", c) == HomePage.HandleFilterChange(catalogue, c)
  {
    SearchIsConjunction(catalogue, "", c);
    HomePage.HandleFilterChangeIsConjunction(catalogue, c);
    FilterExt(catalogue, (d: Drone) => Selected(d, "", c), (d: Drone) => IsActive(d) && Matches(d, c));
  }

  /** A non-empty query keeps a drone exactly when the lower-cased query occurs
      at some position of one of its four lower-cased text fields. */
  lemma QueryOkIff(d: Drone, query: string)
    requires query != ""
    ensures QueryOk(d, query) <==>
      || (exists i :: OccursAt(Lower(d.name), Lower(query), i))
      || (exists i :: OccursAt(Lower(d.brand), Lower(query), i))
      || (exists i :: OccursAt(Lower(d.description), Lower(query), i))
      || (exists i :: OccursAt(Lower(d.location), Lower(query), i))
  {
    IncludesIff(Lower(d.name), Lower(query));
    IncludesIff(Lower(d.brand), Lower(query));
    IncludesIff(Lower(d.description), Lower(query));
    IncludesIff(Lower(d.location), Lower(query));
  }
}
