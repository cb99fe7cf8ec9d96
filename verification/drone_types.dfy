/** The listing record and the enumerations and range tables that describe it
    (src/types/drone.ts). Only the fields the marketplace logic reads are kept. */
module DroneTypes {
  import opened Wrappers

  datatype Level = Beginner | Intermediate | Professional | Industrial

  /** The string a level is stored and compared as. */
  function LevelName(l: Level): string {
    match l
    case Beginner => "beginner"
    case Intermediate => "intermediate"
    case Professional => "professional"
    case Industrial => "industrial"
  }

  /** A level's position in the tier order, from beginner up to industrial. */
  function Tier(l: Level): nat {
    match l
    case Beginner => 0
    case Intermediate => 1
    case Professional => 2
    case Industrial => 3
  }

  /** Reads a level back from its string; any other string is not a level. */
  function ParseLevel(s: string): (r: Option<Level>)
    ensures r.Some? ==> LevelName(r.value) == s
    ensures forall l: Level :: LevelName(l) == s ==> r == Some(l)
  {
    if s == "beginner" then Some(Beginner)
    else if s == "intermediate" then Some(Intermediate)
    else if s == "professional" then Some(Professional)
    else if s == "industrial" then Some(Industrial)
    else None
  }

  /** `droneLevels`: every level exactly once, each at its tier position. */
  function DroneLevels(): (r: seq<Level>)
    ensures |r| == 4
    ensures forall l: Level :: Tier(l) < |r| && r[Tier(l)] == l
    ensures forall i, j :: 0 <= i < j < |r| ==> r[i] != r[j]
  {
    [Beginner, Intermediate, Professional, Industrial]
  }

  /** `droneBrands`: five distinct brand names. */
  function DroneBrands(): (r: seq<string>)
    ensures |r| == 5
    ensures forall i, j :: 0 <= i < j < |r| ==> r[i] != r[j]
    ensures forall i :: 0 <= i < |r| ==> r[i] != ""
  {
    ["DJI", "Parrot", "Autel", "Skydio", "Yuneec"]
  }

  /** A listing's sale status. The source types it as a free string compared
      against three values, so anything else is kept as `OtherStatus`. */
  datatype Status = Active | Sold | Inactive | OtherStatus(name: string)

  predicate IsKnownStatus(s: Status) {
    !s.OtherStatus?
  }

  /** A drone listing. `sellerId` is optional because the declared seller record
      carries no id, yet the sales views compare it with the user's id. */
  datatype Drone = Drone(
    id: int,
    name: string,
    brand: string,
    price: int,
    level: Level,
    description: string,
    location: string,
    sellerId: Option<string>,
    status: Status,
    isPremium: bool
  )

  /** An upper bound of a range band; `Infinity` in the source. */
  datatype Bound = Finite(n: int) | Unbounded

  datatype Band = Band(caption: string, min: int, max: Bound)

  /** Bands 1.. are ascending and contiguous: each band ends where the next begins. */
  predicate Contiguous(bands: seq<Band>) {
    forall i :: 1 <= i < |bands| - 1 ==> bands[i].max == Finite(bands[i + 1].min)
  }

  predicate Ascending(bands: seq<Band>) {
    forall i :: 1 <= i < |bands| ==> bands[i].max.Unbounded? || bands[i].min < bands[i].max.n
  }

  /** Band 0 is the no-filter band [0, Infinity) and the last band is open above. */
  predicate WellFormedTable(bands: seq<Band>) {
    && |bands| == 5
    && bands[0].min == 0 && bands[0].max == Unbounded
    && bands[|bands| - 1].max == Unbounded
    && Contiguous(bands)
    && Ascending(bands)
  }

  /** `priceRanges`, in won. */
  function PriceRanges(): (r: seq<Band>)
    ensures WellFormedTable(r)
    ensures r[1].min == 0
  {
    [ Band("전체", 0, Unbounded),
      Band("10만원 이하", 0, Finite(100000)),
      Band("10-30만원", 100000, Finite(300000)),
      Band("30-50만원", 300000, Finite(500000)),
      Band("50만원 이상", 500000, Unbounded) ]
  }

  /** `flightDistanceRanges`, in km. */
  function FlightDistanceRanges(): (r: seq<Band>)
    ensures WellFormedTable(r)
    ensures r[1].min == 0
  {
    [ Band("전체", 0, Unbounded),
      Band("1km 이하", 0, Finite(1)),
      Band("1-3km", 1, Finite(3)),
      Band("3-5km", 3, Finite(5)),
      Band("5km 이상", 5, Unbounded) ]
  }

  /** Level names are pairwise distinct and parse back to their level. */
  lemma LevelNameRoundTrip(l: Level, m: Level)
    ensures ParseLevel(LevelName(l)) == Some(l)
    ensures LevelName(l) == LevelName(m) ==> l == m
  {
  }
}
