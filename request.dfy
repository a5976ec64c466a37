/** The parameters of one pricing request, as solve_adjustment receives them,
    and the ways in which building the program from them can fail. */
module PricingRequest {
  import opened Wrappers

  /** The keyword arguments of solve_adjustment. Python's None is `None`;
      `popularityLevels` maps a role name to its tier label. */
  datatype Request = Request(
    basePrice: real,
    roleNames: seq<string>,
    roleCounts: map<string, int>,
    popularity: seq<string>,
    integerOnly: bool,
    maxAdj: Option<real>,
    minAdj: Option<real>,
    popularityLevels: Option<map<string, string>>)

  /** Every failure is a KeyError in the source; the model tells apart which
      lookup failed. */
  datatype BuildError =
    | UnknownTier(tier: string)     // a tier label missing from the tier table
    | UnknownRole(name: string)      // a ranked name that has no adjustment variable
    | MissingCount(name: string)     // a role without an entry in role_counts

  /** The minimum gap between consecutive ranks and the "non-zero" threshold. */
  function Epsilon(integerOnly: bool): (eps: real)
    ensures eps > 0.0
    ensures integerOnly ==> eps == 1.0
    ensures !integerOnly ==> eps < 1.0
  {
    if integerOnly then 1.0 else 0.01
  }

  /** The set of role names of a request. */
  function Roster(req: Request): (s: set<string>)
    ensures forall n :: n in s <==> n in req.roleNames
  {
    set n | n in req.roleNames
  }

  /** The number of ordering constraints: one per adjacent pair of `popularity`
      (Python's range(len(popularity) - 1) is empty for fewer than two names). */
  function PairCount(req: Request): (k: nat)
    ensures |req.popularity| >= 2 ==> k + 1 == |req.popularity|
    ensures |req.popularity| < 2 ==> k == 0
  {
    if |req.popularity| < 2 then 0 else |req.popularity| - 1
  }
}
