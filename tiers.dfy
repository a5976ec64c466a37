/** Bound resolution: the interval an adjustment variable may take, from the
    role's popularity tier when it has one and from the global bounds
    otherwise, rounded inward to integers in integer mode. */
module Tiers {
  import opened Wrappers
  import opened PricingRequest

  /** The fixed tier table: label to (minimum, maximum) fraction of the base
      price. The "---" row is kept as the source declares it, with its minimum
      above its maximum. */
  const LevelBounds: map<string, (real, real)> := map[
    "+++" := (0.15, 0.30),
    "++"  := (0.05, 0.20),
    "+"   := (-0.05, 0.10),
    "-"   := (-0.10, 0.05),
    "--"  := (-0.5, -0.20),
    "---" := (-0.15, -0.30)
  ]

  datatype Interval = Interval(lo: real, hi: real)

  /** The upper global bound: `max_adj`, or 30% of the base price when absent. */
  function GlobalMax(req: Request): real
  {
    match req.maxAdj
    case Some(m) => m
    case None => req.basePrice * 0.3
  }

  /** The lower global bound: `min_adj`, or minus 30% of the base price when absent. */
  function GlobalMin(req: Request): real
  {
    match req.minAdj
    case Some(m) => m
    case None => -req.basePrice * 0.3
  }

  /** Whether the role takes its bounds from a tier: `popularity_levels` is
      given and names the role (an empty dictionary names no role). */
  predicate HasTier(req: Request, name: string)
  {
    req.popularityLevels.Some? && name in req.popularityLevels.value
  }

  /** The unrounded bounds of one role; a tier label outside the table is the
      lookup failure of the source. */
  function RawInterval(req: Request, name: string): Result<Interval, BuildError>
  {
    if HasTier(req, name) then
      var tier := req.popularityLevels.value[name];
      if tier in LevelBounds then
        Success(Interval(req.basePrice * LevelBounds[tier].0, req.basePrice * LevelBounds[tier].1))
      else
        Failure(UnknownTier(tier))
    else
      Success(Interval(GlobalMin(req), GlobalMax(req)))
  }

  predicate IsIntegral(x: real)
  {
    x == x.Floor as real
  }

  /** Python's math.ceil on an exact real. */
  function Ceil(x: real): (c: int)
    ensures c as real >= x && (c - 1) as real < x
  {
    -((-x).Floor)
  }

  /** Whether `x` is a value the variable with bounds `iv` can take. */
  predicate Admissible(integerOnly: bool, iv: Interval, x: real)
  {
    iv.lo <= x <= iv.hi && (integerOnly ==> IsIntegral(x))
  }

  /** The bounds given to the adjustment variable: the raw interval, with the
      lower end rounded up and the upper end rounded down in integer mode.
      Rounding inward loses no integer: the admissible values are exactly the
      values of the raw interval (integral ones in integer mode). */
  function ResolveBounds(req: Request, name: string): (r: Result<Interval, BuildError>)
    ensures r.Failure? <==> RawInterval(req, name).Failure?
    ensures r.Failure? ==> r.error == RawInterval(req, name).error
    ensures r.Success? ==> forall x {:trigger Admissible(req.integerOnly, r.value, x)} ::
              Admissible(req.integerOnly, r.value, x) <==>
              Admissible(req.integerOnly, RawInterval(req, name).value, x)
  {
    match RawInterval(req, name)
    case Failure(e) => Failure(e)
    case Success(iv) =>
      if req.integerOnly then
        var rounded := Interval(Ceil(iv.lo) as real, iv.hi.Floor as real);
        RoundingInward(iv, rounded);
        Success(rounded)
      else
        Success(iv)
  }

  /** An integer is at least ceil(lo) exactly when it is at least lo. */
  lemma CeilBelow(lo: real, n: int)
    ensures Ceil(lo) <= n <==> lo <= n as real
  {
  }

  /** An integer is at most floor(hi) exactly when it is at most hi. */
  lemma FloorAbove(hi: real, n: int)
    ensures n <= hi.Floor <==> n as real <= hi
  {
  }

  /** An integral value lies between ceil(lo) and floor(hi) exactly when it
      lies between lo and hi. */
  lemma RoundingInward(iv: Interval, rounded: Interval)
    requires rounded == Interval(Ceil(iv.lo) as real, iv.hi.Floor as real)
    ensures forall x {:trigger Admissible(true, rounded, x)} ::
              Admissible(true, rounded, x) <==> Admissible(true, iv, x)
  {
    forall x | IsIntegral(x)
      ensures Admissible(true, rounded, x) <==> Admissible(true, iv, x)
    {
      var n := x.Floor;
      CeilBelow(iv.lo, n);
      FloorAbove(iv.hi, n);
    }
  }

  /** A role uses its tier's fractions of the base price exactly when
      `popularity_levels` is given and contains it; every other role uses the
      global interval, whose defaults are plus and minus 30% of the base price. */
  lemma IntervalSource(req: Request, name: string)
    ensures HasTier(req, name) && req.popularityLevels.value[name] in LevelBounds ==>
              RawInterval(req, name) == Success(Interval(
                req.basePrice * LevelBounds[req.popularityLevels.value[name]].0,
                req.basePrice * LevelBounds[req.popularityLevels.value[name]].1))
    ensures !HasTier(req, name) ==>
              RawInterval(req, name) == Success(Interval(GlobalMin(req), GlobalMax(req)))
    ensures !HasTier(req, name) && req.minAdj.None? && req.maxAdj.None? ==>
              RawInterval(req, name) == Success(Interval(-0.3 * req.basePrice, 0.3 * req.basePrice))
  {
    if HasTier(req, name) {
      var tier := req.popularityLevels.value[name];
      if tier in LevelBounds {
        assert RawInterval(req, name).Success?;
        assert RawInterval(req, name).value.lo == req.basePrice * LevelBounds[tier].0;
        assert RawInterval(req, name).value.hi == req.basePrice * LevelBounds[tier].1;
      }
    }
  }

  /** Resolution fails exactly for a tier label outside the six-entry table. */
  lemma UnknownTierFails(req: Request, name: string)
    ensures ResolveBounds(req, name).Failure? <==>
              HasTier(req, name) && req.popularityLevels.value[name] !in {"+++", "++", "+", "-", "--", "---"}
    ensures ResolveBounds(req, name).Failure? ==>
              ResolveBounds(req, name).error == UnknownTier(req.popularityLevels.value[name])
  {
  }

  /** For a positive base price the "---" tier admits no value at all, in
      either mode. */
  lemma LowestTierIsEmpty(req: Request, name: string, x: real)
    requires req.basePrice > 0.0
    requires HasTier(req, name) && req.popularityLevels.value[name] == "---"
    ensures ResolveBounds(req, name).Success?
    ensures !Admissible(req.integerOnly, ResolveBounds(req, name).value, x)
  {
  }
}
