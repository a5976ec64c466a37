/** Construction of the linear program of one request: the variables of
    optimizer.py lines 23-46 and 60-62, the constraints of optimizer.py lines 49-63 and 72, and the
    objective of optimizer.py line 73. The functions below say what each loop produces;
    BuildModel performs the loops. */
module ModelBuilder {
  import opened Wrappers
  import opened PricingRequest
  import opened Tiers
  import opened LinearProgram

  // ----- variables -----

  function AdjBounds(integerOnly: bool, iv: Interval): VarBounds
  {
    VarBounds(Some(iv.lo), Some(iv.hi), integerOnly)
  }

  /** An absolute-value variable: non-negative, no upper bound. */
  function AbsBounds(integerOnly: bool): VarBounds
  {
    VarBounds(Some(0.0), None, integerOnly)
  }

  /** A ranking gap: at least epsilon, no upper bound. */
  function GapBounds(integerOnly: bool): VarBounds
  {
    VarBounds(Some(Epsilon(integerOnly)), None, integerOnly)
  }

  function SurplusBounds(integerOnly: bool): VarBounds
  {
    VarBounds(Some(0.0), None, integerOnly)
  }

  /** The adjustment and absolute-value variables after the first loop has
      visited `names`; the first role with an unknown tier stops it. */
  function RoleVars(req: Request, names: seq<string>): Result<map<VarId, VarBounds>, BuildError>
  {
    if names == [] then Success(map[])
    else
      match RoleVars(req, names[..|names| - 1])
      case Failure(e) => Failure(e)
      case Success(m) =>
        var n := names[|names| - 1];
        match ResolveBounds(req, n)
        case Failure(e) => Failure(e)
        case Success(iv) => Success(m[Adj(n) := AdjBounds(req.integerOnly, iv)][Abs(n) := AbsBounds(req.integerOnly)])
  }

  /** The first `k` gap variables. */
  function GapVars(integerOnly: bool, k: nat): map<VarId, VarBounds>
  {
    if k == 0 then map[] else GapVars(integerOnly, k - 1)[Delta(k - 1) := GapBounds(integerOnly)]
  }

  // ----- constraints -----

  /** abs_r >= adj_r, optimizer.py line 50. */
  function AbsAboveAdj(n: string): Constraint
  {
    Constraint([Term(Abs(n), 1.0), Term(Adj(n), -1.0)], 0.0, AtLeastZero)
  }

  /** abs_r >= -adj_r, optimizer.py line 51. */
  function AbsAboveNegAdj(n: string): Constraint
  {
    Constraint([Term(Abs(n), 1.0), Term(Adj(n), 1.0)], 0.0, AtLeastZero)
  }

  /** The constraints of the second loop after it has visited `names`. */
  function AbsLinks(names: seq<string>): seq<Constraint>
  {
    if names == [] then []
    else AbsLinks(names[..|names| - 1]) + [AbsAboveAdj(names[|names| - 1]), AbsAboveNegAdj(names[|names| - 1])]
  }

  /** The absolute-value variables of the roles, each with coefficient 1. */
  function AbsTerms(names: seq<string>): seq<Term>
  {
    if names == [] then [] else [Term(Abs(names[0]), 1.0)] + AbsTerms(names[1..])
  }

  /** sum of abs_r >= epsilon, optimizer.py line 54. */
  function NonZeroConstraint(names: seq<string>, eps: real): Constraint
  {
    Constraint(AbsTerms(names), -eps, AtLeastZero)
  }

  /** adj_higher >= adj_lower + delta_i, optimizer.py line 63. */
  function RankConstraint(higher: string, lower: string, i: nat): Constraint
  {
    Constraint([Term(Adj(higher), 1.0), Term(Adj(lower), -1.0), Term(Delta(i), -1.0)], 0.0, AtLeastZero)
  }

  /** The constraints of the ranking loop after its first `k` iterations. */
  function RankConstraints(ranking: seq<string>, k: nat): seq<Constraint>
    requires k == 0 || k < |ranking|
  {
    if k == 0 then [] else RankConstraints(ranking, k - 1) + [RankConstraint(ranking[k - 1], ranking[k], k - 1)]
  }

  // ----- lookups that can fail -----

  /** The first element of `s` outside `pool`, if any. */
  function FirstOutside(s: seq<string>, pool: set<string>): (r: Option<string>)
    ensures r.None? <==> forall i :: 0 <= i < |s| ==> s[i] in pool
    ensures r.Some? ==> exists i :: 0 <= i < |s| && s[i] == r.value && r.value !in pool &&
                                    forall j :: 0 <= j < i ==> s[j] in pool
  {
    if s == [] then None
    else if s[0] !in pool then Some(s[0])
    else
      var rest := FirstOutside(s[1..], pool);
      if rest.Some? then
        var i :| 0 <= i < |s| - 1 && s[1..][i] == rest.value && rest.value !in pool &&
                 forall j :: 0 <= j < i ==> s[1..][j] in pool;
        assert s[i + 1] == rest.value && forall j :: 0 <= j < i + 1 ==> s[j] in pool;
        rest
      else
        rest
  }

  /** The name whose lookup in `adj_vars` fails in the ranking loop. The loop
      reads popularity[0], popularity[1], popularity[1], popularity[2], ...,
      and does not run at all for fewer than two names. */
  function UnknownRanked(req: Request): Option<string>
  {
    if |req.popularity| < 2 then None else FirstOutside(req.popularity, Roster(req))
  }

  /** Every role has a count. */
  predicate Counted(req: Request)
  {
    forall n :: n in req.roleNames ==> n in req.roleCounts
  }

  // ----- totals, optimizer.py lines 66-67 -----

  /** sum of role_counts[r] over role_names. */
  function CountTotal(names: seq<string>, counts: map<string, int>): int
    requires forall n :: n in names ==> n in counts
  {
    if names == [] then 0 else counts[names[0]] + CountTotal(names[1..], counts)
  }

  /** The constant part of total_adjusted: sum of base_price * role_counts[r]. */
  function BaseRevenue(basePrice: real, names: seq<string>, counts: map<string, int>): real
    requires forall n :: n in names ==> n in counts
  {
    if names == [] then 0.0 else basePrice * counts[names[0]] as real + BaseRevenue(basePrice, names[1..], counts)
  }

  /** The variable part of total_adjusted: role_counts[r] * adj_r. */
  function CountTerms(names: seq<string>, counts: map<string, int>): seq<Term>
    requires forall n :: n in names ==> n in counts
  {
    if names == [] then [] else [Term(Adj(names[0]), counts[names[0]] as real)] + CountTerms(names[1..], counts)
  }

  /** total_original: base_price times the sum of the counts. */
  function OriginalTotal(req: Request): real
    requires Counted(req)
  {
    req.basePrice * CountTotal(req.roleNames, req.roleCounts) as real
  }

  /** total_adjusted == total_original + surplus, optimizer.py line 72, moved to one side. */
  function BalanceConstraint(req: Request): Constraint
    requires Counted(req)
  {
    Constraint(CountTerms(req.roleNames, req.roleCounts) + [Term(Surplus, -1.0)],
               BaseRevenue(req.basePrice, req.roleNames, req.roleCounts) - OriginalTotal(req),
               EqualsZero)
  }

  // ----- the whole program -----

  /** The program of a request, or the first lookup failure met while building it. */
  function Build(req: Request): Result<Model, BuildError>
  {
    match RoleVars(req, req.roleNames)
    case Failure(e) => Failure(e)
    case Success(roleVars) =>
      match UnknownRanked(req)
      case Some(n) => Failure(UnknownRole(n))
      case None =>
        match FirstOutside(req.roleNames, req.roleCounts.Keys)
        case Some(n) => Failure(MissingCount(n))
        case None =>
          var vars := roleVars + GapVars(req.integerOnly, PairCount(req)) + map[Surplus := SurplusBounds(req.integerOnly)];
          var cs := AbsLinks(req.roleNames) + [NonZeroConstraint(req.roleNames, Epsilon(req.integerOnly))]
                    + RankConstraints(req.popularity, PairCount(req)) + [BalanceConstraint(req)];
          Success(Model(vars, cs, Surplus))
  }

  // ----- lemmas about the variable maps -----

  /** Once the first loop has failed on a prefix, it fails with that error. */
  lemma {:induction false} RoleVarsFailureSticks(req: Request, names: seq<string>, k: nat)
    requires k <= |names|
    requires RoleVars(req, names[..k]).Failure?
    ensures RoleVars(req, names) == RoleVars(req, names[..k])
    decreases |names| - k
  {
    if k < |names| {
      var p := names[..k + 1];
      assert p[..|p| - 1] == names[..k];
      RoleVarsFailureSticks(req, names, k + 1);
    } else {
      assert names[..k] == names;
    }
  }

  /** The first loop declares exactly an adjustment and an absolute-value
      variable per role, with the resolved bounds. */
  lemma {:induction false} RoleVarsShape(req: Request, names: seq<string>)
    requires RoleVars(req, names).Success?
    ensures forall v :: v in RoleVars(req, names).value <==> (v.Adj? || v.Abs?) && v.role in names
    ensures forall n :: n in names ==>
              && ResolveBounds(req, n).Success?
              && RoleVars(req, names).value[Adj(n)] == AdjBounds(req.integerOnly, ResolveBounds(req, n).value)
              && RoleVars(req, names).value[Abs(n)] == AbsBounds(req.integerOnly)
  {
    if names != [] {
      var p := names[..|names| - 1];
      RoleVarsShape(req, p);
      assert forall n :: n in names <==> n in p || n == names[|names| - 1];
    }
  }

  /** The first loop completes exactly when every role's tier is known. */
  lemma {:induction false} RoleVarsSucceeds(req: Request, names: seq<string>)
    ensures RoleVars(req, names).Success? <==> forall n :: n in names ==> ResolveBounds(req, n).Success?
    ensures RoleVars(req, names).Failure? ==> RoleVars(req, names).error.UnknownTier?
  {
    if names != [] {
      var p := names[..|names| - 1];
      RoleVarsSucceeds(req, p);
      assert forall n :: n in names <==> n in p || n == names[|names| - 1];
      if RoleVars(req, p).Success? && ResolveBounds(req, names[|names| - 1]).Failure? {
        UnknownTierFails(req, names[|names| - 1]);
      }
    }
  }

  lemma {:induction false} GapVarsShape(integerOnly: bool, k: nat)
    ensures forall v :: v in GapVars(integerOnly, k) <==> v.Delta? && v.pair < k
    ensures forall i :: 0 <= i < k ==> GapVars(integerOnly, k)[Delta(i)] == GapBounds(integerOnly)
  {
    if k > 0 {
      GapVarsShape(integerOnly, k - 1);
    }
  }

  /** The ranking loop makes exactly PairCount steps, and its i-th ordering
      constraint relates the i-th ranked name to the next one through the
      i-th gap variable. */
  lemma {:induction false} RankConstraintsArePairs(ranking: seq<string>, k: nat)
    requires k == 0 || k < |ranking|
    ensures |RankConstraints(ranking, k)| == k
    ensures forall i :: 0 <= i < k ==> RankConstraints(ranking, k)[i] == RankConstraint(ranking[i], ranking[i + 1], i)
  {
    if k > 0 {
      RankConstraintsArePairs(ranking, k - 1);
    }
  }

  /** After the first loop and k ranking steps, a role has an adjustment
      variable exactly when it is one of the roles. */
  lemma AdjDeclared(req: Request, roleVars: map<VarId, VarBounds>, k: nat, n: string)
    requires RoleVars(req, req.roleNames) == Success(roleVars)
    ensures Adj(n) in roleVars + GapVars(req.integerOnly, k) <==> n in Roster(req)
  {
    RoleVarsShape(req, req.roleNames);
    GapVarsShape(req.integerOnly, k);
  }

  /** A built program is the union of the role, gap and surplus variables,
      whose keys do not overlap, with the four groups of constraints, and its
      objective is the surplus (optimizer.py line 73). */
  lemma BuiltParts(req: Request)
    requires Build(req).Success?
    ensures RoleVars(req, req.roleNames).Success? && Counted(req)
    ensures var rv := RoleVars(req, req.roleNames).value;
            var gv := GapVars(req.integerOnly, PairCount(req));
            var sv := map[Surplus := SurplusBounds(req.integerOnly)];
            && rv.Keys !! gv.Keys && (rv + gv).Keys !! sv.Keys
            && Build(req).value.vars == rv + gv + sv
    ensures Build(req).value.constraints ==
              AbsLinks(req.roleNames) + [NonZeroConstraint(req.roleNames, Epsilon(req.integerOnly))]
              + RankConstraints(req.popularity, PairCount(req)) + [BalanceConstraint(req)]
    ensures Build(req).value.objective == Surplus
  {
    RoleVarsShape(req, req.roleNames);
    GapVarsShape(req.integerOnly, PairCount(req));
  }

  /** Adding a key to the right operand of a union adds it to the union. */
  lemma AddToUnion(m1: map<VarId, VarBounds>, m2: map<VarId, VarBounds>, k: VarId, b: VarBounds)
    ensures (m1 + m2)[k := b] == m1 + m2[k := b]
  {
  }

  /** When every element before index `i` lies in `pool` and the one at `i`
      does not, that is the first element outside it. */
  lemma FirstOutsideAt(s: seq<string>, pool: set<string>, i: nat)
    requires i < |s| && s[i] !in pool
    requires forall t :: 0 <= t < i ==> s[t] in pool
    ensures FirstOutside(s, pool) == Some(s[i])
  {
  }

  // ----- the builder -----

  /** optimizer.py lines 26-46: one adjustment and one absolute-value variable per role,
      stopping at the first unknown tier. */
  method DeclareRoleVars(req: Request) returns (r: Result<map<VarId, VarBounds>, BuildError>)
    ensures r == RoleVars(req, req.roleNames)
  {
    var names := req.roleNames;
    var vars: map<VarId, VarBounds> := map[];
    var i := 0;
    while i < |names|
      invariant 0 <= i <= |names|
      invariant RoleVars(req, names[..i]) == Success(vars)
    {
      var bounds := ResolveBounds(req, names[i]);
      assert names[..i + 1][..i] == names[..i];
      if bounds.Failure? {
        RoleVarsFailureSticks(req, names, i + 1);
        return Failure(bounds.error);
      }
      vars := vars[Adj(names[i]) := AdjBounds(req.integerOnly, bounds.value)][Abs(names[i]) := AbsBounds(req.integerOnly)];
      i := i + 1;
    }
    assert names[..i] == names;
    r := Success(vars);
  }

  /** optimizer.py lines 49-51: the two links of each absolute value to its adjustment. */
  method LinkAbsValues(names: seq<string>) returns (constraints: seq<Constraint>)
    ensures constraints == AbsLinks(names)
  {
    constraints := [];
    var i := 0;
    while i < |names|
      invariant 0 <= i <= |names|
      invariant constraints == AbsLinks(names[..i])
    {
      assert names[..i + 1][..i] == names[..i];
      constraints := constraints + [AbsAboveAdj(names[i]), AbsAboveNegAdj(names[i])];
      i := i + 1;
    }
    assert names[..i] == names;
  }

  /** optimizer.py lines 57-63: a gap variable and an ordering constraint per adjacent
      pair of the ranking, stopping at the first ranked name that has no
      adjustment variable. */
  method AddRanking(req: Request, roleVars: map<VarId, VarBounds>, linked: seq<Constraint>)
    returns (r: Result<(map<VarId, VarBounds>, seq<Constraint>), BuildError>)
    requires RoleVars(req, req.roleNames) == Success(roleVars)
    ensures UnknownRanked(req).Some? ==> r == Failure(UnknownRole(UnknownRanked(req).value))
    ensures UnknownRanked(req).None? ==>
              r == Success((roleVars + GapVars(req.integerOnly, PairCount(req)),
                            linked + RankConstraints(req.popularity, PairCount(req))))
  {
    var ranking := req.popularity;
    var vars := roleVars;
    var constraints := linked;
    var j := 0;
    while j < |ranking| - 1
      invariant 0 <= j <= PairCount(req)
      invariant vars == roleVars + GapVars(req.integerOnly, j)
      invariant constraints == linked + RankConstraints(ranking, j)
      invariant j > 0 ==> forall t :: 0 <= t <= j ==> ranking[t] in Roster(req)
    {
      var higher := ranking[j];
      var lower := ranking[j + 1];
      AddToUnion(roleVars, GapVars(req.integerOnly, j), Delta(j), GapBounds(req.integerOnly));
      vars := vars[Delta(j) := GapBounds(req.integerOnly)];
      AdjDeclared(req, roleVars, j + 1, higher);
      AdjDeclared(req, roleVars, j + 1, lower);
      if Adj(higher) !in vars {
        FirstOutsideAt(ranking, Roster(req), j);
        return Failure(UnknownRole(higher));
      }
      if Adj(lower) !in vars {
        FirstOutsideAt(ranking, Roster(req), j + 1);
        return Failure(UnknownRole(lower));
      }
      assert forall t :: 0 <= t <= j + 1 ==> ranking[t] in Roster(req) by {
        assert forall t :: 0 <= t < j ==> ranking[t] in Roster(req);
      }
      constraints := constraints + [RankConstraint(higher, lower, j)];
      j := j + 1;
    }
    assert j > 0 ==> j + 1 == |ranking|;
    r := Success((vars, constraints));
  }

  /** solve_adjustment up to the call of the solver: declares the variables,
      links the absolute values, adds the non-zero constraint, walks the
      ranking, ties the total to the surplus and minimises the surplus. */
  method BuildModel(req: Request) returns (r: Result<Model, BuildError>)
    ensures r == Build(req)
  {
    var declared := DeclareRoleVars(req);
    if declared.Failure? {
      return Failure(declared.error);
    }
    var constraints := LinkAbsValues(req.roleNames);
    // optimizer.py line 54: at least one adjustment is non-zero
    constraints := constraints + [NonZeroConstraint(req.roleNames, Epsilon(req.integerOnly))];
    var ranked := AddRanking(req, declared.value, constraints);
    if ranked.Failure? {
      return Failure(ranked.error);
    }
    var (vars, cs) := ranked.value;
    // optimizer.py lines 66-72: the totals and the surplus
    var missing := FirstOutside(req.roleNames, req.roleCounts.Keys);
    if missing.Some? {
      return Failure(MissingCount(missing.value));
    }
    vars := vars + map[Surplus := SurplusBounds(req.integerOnly)];
    cs := cs + [BalanceConstraint(req)];
    // optimizer.py line 73: minimise the surplus
    r := Success(Model(vars, cs, Surplus));
  }

  /** Building succeeds exactly when every role's tier is known, every name of
      a ranking of two or more is a role, and every role has a count; otherwise
      it fails with the first lookup the source would have failed. */
  lemma BuildOutcome(req: Request)
    ensures Build(req).Success? <==>
              && (forall n :: n in req.roleNames ==> ResolveBounds(req, n).Success?)
              && (|req.popularity| >= 2 ==> forall n :: n in req.popularity ==> n in req.roleNames)
              && Counted(req)
    ensures (exists n :: n in req.roleNames && ResolveBounds(req, n).Failure?) ==>
              Build(req).Failure? && Build(req).error.UnknownTier?
    ensures (forall n :: n in req.roleNames ==> ResolveBounds(req, n).Success?) && UnknownRanked(req).Some? ==>
              Build(req) == Failure(UnknownRole(UnknownRanked(req).value))
    ensures |req.popularity| < 2 ==> Build(req).Failure? ==> !Build(req).error.UnknownRole?
  {
    RoleVarsSucceeds(req, req.roleNames);
    if |req.popularity| >= 2 {
      var r := FirstOutside(req.popularity, Roster(req));
      if r.None? {
        assert forall i :: 0 <= i < |req.popularity| ==> req.popularity[i] in Roster(req);
      }
    }
  }
}
