/** What it means for an assignment to satisfy the program of a request,
    stated in the business terms of the source, and what follows from it. */
module Feasibility {
  import opened Wrappers
  import opened PricingRequest
  import opened Tiers
  import opened LinearProgram
  import opened ModelBuilder

  /** In integer mode every variable takes an integral value. */
  predicate Numeric(req: Request, x: real)
  {
    req.integerOnly ==> IsIntegral(x)
  }

  /** The rules for one role: its adjustment lies in its (unrounded) interval,
      and its absolute-value variable is non-negative and at least the
      adjustment and its negation. Nothing makes it equal to |adjustment|. */
  predicate RoleRule(req: Request, a: Assignment, n: string)
  {
    && Adj(n) in a && Abs(n) in a
    && RawInterval(req, n).Success?
    && Admissible(req.integerOnly, RawInterval(req, n).value, a[Adj(n)])
    && a[Abs(n)] >= 0.0 && Numeric(req, a[Abs(n)])
    && a[Abs(n)] >= a[Adj(n)] && a[Abs(n)] >= -a[Adj(n)]
  }

  /** The sum of the absolute-value variables, a role counted once per
      occurrence in `names`. */
  function AbsTotal(names: seq<string>, a: Assignment): real
    requires forall n :: n in names ==> Abs(n) in a
  {
    if names == [] then 0.0 else a[Abs(names[0])] + AbsTotal(names[1..], a)
  }

  /** The rule for the i-th adjacent pair of the ranking: a gap of at least
      epsilon, and the more popular role's adjustment at least the gap above
      the less popular one's. */
  predicate RankRule(req: Request, a: Assignment, i: nat)
    requires i + 1 < |req.popularity|
  {
    var higher := req.popularity[i];
    var lower := req.popularity[i + 1];
    && Delta(i) in a && Adj(higher) in a && Adj(lower) in a
    && a[Delta(i)] >= Epsilon(req.integerOnly) && Numeric(req, a[Delta(i)])
    && a[Adj(higher)] >= a[Adj(lower)] + a[Delta(i)]
  }

  /** The revenue the adjustments add: sum of role_counts[r] * adj_r. */
  function AdjustmentRevenue(names: seq<string>, counts: map<string, int>, a: Assignment): real
    requires forall n :: n in names ==> n in counts && Adj(n) in a
  {
    if names == [] then 0.0 else counts[names[0]] as real * a[Adj(names[0])] + AdjustmentRevenue(names[1..], counts, a)
  }

  /** The business conditions a plan must meet. */
  predicate MeetsBusinessRules(req: Request, a: Assignment)
  {
    && Counted(req)
    && (forall n :: n in req.roleNames ==> RoleRule(req, a, n))
    && AbsTotal(req.roleNames, a) >= Epsilon(req.integerOnly)
    && (forall i :: 0 <= i < PairCount(req) ==> RankRule(req, a, i))
    && Surplus in a && a[Surplus] >= 0.0 && Numeric(req, a[Surplus])
    && AdjustmentRevenue(req.roleNames, req.roleCounts, a) == a[Surplus]
  }

  // ----- the groups of conditions the program encodes -----

  /** Every role's adjustment lies in its interval; every absolute value is non-negative. */
  predicate RoleBoundsHold(req: Request, a: Assignment)
  {
    forall n :: n in req.roleNames ==>
      && Adj(n) in a && Abs(n) in a
      && RawInterval(req, n).Success?
      && Admissible(req.integerOnly, RawInterval(req, n).value, a[Adj(n)])
      && a[Abs(n)] >= 0.0 && Numeric(req, a[Abs(n)])
  }

  /** Every absolute value is at least the adjustment and its negation. */
  predicate AbsLinked(names: seq<string>, a: Assignment)
  {
    forall n :: n in names ==> Abs(n) in a && Adj(n) in a && a[Abs(n)] >= a[Adj(n)] && a[Abs(n)] >= -a[Adj(n)]
  }

  /** The first k gaps are at least epsilon. */
  predicate GapsHold(req: Request, k: nat, a: Assignment)
  {
    forall i :: 0 <= i < k ==> Delta(i) in a && a[Delta(i)] >= Epsilon(req.integerOnly) && Numeric(req, a[Delta(i)])
  }

  /** The i-th adjacent pair is apart by at least its gap. */
  predicate PairApart(ranking: seq<string>, i: nat, a: Assignment)
    requires i + 1 < |ranking|
  {
    && Adj(ranking[i]) in a && Adj(ranking[i + 1]) in a && Delta(i) in a
    && a[Adj(ranking[i])] >= a[Adj(ranking[i + 1])] + a[Delta(i)]
  }

  /** The first k adjacent pairs are apart by at least their gap. */
  predicate RanksApart(ranking: seq<string>, k: nat, a: Assignment)
    requires k == 0 || k < |ranking|
  {
    forall i :: 0 <= i < k ==> PairApart(ranking, i, a)
  }

  predicate SurplusHolds(req: Request, a: Assignment)
  {
    Surplus in a && a[Surplus] >= 0.0 && Numeric(req, a[Surplus])
  }

  /** The adjustments' revenue equals the surplus. */
  predicate Balanced(req: Request, a: Assignment)
    requires Counted(req)
  {
    && (forall n :: n in req.roleNames ==> Adj(n) in a)
    && Surplus in a
    && AdjustmentRevenue(req.roleNames, req.roleCounts, a) == a[Surplus]
  }

  // ----- the variables -----

  lemma RoleVarsWithin(req: Request, a: Assignment)
    requires RoleVars(req, req.roleNames).Success?
    ensures VarsWithin(RoleVars(req, req.roleNames).value, a) <==> RoleBoundsHold(req, a)
  {
    var m := RoleVars(req, req.roleNames).value;
    RoleVarsShape(req, req.roleNames);
    if VarsWithin(m, a) {
      forall n | n in req.roleNames
        ensures Adj(n) in a && Abs(n) in a && RawInterval(req, n).Success?
        ensures Admissible(req.integerOnly, RawInterval(req, n).value, a[Adj(n)])
        ensures a[Abs(n)] >= 0.0 && Numeric(req, a[Abs(n)])
      {
        assert Adj(n) in m && Abs(n) in m;
        assert WithinBounds(m[Adj(n)], a[Adj(n)]) && WithinBounds(m[Abs(n)], a[Abs(n)]);
        assert Admissible(req.integerOnly, ResolveBounds(req, n).value, a[Adj(n)]);
      }
    }
    if RoleBoundsHold(req, a) {
      forall v | v in m ensures v in a && WithinBounds(m[v], a[v]) {
        var n := v.role;
        assert Admissible(req.integerOnly, RawInterval(req, n).value, a[Adj(n)]);
        assert Admissible(req.integerOnly, ResolveBounds(req, n).value, a[Adj(n)]);
      }
    }
  }

  lemma GapVarsWithin(req: Request, k: nat, a: Assignment)
    ensures VarsWithin(GapVars(req.integerOnly, k), a) <==> GapsHold(req, k, a)
  {
    GapVarsShape(req.integerOnly, k);
    var m := GapVars(req.integerOnly, k);
    if VarsWithin(m, a) {
      forall i | 0 <= i < k
        ensures Delta(i) in a && a[Delta(i)] >= Epsilon(req.integerOnly) && Numeric(req, a[Delta(i)])
      {
        assert Delta(i) in m;
      }
    }
  }

  /** The declared variables of a built program are within bounds exactly
      when the role, gap and surplus bounds hold. */
  lemma BuiltVarsWithin(req: Request, a: Assignment)
    requires Build(req).Success?
    ensures VarsWithin(Build(req).value.vars, a) <==>
              RoleBoundsHold(req, a) && GapsHold(req, PairCount(req), a) && SurplusHolds(req, a)
  {
    BuiltParts(req);
    var rv := RoleVars(req, req.roleNames).value;
    var gv := GapVars(req.integerOnly, PairCount(req));
    var sv := map[Surplus := SurplusBounds(req.integerOnly)];
    VarsWithinUnion(rv, gv, a);
    VarsWithinUnion(rv + gv, sv, a);
    RoleVarsWithin(req, a);
    GapVarsWithin(req, PairCount(req), a);
    assert VarsWithin(sv, a) <==> SurplusHolds(req, a) by {
      assert Surplus in sv;
    }
  }

  // ----- the constraints -----

  lemma {:induction false} AbsLinksHold(names: seq<string>, a: Assignment)
    ensures AllHold(AbsLinks(names), a) <==> AbsLinked(names, a)
  {
    if names != [] {
      var p := names[..|names| - 1];
      var n := names[|names| - 1];
      AbsLinksHold(p, a);
      AllHoldAppend(AbsLinks(p), [AbsAboveAdj(n), AbsAboveNegAdj(n)], a);
      AllHoldPair(AbsAboveAdj(n), AbsAboveNegAdj(n), a);
      EvalCons(Term(Abs(n), 1.0), [Term(Adj(n), -1.0)], a);
      EvalCons(Term(Abs(n), 1.0), [Term(Adj(n), 1.0)], a);
      EvalCons(Term(Adj(n), -1.0), [], a);
      EvalCons(Term(Adj(n), 1.0), [], a);
      assert [Term(Adj(n), -1.0)] == [Term(Adj(n), -1.0)] + [];
      assert [Term(Adj(n), 1.0)] == [Term(Adj(n), 1.0)] + [];
      assert forall x :: x in names <==> x in p || x == n;
    }
  }

  lemma {:induction false} AbsTermsEval(names: seq<string>, a: Assignment)
    ensures Defined(AbsTerms(names), a) <==> forall n :: n in names ==> Abs(n) in a
    ensures Defined(AbsTerms(names), a) ==> Eval(AbsTerms(names), a) == AbsTotal(names, a)
  {
    if names != [] {
      AbsTermsEval(names[1..], a);
      EvalCons(Term(Abs(names[0]), 1.0), AbsTerms(names[1..]), a);
      assert forall x :: x in names <==> x == names[0] || x in names[1..];
    }
  }

  /** The non-zero constraint holds exactly when the absolute values sum to epsilon or more. */
  lemma NonZeroHolds(req: Request, a: Assignment)
    requires forall n :: n in req.roleNames ==> Abs(n) in a
    ensures Holds(NonZeroConstraint(req.roleNames, Epsilon(req.integerOnly)), a) <==>
              AbsTotal(req.roleNames, a) >= Epsilon(req.integerOnly)
  {
    AbsTermsEval(req.roleNames, a);
  }

  lemma {:induction false} RankConstraintsHold(ranking: seq<string>, k: nat, a: Assignment)
    requires k == 0 || k < |ranking|
    ensures AllHold(RankConstraints(ranking, k), a) <==> RanksApart(ranking, k, a)
  {
    if k > 0 {
      RankConstraintsHold(ranking, k - 1, a);
      var c := RankConstraint(ranking[k - 1], ranking[k], k - 1);
      AllHoldAppend(RankConstraints(ranking, k - 1), [c], a);
      AllHoldSingle(c, a);
      var t3 := [Term(Delta(k - 1), -1.0)];
      var t2 := [Term(Adj(ranking[k]), -1.0)] + t3;
      EvalCons(Term(Adj(ranking[k - 1]), 1.0), t2, a);
      EvalCons(Term(Adj(ranking[k]), -1.0), t3, a);
      EvalCons(Term(Delta(k - 1), -1.0), [], a);
      assert t3 == t3[..1] + [];
      assert c.terms == [Term(Adj(ranking[k - 1]), 1.0)] + t2;
      assert Holds(c, a) <==> PairApart(ranking, k - 1, a);
      if RanksApart(ranking, k - 1, a) && PairApart(ranking, k - 1, a) {
        forall i | 0 <= i < k ensures PairApart(ranking, i, a) {
          if i < k - 1 { assert PairApart(ranking, i, a); }
        }
      }
    }
  }

  lemma {:induction false} CountTermsEval(names: seq<string>, counts: map<string, int>, a: Assignment)
    requires forall n :: n in names ==> n in counts
    ensures Defined(CountTerms(names, counts), a) <==> forall n :: n in names ==> Adj(n) in a
    ensures Defined(CountTerms(names, counts), a) ==>
              Eval(CountTerms(names, counts), a) == AdjustmentRevenue(names, counts, a)
  {
    if names != [] {
      CountTermsEval(names[1..], counts, a);
      EvalCons(Term(Adj(names[0]), counts[names[0]] as real), CountTerms(names[1..], counts), a);
      assert forall x :: x in names <==> x == names[0] || x in names[1..];
    }
  }

  /** The constant of the balance constraint cancels: the sum of base_price *
      count equals base_price times the sum of the counts. */
  lemma {:induction false} BaseRevenueFactors(basePrice: real, names: seq<string>, counts: map<string, int>)
    requires forall n :: n in names ==> n in counts
    ensures BaseRevenue(basePrice, names, counts) == basePrice * CountTotal(names, counts) as real
  {
    if names != [] {
      BaseRevenueFactors(basePrice, names[1..], counts);
    }
  }

  lemma BalanceHolds(req: Request, a: Assignment)
    requires Counted(req)
    ensures Holds(BalanceConstraint(req), a) <==> Balanced(req, a)
  {
    var ct := CountTerms(req.roleNames, req.roleCounts);
    var st := [Term(Surplus, -1.0)];
    CountTermsEval(req.roleNames, req.roleCounts, a);
    BaseRevenueFactors(req.basePrice, req.roleNames, req.roleCounts);
    EvalCons(Term(Surplus, -1.0), [], a);
    assert st == st + [];
    if Defined(ct + st, a) {
      forall i | 0 <= i < |ct| ensures ct[i].v in a { assert (ct + st)[i] == ct[i]; }
      assert (ct + st)[|ct|] == st[0];
    }
    if Defined(ct, a) && Surplus in a {
      EvalAppend(ct, st, a);
    }
  }

  /** The program's constraints hold exactly when the absolute-value links,
      the non-zero sum, the ranking and the balance hold. */
  lemma BuiltConstraintsHold(req: Request, a: Assignment)
    requires Build(req).Success?
    ensures Counted(req)
    ensures AllHold(Build(req).value.constraints, a) <==>
              && AbsLinked(req.roleNames, a)
              && Holds(NonZeroConstraint(req.roleNames, Epsilon(req.integerOnly)), a)
              && RanksApart(req.popularity, PairCount(req), a)
              && Balanced(req, a)
  {
    BuiltParts(req);
    var al := AbsLinks(req.roleNames);
    var nz := NonZeroConstraint(req.roleNames, Epsilon(req.integerOnly));
    var rc := RankConstraints(req.popularity, PairCount(req));
    var bc := BalanceConstraint(req);
    AllHoldAppend(al, [nz], a);
    AllHoldAppend(al + [nz], rc, a);
    AllHoldAppend(al + [nz] + rc, [bc], a);
    AllHoldSingle(nz, a);
    AllHoldSingle(bc, a);
    AbsLinksHold(req.roleNames, a);
    RankConstraintsHold(req.popularity, PairCount(req), a);
    BalanceHolds(req, a);
  }

  /** The business rules, grouped as the program encodes them. */
  lemma BusinessRulesGrouped(req: Request, a: Assignment)
    ensures MeetsBusinessRules(req, a) <==>
              && Counted(req)
              && RoleBoundsHold(req, a) && AbsLinked(req.roleNames, a)
              && AbsTotal(req.roleNames, a) >= Epsilon(req.integerOnly)
              && GapsHold(req, PairCount(req), a) && RanksApart(req.popularity, PairCount(req), a)
              && SurplusHolds(req, a) && Balanced(req, a)
  {
    if Counted(req) && RoleBoundsHold(req, a) && AbsLinked(req.roleNames, a) &&
       GapsHold(req, PairCount(req), a) && RanksApart(req.popularity, PairCount(req), a) {
      assert forall n :: n in req.roleNames ==> RoleRule(req, a, n);
      forall i | 0 <= i < PairCount(req) ensures RankRule(req, a, i) {
        assert PairApart(req.popularity, i, a);
      }
    }
    if MeetsBusinessRules(req, a) {
      assert RoleBoundsHold(req, a);
      assert AbsLinked(req.roleNames, a);
      assert GapsHold(req, PairCount(req), a) by {
        forall i | 0 <= i < PairCount(req)
          ensures Delta(i) in a && a[Delta(i)] >= Epsilon(req.integerOnly) && Numeric(req, a[Delta(i)])
        {
          assert RankRule(req, a, i);
        }
      }
      assert RanksApart(req.popularity, PairCount(req), a) by {
        forall i | 0 <= i < PairCount(req) ensures PairApart(req.popularity, i, a) {
          assert RankRule(req, a, i);
        }
      }
    }
  }

  /** Satisfying the built program is the same as meeting the business rules. */
  lemma SatisfiesIffBusinessRules(req: Request, a: Assignment)
    requires Build(req).Success?
    ensures Satisfies(Build(req).value, a) <==> MeetsBusinessRules(req, a)
  {
    BuiltVarsWithin(req, a);
    BuiltConstraintsHold(req, a);
    BusinessRulesGrouped(req, a);
    if RoleBoundsHold(req, a) {
      NonZeroHolds(req, a);
    }
    if Holds(NonZeroConstraint(req.roleNames, Epsilon(req.integerOnly)), a) {
      AbsTermsEval(req.roleNames, a);
    }
  }

  // ----- what every feasible plan has, and what it need not have -----

  /** Every feasible plan keeps each absolute value non-negative and above
      the adjustment and its negation, with the absolute values summing to at
      least epsilon. */
  lemma FeasibleAbsValues(req: Request, a: Assignment, n: string)
    requires Build(req).Success? && Satisfies(Build(req).value, a)
    requires n in req.roleNames
    ensures Abs(n) in a && Adj(n) in a
    ensures a[Abs(n)] >= 0.0 && a[Abs(n)] >= a[Adj(n)] && a[Abs(n)] >= -a[Adj(n)]
    ensures forall m :: m in req.roleNames ==> Abs(m) in a
    ensures AbsTotal(req.roleNames, a) >= Epsilon(req.integerOnly)
  {
    SatisfiesIffBusinessRules(req, a);
    assert RoleRule(req, a, n);
  }

  /** The plan that changes no price: every variable zero except the absolute
      values, which are all epsilon. */
  function ZeroPlan(vars: map<VarId, VarBounds>, eps: real): Assignment
  {
    map v | v in vars :: if v.Abs? then eps else 0.0
  }

  lemma {:induction false} AbsTotalOfConstant(names: seq<string>, a: Assignment, c: real)
    requires forall n :: n in names ==> Abs(n) in a && a[Abs(n)] == c
    ensures AbsTotal(names, a) == |names| as real * c
  {
    if names != [] {
      AbsTotalOfConstant(names[1..], a, c);
    }
  }

  lemma {:induction false} RevenueOfNoChange(names: seq<string>, counts: map<string, int>, a: Assignment)
    requires forall n :: n in names ==> n in counts && Adj(n) in a && a[Adj(n)] == 0.0
    ensures AdjustmentRevenue(names, counts, a) == 0.0
  {
    if names != [] {
      RevenueOfNoChange(names[1..], counts, a);
    }
  }

  /** The constraints do not force any adjustment to be non-zero, nor an
      absolute value to equal |adjustment|: with fewer than two ranked names
      and zero inside every role's interval, the plan that changes no price is
      feasible, its absolute values being epsilon rather than 0. */
  lemma NoChangeCanBeFeasible(req: Request)
    requires Build(req).Success?
    requires |req.popularity| < 2 && req.roleNames != []
    requires forall n :: n in req.roleNames ==>
               RawInterval(req, n).Success? && Admissible(req.integerOnly, RawInterval(req, n).value, 0.0)
    ensures var a := ZeroPlan(Build(req).value.vars, Epsilon(req.integerOnly));
            && Satisfies(Build(req).value, a)
            && (forall n :: n in req.roleNames ==> Adj(n) in a && a[Adj(n)] == 0.0)
            && Abs(req.roleNames[0]) in a && a[Abs(req.roleNames[0])] != 0.0
  {
    var eps := Epsilon(req.integerOnly);
    var a := ZeroPlan(Build(req).value.vars, eps);
    ZeroPlanValues(req);
    assert IsIntegral(0.0) && IsIntegral(1.0);
    forall n | n in req.roleNames ensures RoleRule(req, a, n) {
    }
    AbsTotalOfConstant(req.roleNames, a, eps);
    RevenueOfNoChange(req.roleNames, req.roleCounts, a);
    assert PairCount(req) == 0;
    assert MeetsBusinessRules(req, a);
    SatisfiesIffBusinessRules(req, a);
  }

  /** The values the no-change plan gives the variables of a built program. */
  lemma ZeroPlanValues(req: Request)
    requires Build(req).Success?
    ensures var a := ZeroPlan(Build(req).value.vars, Epsilon(req.integerOnly));
            && Counted(req)
            && (forall n :: n in req.roleNames ==> Adj(n) in a && a[Adj(n)] == 0.0)
            && (forall n :: n in req.roleNames ==> Abs(n) in a && a[Abs(n)] == Epsilon(req.integerOnly))
            && Surplus in a && a[Surplus] == 0.0
  {
    BuiltParts(req);
    RoleVarsShape(req, req.roleNames);
  }

  /** For i < j, a feasible plan puts the i-th ranked adjustment at least
      (j - i) * epsilon above the j-th. */
  lemma {:induction false} RankGap(req: Request, a: Assignment, i: nat, j: nat)
    requires Build(req).Success? && Satisfies(Build(req).value, a)
    requires i < j < |req.popularity|
    ensures Adj(req.popularity[i]) in a && Adj(req.popularity[j]) in a
    ensures a[Adj(req.popularity[i])] - a[Adj(req.popularity[j])] >= (j - i) as real * Epsilon(req.integerOnly)
    decreases j - i
  {
    SatisfiesIffBusinessRules(req, a);
    assert RankRule(req, a, i);
    if i + 1 < j {
      RankGap(req, a, i + 1, j);
    }
  }

  /** A ranking that names a role twice can never be satisfied. */
  lemma RepeatedRankInfeasible(req: Request, a: Assignment, i: nat, j: nat)
    requires Build(req).Success?
    requires i < j < |req.popularity| && req.popularity[i] == req.popularity[j]
    ensures !Satisfies(Build(req).value, a)
  {
    if Satisfies(Build(req).value, a) {
      RankGap(req, a, i, j);
      assert false;
    }
  }

  /** With two or more ranked names some adjustment is non-zero: the first
      two ranked roles cannot both be left unchanged. */
  lemma RankingForcesChange(req: Request, a: Assignment)
    requires Build(req).Success? && Satisfies(Build(req).value, a)
    requires |req.popularity| >= 2
    ensures req.popularity[0] in req.roleNames && req.popularity[1] in req.roleNames
    ensures Adj(req.popularity[0]) in a && Adj(req.popularity[1]) in a
    ensures a[Adj(req.popularity[0])] != 0.0 || a[Adj(req.popularity[1])] != 0.0
  {
    BuildOutcome(req);
    RankGap(req, a, 0, 1);
  }

  /** Sum of (base_price + adj_r) * role_counts[r]: the adjusted total. */
  function AdjustedTotal(basePrice: real, names: seq<string>, counts: map<string, int>, a: Assignment): real
    requires forall n :: n in names ==> n in counts && Adj(n) in a
  {
    if names == [] then 0.0
    else (basePrice + a[Adj(names[0])]) * counts[names[0]] as real + AdjustedTotal(basePrice, names[1..], counts, a)
  }

  /** The adjusted total is the original total plus what the adjustments add. */
  lemma {:induction false} AdjustedTotalSplits(basePrice: real, names: seq<string>, counts: map<string, int>, a: Assignment)
    requires forall n :: n in names ==> n in counts && Adj(n) in a
    ensures AdjustedTotal(basePrice, names, counts, a) ==
              BaseRevenue(basePrice, names, counts) + AdjustmentRevenue(names, counts, a)
  {
    if names != [] {
      AdjustedTotalSplits(basePrice, names[1..], counts, a);
    }
  }

  lemma FeasibleIsBalanced(req: Request, a: Assignment)
    requires Build(req).Success? && Satisfies(Build(req).value, a)
    ensures Counted(req) && Balanced(req, a) && SurplusHolds(req, a)
  {
    BuiltVarsWithin(req, a);
    BuiltConstraintsHold(req, a);
  }

  /** In every feasible plan the adjustments add exactly the surplus, which is
      non-negative, so the adjusted total is never below the original total. */
  lemma RevenueNeverBelowBaseline(req: Request, a: Assignment)
    requires Build(req).Success? && Satisfies(Build(req).value, a)
    ensures Counted(req) && forall n :: n in req.roleNames ==> Adj(n) in a
    ensures Surplus in a && a[Surplus] >= 0.0
    ensures AdjustmentRevenue(req.roleNames, req.roleCounts, a) == a[Surplus]
    ensures AdjustedTotal(req.basePrice, req.roleNames, req.roleCounts, a) == OriginalTotal(req) + a[Surplus]
    ensures AdjustedTotal(req.basePrice, req.roleNames, req.roleCounts, a) >= OriginalTotal(req)
  {
    FeasibleIsBalanced(req, a);
    BalancedTotals(req, a);
  }

  /** When the adjustments add the surplus, the adjusted total is the
      original total plus the surplus. */
  lemma BalancedTotals(req: Request, a: Assignment)
    requires Counted(req) && Balanced(req, a)
    ensures AdjustedTotal(req.basePrice, req.roleNames, req.roleCounts, a) == OriginalTotal(req) + a[Surplus]
  {
    AdjustedTotalSplits(req.basePrice, req.roleNames, req.roleCounts, a);
    BaseRevenueFactors(req.basePrice, req.roleNames, req.roleCounts);
  }

  /** For a positive base price, a role in the "---" tier makes the whole
      program infeasible. */
  lemma LowestTierInfeasible(req: Request, a: Assignment, n: string)
    requires Build(req).Success?
    requires req.basePrice > 0.0 && n in req.roleNames
    requires HasTier(req, n) && req.popularityLevels.value[n] == "---"
    ensures !Satisfies(Build(req).value, a)
  {
    SatisfiesIffBusinessRules(req, a);
    if Satisfies(Build(req).value, a) {
      assert RoleRule(req, a, n);
      LowestTierIsEmpty(req, n, a[Adj(n)]);
      assert false;
    }
  }
}
