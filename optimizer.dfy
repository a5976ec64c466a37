/** solve_adjustment end to end: build the program, hand it to the solver,
    and turn an optimal answer into the single result record. */
module Optimizer {
  import opened Wrappers
  import opened PricingRequest
  import opened Tiers
  import opened LinearProgram
  import opened ModelBuilder
  import opened Feasibility

  /** The statuses the solver library reports. */
  datatype Status = NotSolved | Optimal | Infeasible | Unbounded | Undefined

  /** What one call of the solver returns: a status and the values it chose. */
  datatype SolverOutput = SolverOutput(status: Status, assignment: Assignment)

  /** All the model assumes of the solver: an answer reported Optimal
      satisfies every bound and constraint of the program it was given. That
      the surplus is minimal is not assumed. */
  ghost predicate SolverSound(solve: Model -> SolverOutput)
  {
    forall m :: solve(m).status == Optimal ==> Satisfies(m, solve(m).assignment)
  }

  /** One result record: the adjustment of every role, the adjusted total and
      the surplus. */
  datatype Solution = Solution(adjustments: map<string, real>, finalTotal: real, diff: real)

  /** Python's round on one argument: the nearest integer, a tie going to the
      even neighbour. */
  function RoundHalfEven(x: real): (n: int)
    ensures n as real - x <= 0.5 && x - n as real <= 0.5
    ensures IsIntegral(x) ==> n as real == x
    ensures x - x.Floor as real == 0.5 ==> n % 2 == 0
  {
    var f := x.Floor;
    var frac := x - f as real;
    if frac < 0.5 then f
    else if frac > 0.5 then f + 1
    else if f % 2 == 0 then f
    else f + 1
  }

  /** The solver gave a value to every adjustment and to the surplus. */
  predicate Assigned(req: Request, a: Assignment)
  {
    (forall n :: n in req.roleNames ==> Adj(n) in a) && Surplus in a
  }

  /** The value reported for a role: rounded in integer mode, as it is. */
  function Reported(integerOnly: bool, x: real): real
  {
    if integerOnly then RoundHalfEven(x) as real else x
  }

  /** optimizer.py lines 78-85: no record unless the status is Optimal, otherwise exactly
      one: the solver's adjustment of every role name, rounded in integer
      mode, the adjusted total computed from the solver's adjustments, and the
      surplus as the diff. */
  function ExtractResult(req: Request, out: SolverOutput): (r: seq<Solution>)
    requires Counted(req)
    requires out.status == Optimal ==> Assigned(req, out.assignment)
    ensures out.status != Optimal <==> r == []
    ensures out.status == Optimal ==> |r| == 1 && r[0].adjustments.Keys == Roster(req)
    ensures out.status == Optimal ==>
              forall n :: n in req.roleNames ==> r[0].adjustments[n] == Reported(req.integerOnly, out.assignment[Adj(n)])
    ensures out.status == Optimal ==>
              r[0].finalTotal == AdjustedTotal(req.basePrice, req.roleNames, req.roleCounts, out.assignment)
    ensures out.status == Optimal ==> r[0].diff == out.assignment[Surplus]
  {
    if out.status != Optimal then []
    else
      var a := out.assignment;
      [Solution(
        map n | n in req.roleNames :: Reported(req.integerOnly, a[Adj(n)]),
        AdjustedTotal(req.basePrice, req.roleNames, req.roleCounts, a),
        a[Surplus])]
  }

  /** The i-th adjacent ranked pair of a record is at least epsilon apart. */
  predicate RecordPairApart(req: Request, s: Solution, i: nat)
    requires i + 1 < |req.popularity|
  {
    && req.popularity[i] in s.adjustments && req.popularity[i + 1] in s.adjustments
    && s.adjustments[req.popularity[i]] - s.adjustments[req.popularity[i + 1]] >= Epsilon(req.integerOnly)
  }

  /** final_total as a record states it: the sum over the role names of
      (base price + the role's adjustment) times its count. */
  function RecordTotal(basePrice: real, names: seq<string>, counts: map<string, int>, adjustments: map<string, real>): real
    requires forall n :: n in names ==> n in counts && n in adjustments
  {
    if names == [] then 0.0
    else (basePrice + adjustments[names[0]]) * counts[names[0]] as real + RecordTotal(basePrice, names[1..], counts, adjustments)
  }

  /** A record whose adjustments are the solver's values has the solver's
      adjusted total. */
  lemma {:induction false} RecordTotalOfAssignment(basePrice: real, names: seq<string>, counts: map<string, int>,
                                                    adjustments: map<string, real>, a: Assignment)
    requires forall n :: n in names ==> n in counts && n in adjustments && Adj(n) in a && adjustments[n] == a[Adj(n)]
    ensures RecordTotal(basePrice, names, counts, adjustments) == AdjustedTotal(basePrice, names, counts, a)
  {
    if names != [] {
      RecordTotalOfAssignment(basePrice, names[1..], counts, adjustments, a);
    }
  }

  /** What a returned record promises: an adjustment for exactly the roles,
      each within its interval (integral in integer mode), strictly ordered by
      the ranking with gaps of at least epsilon, some adjustment non-zero once
      two names are ranked, a final total equal to the sum of (base price +
      adjustment) times count over the roles, and a non-negative diff by
      which that final total exceeds the original total. */
  ghost predicate HonoursRules(req: Request, s: Solution)
  {
    && Counted(req)
    && s.adjustments.Keys == Roster(req)
    && (forall n :: n in req.roleNames ==>
          RawInterval(req, n).Success? && Admissible(req.integerOnly, RawInterval(req, n).value, s.adjustments[n]))
    && (forall i :: 0 <= i < PairCount(req) ==> RecordPairApart(req, s, i))
    && (|req.popularity| >= 2 ==>
          req.popularity[0] in s.adjustments && req.popularity[1] in s.adjustments &&
          (s.adjustments[req.popularity[0]] != 0.0 || s.adjustments[req.popularity[1]] != 0.0))
    && s.diff >= 0.0
    && s.finalTotal == RecordTotal(req.basePrice, req.roleNames, req.roleCounts, s.adjustments)
    && s.finalTotal == OriginalTotal(req) + s.diff
  }

  /** A feasible answer has a value for every variable the record reads. */
  lemma FeasibleIsAssigned(req: Request, a: Assignment)
    requires Build(req).Success? && Satisfies(Build(req).value, a)
    ensures Counted(req) && Assigned(req, a)
  {
    FeasibleIsBalanced(req, a);
  }

  /** In a feasible answer rounding changes no adjustment. */
  lemma ReportedIsExact(req: Request, a: Assignment, n: string)
    requires Build(req).Success? && Satisfies(Build(req).value, a)
    requires n in req.roleNames
    ensures Adj(n) in a && Reported(req.integerOnly, a[Adj(n)]) == a[Adj(n)]
  {
    SatisfiesIffBusinessRules(req, a);
    assert RoleRule(req, a, n);
  }

  /** The record extracted from a feasible answer honours every rule. */
  lemma ExtractedRecordHonoursRules(req: Request, out: SolverOutput)
    requires Build(req).Success? && out.status == Optimal && Satisfies(Build(req).value, out.assignment)
    ensures Counted(req) && Assigned(req, out.assignment)
    ensures HonoursRules(req, ExtractResult(req, out)[0])
  {
    var a := out.assignment;
    FeasibleIsAssigned(req, a);
    var s := ExtractResult(req, out)[0];
    forall n | n in req.roleNames ensures s.adjustments[n] == a[Adj(n)] {
      ReportedIsExact(req, a, n);
    }
    SatisfiesIffBusinessRules(req, a);
    forall n | n in req.roleNames
      ensures RawInterval(req, n).Success? && Admissible(req.integerOnly, RawInterval(req, n).value, s.adjustments[n])
    {
      assert RoleRule(req, a, n);
    }
    forall i | 0 <= i < PairCount(req) ensures RecordPairApart(req, s, i) {
      assert RankRule(req, a, i);
      BuildOutcome(req);
    }
    if |req.popularity| >= 2 {
      RankingForcesChange(req, a);
    }
    RevenueNeverBelowBaseline(req, a);
    RecordTotalOfAssignment(req.basePrice, req.roleNames, req.roleCounts, s.adjustments, a);
  }

  /** solve_adjustment: a lookup failure while building is reported before
      the solver is called; otherwise the program is solved once, a
      non-optimal status gives no record, and an optimal one exactly the
      record extracted from the solver's answer, which honours every rule. */
  method SolveAdjustment(req: Request, solve: Model -> SolverOutput) returns (r: Result<seq<Solution>, BuildError>)
    requires SolverSound(solve)
    ensures Build(req).Failure? ==> r == Failure(Build(req).error)
    ensures Build(req).Success? ==> r.Success? && |r.value| <= 1
    ensures Build(req).Success? ==> (r.value == [] <==> solve(Build(req).value).status != Optimal)
    ensures Build(req).Success? ==> Counted(req)
    ensures Build(req).Success? && solve(Build(req).value).status == Optimal ==>
              Assigned(req, solve(Build(req).value).assignment)
    ensures Build(req).Success? ==> r == Success(ExtractResult(req, solve(Build(req).value)))
    ensures r.Success? ==> forall s :: s in r.value ==> HonoursRules(req, s)
  {
    var built := BuildModel(req);
    if built.Failure? {
      return Failure(built.error);
    }
    var model := built.value;
    // optimizer.py line 76: the solver call
    var out := solve(model);
    if out.status == Optimal {
      ExtractedRecordHonoursRules(req, out);
    } else {
      BuiltParts(req);
    }
    r := Success(ExtractResult(req, out));
  }

  /** With a positive base price, a role in the "---" tier means a sound
      solver never reports Optimal, so the request yields no record. */
  lemma LowestTierYieldsNothing(req: Request, solve: Model -> SolverOutput, n: string)
    requires SolverSound(solve) && Build(req).Success?
    requires req.basePrice > 0.0 && n in req.roleNames
    requires HasTier(req, n) && req.popularityLevels.value[n] == "---"
    ensures solve(Build(req).value).status != Optimal
  {
    var m := Build(req).value;
    LowestTierInfeasible(req, solve(m).assignment, n);
  }

  /** A ranking that names a role twice yields no record from a sound solver. */
  lemma RepeatedRankYieldsNothing(req: Request, solve: Model -> SolverOutput, i: nat, j: nat)
    requires SolverSound(solve) && Build(req).Success?
    requires i < j < |req.popularity| && req.popularity[i] == req.popularity[j]
    ensures solve(Build(req).value).status != Optimal
  {
    var m := Build(req).value;
    RepeatedRankInfeasible(req, solve(m).assignment, i, j);
  }
}
