# Price-adjustment optimiser: a Dafny model

`solve_adjustment` (flask_api/optimizer.py) takes the price adjustments of a set
of merchandise roles that share a base price and turns them into a
mixed-integer linear program. Each role gets an adjustment variable, bounded
by its popularity tier or by global bounds. It also gets an absolute-value
variable, linked to the adjustment by two inequalities. The absolute values
must sum to at least epsilon. Consecutive names of the popularity ranking
must differ by a gap of at least epsilon. The surplus, which is the adjusted
total minus the original total, is non-negative and is minimised. The
program goes to the PuLP solver. A non-optimal status gives `[]`; an optimal
one gives a single record with the adjustments, the final total and the diff.

The model has one module per stage:

- `Wrappers` (wrappers.dfy): `Option` and `Result`.
- `PricingRequest` (request.dfy): the request, the three lookup failures
  (`KeyError` in the source), epsilon.
- `Tiers` (tiers.dfy): the tier table, the global defaults, and the bound
  resolution with inward integer rounding.
- `LinearProgram` (linear_program.dfy): the program as data (bounded
  variables, linear constraints `terms + constant >= 0` or `== 0`, objective)
  and `Satisfies`.
- `ModelBuilder` (model_builder.dfy): `Build`, the program a request
  produces, and the methods `DeclareRoleVars`, `LinkAbsValues`, `AddRanking`
  and `BuildModel`, which run the source's loops and are proved to produce it.
- `Feasibility` (feasibility.dfy): the business rules stated on their own,
  the proof that satisfying the built program is the same as meeting them,
  and what follows from that.
- `Optimizer` (optimizer.dfy): the solver as a function parameter whose one
  promise is that an `Optimal` answer satisfies the program, result
  extraction, and `SolveAdjustment` end to end.

Variables are keyed by role name, as the source's dictionaries are. A role
name listed twice therefore shares its variables, and the sums count it twice,
as the source's list comprehensions do.

What the constraints guarantee is stated exactly as the code has it. The
absolute-value variables are only bounded below by `adj` and `-adj`, and the
objective is the surplus, not the sum of absolute values. So nothing forces
`abs = |adj|`, and the "at least one non-zero" constraint is met by a plan
that changes no price at all (`NoChangeCanBeFeasible`). A non-zero adjustment
is forced only by the ranking, once it has two or more names
(`RankingForcesChange`).

Four points of the code that the model keeps as written:

- Integer rounding is inward: `ceil` on the lower bound and `floor` on the
  upper. The model proves that this loses no integer (`Tiers.ResolveBounds`).
- An empty interval raises nothing. It leaves the program infeasible, and the
  model does the same (`Feasibility.LowestTierInfeasible`).
- The `--` row `(-0.5, -0.20)` is in order. The `---` row `(-0.15, -0.30)` is
  inverted, and it is kept as written.
- There is only the single-solution mode. No enumeration of several solutions
  and no exclusion constraints exist in the code.

## Model

| member | source | states |
|---|---|---|
| PricingRequest.Epsilon | flask_api/optimizer.py:9 | epsilon is positive: exactly 1 in integer mode, below 1 otherwise |
| ModelBuilder.RankConstraintsArePairs | flask_api/optimizer.py:57-63 | the ranking loop makes one step per adjacent pair (`PairCount`, none for fewer than two names), and step i constrains the i-th ranked name against the next through the i-th gap variable |
| Tiers.Ceil | flask_api/optimizer.py:38 | `math.ceil`: the least integer not below its argument |
| Tiers.IntervalSource | flask_api/optimizer.py:7-34 | `RawInterval`: a role uses its tier's fractions of the base price from `LevelBounds` exactly when `popularity_levels` is given and names it; otherwise it uses `[GlobalMin, GlobalMax]`, which default to minus and plus 30% of the base price |
| Tiers.UnknownTierFails | flask_api/optimizer.py:12-29 | resolution fails, with that label, exactly for a tier label outside the six-entry table |
| Tiers.ResolveBounds | flask_api/optimizer.py:26-41 | fails exactly when the raw interval does; otherwise a value is admissible for the rounded bounds exactly when it is admissible for the raw interval |
| Tiers.RoundingInward | flask_api/optimizer.py:38-39 | an integer lies between `ceil(lb)` and `floor(ub)` exactly when it lies between `lb` and `ub` |
| Tiers.LowestTierIsEmpty | flask_api/optimizer.py:18 | for a positive base price the `---` tier admits no value, in either mode |
| ModelBuilder.FirstOutside | flask_api/optimizer.py:58-63 | returns nothing exactly when every element is in the pool; otherwise the element at the first index outside it |
| ModelBuilder.RoleVarsShape | flask_api/optimizer.py:26-46 | the first loop declares exactly an adjustment and an absolute-value variable per role name, with the resolved bounds and a lower bound 0 |
| ModelBuilder.RoleVarsSucceeds | flask_api/optimizer.py:26-29 | the first loop completes exactly when every role's tier is known; otherwise it fails with an unknown tier |
| ModelBuilder.RoleVarsFailureSticks | flask_api/optimizer.py:26-29 | a failure on a prefix of the role names is the failure of the whole loop |
| ModelBuilder.GapVarsShape | flask_api/optimizer.py:60-62 | the ranking loop declares exactly one gap variable per adjacent pair, bounded below by epsilon |
| ModelBuilder.DeclareRoleVars | flask_api/optimizer.py:26-46 | the loop's result is the variable map of `RoleVars`, or its first unknown-tier failure |
| ModelBuilder.LinkAbsValues | flask_api/optimizer.py:49-51 | the loop appends the two absolute-value links of every role, in order |
| ModelBuilder.AddRanking | flask_api/optimizer.py:57-63 | the loop adds a gap variable and `adj_higher >= adj_lower + delta` per adjacent pair, or fails at the first ranked name without an adjustment variable |
| ModelBuilder.BuildModel | flask_api/optimizer.py:21-73 | the built program, or the first lookup failure, is `Build` of the request, whose meaning `BuildOutcome`, `BuiltParts` and `SatisfiesIffBusinessRules` state |
| ModelBuilder.BuildOutcome | flask_api/optimizer.py:26-66 | building succeeds exactly when tiers are known, every name of a ranking of two or more is a role, and every role has a count; an unknown tier is reported first, then an unknown ranked name; one ranked name is never checked |
| ModelBuilder.BuiltParts | flask_api/optimizer.py:21-73 | the program's variables are role, gap and surplus variables with disjoint names; its constraints are the links, the non-zero sum, the ranking and the balance; its objective is the surplus |
| Feasibility.RoleVarsWithin | flask_api/optimizer.py:36-46 | the role variables are within bounds exactly when each adjustment lies in its raw interval and each absolute value is non-negative (integral in integer mode) |
| Feasibility.GapVarsWithin | flask_api/optimizer.py:60-62 | the gap variables are within bounds exactly when each gap is at least epsilon |
| Feasibility.AbsLinksHold | flask_api/optimizer.py:49-51 | the link constraints hold exactly when every absolute value is at least the adjustment and its negation |
| Feasibility.AbsTermsEval | flask_api/optimizer.py:54 | the left side of the non-zero constraint is the sum of the absolute values |
| Feasibility.NonZeroHolds | flask_api/optimizer.py:54 | the non-zero constraint holds exactly when the absolute values sum to at least epsilon |
| Feasibility.RankConstraintsHold | flask_api/optimizer.py:57-63 | the ranking constraints hold exactly when each adjacent pair is at least its gap apart |
| Feasibility.CountTermsEval | flask_api/optimizer.py:67 | the variable part of `total_adjusted` is the sum of count times adjustment |
| Feasibility.BaseRevenueFactors | flask_api/optimizer.py:66-67 | the constant part of `total_adjusted` equals `total_original` |
| Feasibility.BalanceHolds | flask_api/optimizer.py:66-72 | the balance constraint holds exactly when the adjustments' revenue equals the surplus |
| Feasibility.SatisfiesIffBusinessRules | flask_api/optimizer.py:21-73 | an assignment satisfies the built program exactly when it meets the business rules: role bounds, `abs >= adj` and `abs >= -adj`, sum of abs at least epsilon, ranked gaps at least epsilon, and revenue added equal to a non-negative surplus |
| Feasibility.FeasibleAbsValues | flask_api/optimizer.py:42-54 | in every feasible plan each absolute value is non-negative and at least the adjustment and its negation, and they sum to at least epsilon |
| Feasibility.NoChangeCanBeFeasible | flask_api/optimizer.py:42-54 | with fewer than two ranked names and 0 inside every role's interval, the plan that changes no price is feasible, and its absolute values are not the absolute adjustments |
| Feasibility.RankGap | flask_api/optimizer.py:57-63 | for ranks i < j, a feasible plan has `adj[p_i] - adj[p_j] >= (j - i) * epsilon` |
| Feasibility.RepeatedRankInfeasible | flask_api/optimizer.py:57-63 | a ranking naming a role twice is infeasible |
| Feasibility.RankingForcesChange | flask_api/optimizer.py:57-63 | with two or more ranked names, one of the first two ranked adjustments is non-zero in every feasible plan |
| Feasibility.AdjustedTotalSplits | flask_api/optimizer.py:67 | `AdjustedTotal`, the sum of (base + adj) times count, is the base revenue plus the adjustments' revenue |
| Feasibility.BalancedTotals | flask_api/optimizer.py:66-72 | when the adjustments' revenue is the surplus, `total_adjusted` is `total_original` plus the surplus |
| Feasibility.RevenueNeverBelowBaseline | flask_api/optimizer.py:66-72 | in every feasible plan the adjustments add exactly the surplus, which is non-negative, so the adjusted total is never below the original total |
| Feasibility.LowestTierInfeasible | flask_api/optimizer.py:18-41 | with a positive base price, a role in the `---` tier makes the program infeasible |
| Optimizer.RoundHalfEven | flask_api/optimizer.py:82 | Python's `round`: within one half of its argument, exact on integral values, ties to even |
| Optimizer.ExtractResult | flask_api/optimizer.py:78-85 | no record exactly when the status is not Optimal; otherwise one record whose keys are the role names, whose adjustments are the solver's values rounded in integer mode, whose final total is `AdjustedTotal` of the solver's values, and whose diff is the surplus |
| Optimizer.RecordTotalOfAssignment | flask_api/optimizer.py:83 | `final_total` computed from a record whose adjustments are the solver's values equals the solver's adjusted total |
| Optimizer.ReportedIsExact | flask_api/optimizer.py:82 | in a feasible answer, rounding leaves every adjustment unchanged |
| Optimizer.ExtractedRecordHonoursRules | flask_api/optimizer.py:78-85 | the record from a feasible answer honours every rule: bounds, ranking gaps, a non-zero adjustment once two names are ranked, `final_total` equal to the sum of (base + reported adjustment) times count, and `final_total - total_original = diff >= 0` |
| Optimizer.SolveAdjustment | flask_api/optimizer.py:4-85 | for any solver meeting `SolverSound` (an Optimal answer satisfies the program): a lookup failure is reported before any solve; otherwise one solve, no record exactly on a non-optimal status, else exactly the record `ExtractResult` builds from that solve's answer, which honours every rule, its final total included |
| Optimizer.LowestTierYieldsNothing | flask_api/optimizer.py:18-79 | a sound solver never reports Optimal for a request with a `---` role and a positive base price |
| Optimizer.RepeatedRankYieldsNothing | flask_api/optimizer.py:57-79 | a sound solver never reports Optimal when the ranking repeats a role |

## Left out

- flask_api/app.py: the HTTP route, JSON parsing, CORS, `jsonify` and process start-up have no logic of their own.
- The solving engine (`prob.solve`, `LpStatus`, `value`) is a function parameter. Its only assumed property is that an `Optimal` answer satisfies the program. That the surplus is minimal is not modelled: proving it would be verifying the solver.
- Floating point: `base_price * fraction`, the `0.01` epsilon and the solver's values are exact reals. A float product lying just off an integer could move `ceil` or `floor` by one in the real code.
- Variable and problem names (`adj_{name}`, `delta_{higher}_{lower}`, the problem title) are not modelled. Gaps are numbered by their position. As a result, the library's rejection of two variables with the same name is not modelled. That happens whenever two adjacent pairs produce the same `delta_{higher}_{lower}` string: a repeated pair, or names containing `_` (the ranking `[a_b, c, a, b_c]` names distinct roles, and the model returns a record for it). The same holds for two role names that differ only in characters the library turns into `_` in variable names, which give the same `adj_`/`abs_` names.
- Python's truthiness: a `popularity_levels` that is present but empty is modelled as naming no role, which gives the same branch. Non-string tier labels and non-integer counts are not modelled.
- Optimizer.ExtractResult: the `adjustments` dict keeps the order of `role_names`; a Dafny `map` has no order, so the record's key order is not modelled.
