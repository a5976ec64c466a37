/** The mixed-integer linear program handed to the solver, as data: bounded
    variables, linear constraints of the form `terms + constant >= 0` or
    `terms + constant == 0`, and the variable to minimise. */
module LinearProgram {
  import opened Wrappers
  import opened Tiers

  /** The decision variables of one request: an adjustment and an absolute
      value per role name, one gap per adjacent ranking pair, and the surplus. */
  datatype VarId = Adj(role: string) | Abs(role: string) | Delta(pair: nat) | Surplus

  /** A variable's optional lower and upper bounds and its category. */
  datatype VarBounds = VarBounds(lo: Option<real>, hi: Option<real>, integral: bool)

  datatype Term = Term(v: VarId, coef: real)

  datatype Sense = AtLeastZero | EqualsZero

  /** `sum of coef * v over terms + constant`, compared with zero. */
  datatype Constraint = Constraint(terms: seq<Term>, constant: real, sense: Sense)

  datatype Model = Model(vars: map<VarId, VarBounds>, constraints: seq<Constraint>, objective: VarId)

  /** Values for (some of) the variables, as the solver reports them. */
  type Assignment = map<VarId, real>

  /** Every variable a term list mentions has a value. */
  predicate Defined(terms: seq<Term>, a: Assignment)
  {
    forall i :: 0 <= i < |terms| ==> terms[i].v in a
  }

  /** The value of a linear expression without its constant. */
  function Eval(terms: seq<Term>, a: Assignment): real
    requires Defined(terms, a)
  {
    if terms == [] then 0.0 else terms[0].coef * a[terms[0].v] + Eval(terms[1..], a)
  }

  /** Evaluation distributes over concatenation of term lists. */
  lemma {:induction false} EvalAppend(t1: seq<Term>, t2: seq<Term>, a: Assignment)
    requires Defined(t1, a) && Defined(t2, a)
    ensures Defined(t1 + t2, a)
    ensures Eval(t1 + t2, a) == Eval(t1, a) + Eval(t2, a)
  {
    if t1 == [] {
      assert t1 + t2 == t2;
    } else {
      assert (t1 + t2)[1..] == t1[1..] + t2;
      EvalAppend(t1[1..], t2, a);
    }
  }

  /** A term list with a first term is defined and evaluates term by term. */
  lemma EvalCons(t: Term, rest: seq<Term>, a: Assignment)
    ensures Defined([t] + rest, a) <==> t.v in a && Defined(rest, a)
    ensures Defined([t] + rest, a) ==> Eval([t] + rest, a) == t.coef * a[t.v] + Eval(rest, a)
  {
    var s := [t] + rest;
    assert s[0] == t && s[1..] == rest;
    if t.v in a && Defined(rest, a) {
      forall i | 0 <= i < |s| ensures s[i].v in a {
        if i > 0 { assert s[i] == rest[i - 1]; }
      }
    }
    if Defined(s, a) {
      forall i | 0 <= i < |rest| ensures rest[i].v in a {
        assert rest[i] == s[i + 1];
      }
    }
  }

  predicate Holds(c: Constraint, a: Assignment)
  {
    Defined(c.terms, a) &&
    match c.sense
    case AtLeastZero => Eval(c.terms, a) + c.constant >= 0.0
    case EqualsZero => Eval(c.terms, a) + c.constant == 0.0
  }

  predicate WithinBounds(b: VarBounds, x: real)
  {
    (b.lo.Some? ==> b.lo.value <= x) &&
    (b.hi.Some? ==> x <= b.hi.value) &&
    (b.integral ==> IsIntegral(x))
  }

  /** Every declared variable has a value within its bounds and category. */
  predicate VarsWithin(vars: map<VarId, VarBounds>, a: Assignment)
  {
    forall v :: v in vars ==> v in a && WithinBounds(vars[v], a[v])
  }

  predicate AllHold(cs: seq<Constraint>, a: Assignment)
  {
    forall k :: 0 <= k < |cs| ==> Holds(cs[k], a)
  }

  /** A feasible point of the program. The objective plays no part. */
  predicate Satisfies(m: Model, a: Assignment)
  {
    VarsWithin(m.vars, a) && AllHold(m.constraints, a)
  }

  /** A list of constraints holds exactly when both of its parts hold. */
  lemma AllHoldAppend(c1: seq<Constraint>, c2: seq<Constraint>, a: Assignment)
    ensures AllHold(c1 + c2, a) <==> AllHold(c1, a) && AllHold(c2, a)
  {
    if AllHold(c1, a) && AllHold(c2, a) {
      forall k | 0 <= k < |c1 + c2| ensures Holds((c1 + c2)[k], a) {
        if k >= |c1| { assert (c1 + c2)[k] == c2[k - |c1|]; }
      }
    }
    if AllHold(c1 + c2, a) {
      forall k | 0 <= k < |c1| ensures Holds(c1[k], a) {
        assert (c1 + c2)[k] == c1[k];
      }
      forall k | 0 <= k < |c2| ensures Holds(c2[k], a) {
        assert (c1 + c2)[|c1| + k] == c2[k];
      }
    }
  }

  lemma AllHoldSingle(c: Constraint, a: Assignment)
    ensures AllHold([c], a) <==> Holds(c, a)
  {
    assert [c][0] == c;
  }

  lemma AllHoldPair(c1: Constraint, c2: Constraint, a: Assignment)
    ensures AllHold([c1, c2], a) <==> Holds(c1, a) && Holds(c2, a)
  {
    assert [c1, c2][0] == c1 && [c1, c2][1] == c2;
  }

  /** Declared variables of two maps with disjoint keys are within bounds
      exactly when those of each map are. */
  lemma VarsWithinUnion(m1: map<VarId, VarBounds>, m2: map<VarId, VarBounds>, a: Assignment)
    requires m1.Keys !! m2.Keys
    ensures VarsWithin(m1 + m2, a) <==> VarsWithin(m1, a) && VarsWithin(m2, a)
  {
  }
}
