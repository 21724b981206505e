/** A linear program as plain data: decision variables, affine expressions kept
    as sequences of (coefficient, variable) terms so that a repeated term keeps
    its multiplicity, named constraints, and an evaluator that checks a given
    non-negative integer assignment against them. */
module LinearProgram {
  import opened Records

  /** A decision variable: stage-1 flow refinery -> tank, or stage-2 flow
      tank -> customer. Equal ids in the two stages are different variables. */
  datatype Var = R2T(src: Id, dst: Id) | T2C(src: Id, dst: Id)

  /** The (from, to) pair a variable ships along. */
  function Key(v: Var): Pair
  {
    (v.src, v.dst)
  }

  datatype Term = Term(coef: real, v: Var)

  /** An affine expression: the sum of its terms plus a constant. */
  datatype LinExpr = LinExpr(terms: seq<Term>, constant: real)

  datatype Op = Le | Ge | Eq

  datatype Constraint = Constraint(name: string, lhs: LinExpr, op: Op, rhs: LinExpr)

  /** A minimisation problem: the declared variables, the constraints in the
      order they were added, and the objective. */
  datatype Lp = Lp(variables: set<Var>, constraints: seq<Constraint>, objective: LinExpr)

  /** A candidate solution; integrality and non-negativity are in the type. */
  type Assignment = Var -> nat

  function TermsValue(ts: seq<Term>, x: Assignment): real
  {
    if ts == [] then 0.0 else ts[0].coef * (x(ts[0].v) as real) + TermsValue(ts[1..], x)
  }

  function Value(e: LinExpr, x: Assignment): real
  {
    TermsValue(e.terms, x) + e.constant
  }

  predicate Holds(c: Constraint, x: Assignment)
  {
    var l, r := Value(c.lhs, x), Value(c.rhs, x);
    match c.op
    case Le => l <= r
    case Ge => l >= r
    case Eq => l == r
  }

  /** x satisfies every constraint of the program. */
  predicate Feasible(lp: Lp, x: Assignment)
  {
    forall c :: c in lp.constraints ==> Holds(c, x)
  }

  function ObjectiveValue(lp: Lp, x: Assignment): real
  {
    Value(lp.objective, x)
  }

  /** The variables an expression mentions. */
  function ExprVars(e: LinExpr): set<Var>
  {
    set t | t in e.terms :: t.v
  }

  function ConstraintVars(c: Constraint): set<Var>
  {
    ExprVars(c.lhs) + ExprVars(c.rhs)
  }

  /** A constant expression. */
  function Constant(k: real): LinExpr
  {
    LinExpr([], k)
  }

  function UnitTerms(vs: seq<Var>): seq<Term>
  {
    if vs == [] then [] else [Term(1.0, vs[0])] + UnitTerms(vs[1..])
  }

  /** The sum of a list of variables, each with coefficient 1. */
  function LpSum(vs: seq<Var>): LinExpr
  {
    LinExpr(UnitTerms(vs), 0.0)
  }

  /** The total flow that x puts on a list of variables, counting a variable
      once per occurrence. */
  function Flow(vs: seq<Var>, x: Assignment): nat
  {
    if vs == [] then 0 else x(vs[0]) + Flow(vs[1..], x)
  }

  lemma {:induction false} LpSumValue(vs: seq<Var>, x: Assignment)
    ensures Value(LpSum(vs), x) == Flow(vs, x) as real
  {
    if vs != [] {
      LpSumValue(vs[1..], x);
    }
  }

  /** An LpSum mentions exactly the variables of its list. */
  lemma {:induction false} LpSumVars(vs: seq<Var>)
    ensures forall v :: v in ExprVars(LpSum(vs)) <==> v in vs
  {
    if vs != [] {
      LpSumVars(vs[1..]);
      assert UnitTerms(vs) == [Term(1.0, vs[0])] + UnitTerms(vs[1..]);
      assert forall v :: v in vs <==> v == vs[0] || v in vs[1..];
    }
  }

  lemma {:induction false} TermsValueAppend(a: seq<Term>, b: seq<Term>, x: Assignment)
    ensures TermsValue(a + b, x) == TermsValue(a, x) + TermsValue(b, x)
  {
    if a != [] {
      assert (a + b)[1..] == a[1..] + b;
      TermsValueAppend(a[1..], b, x);
    } else {
      assert a + b == b;
    }
  }

  /** Two assignments that agree on every variable a list of terms mentions
      give it the same value. */
  lemma {:induction false} TermsValueAgree(ts: seq<Term>, x: Assignment, y: Assignment)
    requires forall t :: t in ts ==> x(t.v) == y(t.v)
    ensures TermsValue(ts, x) == TermsValue(ts, y)
  {
    if ts != [] {
      assert ts[0] in ts;
      TermsValueAgree(ts[1..], x, y);
    }
  }

  /** How many times v occurs in a list of variables. */
  function Occurrences(vs: seq<Var>, v: Var): nat
  {
    if vs == [] then 0 else (if vs[0] == v then 1 else 0) + Occurrences(vs[1..], v)
  }

  /** When x is zero everywhere except at v, the flow on a list is the number
      of times v occurs in it times x(v): a repeated variable has a
      coefficient equal to its multiplicity. */
  lemma {:induction false} FlowConcentrated(vs: seq<Var>, v: Var, x: Assignment)
    requires forall u :: u != v ==> x(u) == 0
    ensures Flow(vs, x) == Occurrences(vs, v) * x(v)
  {
    if vs != [] {
      FlowConcentrated(vs[1..], v, x);
      var n, a := Occurrences(vs[1..], v), x(v);
      if vs[0] == v {
        assert (n + 1) * a == n * a + a;
      }
    }
  }
}
