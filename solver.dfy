/** The part of the external MIP/LP solver (Gurobi) that the Lagrangian layer
    talks to: linear expressions, variable bounds, linear constraints, the
    active objective and the variable values of the last solve.

    How the solver finds its values is not modelled: a solve is an oracle
    that maps the active objective to a valuation of every variable (the
    variables and constraints of the model are fixed while a relaxation loop
    runs, so the objective is the only input that changes between solves). */
module Solver {

  /** A variable handle: the position of the variable in the model. */
  type VarId = nat

  /** A constraint handle: the position of the constraint in the model. The
      Lagrangian layer indexes all of its registries by these handles. */
  type Key = nat

  /** The values of all variables after a solve. */
  type Valuation = VarId -> real

  datatype Term = Term(coeff: real, v: VarId)

  /** constant + Σ coeff·var */
  datatype LinExpr = LinExpr(constant: real, terms: seq<Term>)

  function VarExpr(v: VarId): LinExpr {
    LinExpr(0.0, [Term(1.0, v)])
  }

  lemma EvalVar(v: VarId, x: Valuation)
    ensures Eval(VarExpr(v), x) == x(v)
  {
    var ts := VarExpr(v).terms;
    assert ts[1..] == [];
    assert SumTerms(ts, x) == 1.0 * x(v) + SumTerms([], x);
  }

  function SumTerms(ts: seq<Term>, x: Valuation): real {
    if ts == [] then 0.0 else ts[0].coeff * x(ts[0].v) + SumTerms(ts[1..], x)
  }

  function Eval(e: LinExpr, x: Valuation): real {
    e.constant + SumTerms(e.terms, x)
  }

  function Negated(ts: seq<Term>): seq<Term> {
    if ts == [] then [] else [Term(-ts[0].coeff, ts[0].v)] + Negated(ts[1..])
  }

  /** The expression a - b, as the solver's expression arithmetic builds it. */
  function Minus(a: LinExpr, b: LinExpr): LinExpr {
    LinExpr(a.constant - b.constant, a.terms + Negated(b.terms))
  }

  lemma {:induction false} SumAppend(s: seq<Term>, t: seq<Term>, x: Valuation)
    ensures SumTerms(s + t, x) == SumTerms(s, x) + SumTerms(t, x)
  {
    if s == [] {
      assert s + t == t;
    } else {
      assert (s + t)[1..] == s[1..] + t;
      SumAppend(s[1..], t, x);
    }
  }

  lemma {:induction false} SumNegated(ts: seq<Term>, x: Valuation)
    ensures SumTerms(Negated(ts), x) == -SumTerms(ts, x)
  {
    if ts != [] {
      SumNegated(ts[1..], x);
    }
  }

  /** Subtraction of expressions means subtraction of their values. */
  lemma EvalMinus(a: LinExpr, b: LinExpr, x: Valuation)
    ensures Eval(Minus(a, b), x) == Eval(a, x) - Eval(b, x)
  {
    SumAppend(a.terms, Negated(b.terms), x);
    SumNegated(b.terms, x);
  }

  /** A bound of a variable: a real number or one of the two infinities. */
  datatype ExtReal = NegInf | Fin(r: real) | PosInf

  datatype VarBounds = VarBounds(lb: ExtReal, ub: ExtReal)

  /** Does value v lie within the bounds b? */
  predicate Within(b: VarBounds, v: real) {
    && (match b.lb
        case NegInf => true
        case Fin(l) => l <= v
        case PosInf => false)
    && (match b.ub
        case NegInf => false
        case Fin(u) => v <= u
        case PosInf => true)
  }

  /** lhs <sense> rhs, with the solver's sense characters '<', '>' and '='. */
  datatype LinConstr = LinConstr(lhs: LinExpr, sense: char, rhs: LinExpr)

  predicate Satisfies(c: LinConstr, x: Valuation) {
    var l, r := Eval(c.lhs, x), Eval(c.rhs, x);
    if c.sense == '<' then l <= r
    else if c.sense == '>' then l >= r
    else l == r
  }

  /** A valuation that a successful solve of the model may return: every
      variable within its bounds and every constraint satisfied. */
  ghost predicate SolvesModel(x: Valuation, vars: seq<VarBounds>, constrs: seq<LinConstr>) {
    && (forall v :: 0 <= v < |vars| ==> Within(vars[v], x(v)))
    && (forall k :: 0 <= k < |constrs| ==> Satisfies(constrs[k], x))
  }

  /** The active objective of the solver: either an expression set by the
      caller, or the Lagrangian objective base + Σ multipliers[k]·penalties[k]
      over the keys of penalties (kept as a term, not expanded). */
  datatype Objective =
    | Plain(expr: LinExpr)
    | Lagrangian(base: LinExpr, multipliers: map<Key, real>, penalties: map<Key, VarId>)

  /** The solver's model object, reduced to the state the Lagrangian layer
      reads or changes. */
  class SolverModel {
    var vars: seq<VarBounds>
    var constrs: seq<LinConstr>
    var objective: Objective
    var values: Valuation

    constructor ()
      ensures vars == [] && constrs == [] && objective == Plain(LinExpr(0.0, []))
    {
      vars := [];
      constrs := [];
      objective := Plain(LinExpr(0.0, []));
      values := (v: VarId) => 0.0;
    }

    /** Adds a variable; its handle is its position. */
    method AddVar(b: VarBounds) returns (v: VarId)
      modifies this
      ensures v == |old(vars)| && vars == old(vars) + [b]
      ensures constrs == old(constrs) && objective == old(objective) && values == old(values)
    {
      v := |vars|;
      vars := vars + [b];
    }

    /** Adds a linear constraint; its handle is its position. */
    method AddConstr(c: LinConstr) returns (k: Key)
      modifies this
      ensures k == |old(constrs)| && constrs == old(constrs) + [c]
      ensures vars == old(vars) && objective == old(objective) && values == old(values)
    {
      k := |constrs|;
      constrs := constrs + [c];
    }

    method SetObjective(o: Objective)
      modifies this
      ensures objective == o
      ensures vars == old(vars) && constrs == old(constrs) && values == old(values)
    {
      objective := o;
    }

    /** Solves the current model: the oracle gives the values for the active objective. */
    method Optimize(solve: Objective -> Valuation)
      modifies this
      ensures values == solve(objective)
      ensures vars == old(vars) && constrs == old(constrs) && objective == old(objective)
    {
      values := solve(objective);
    }
  }
}
