/** The rules of Lagrangian relaxation that both versions of LRModel share:
    how a dualized constraint becomes a penalty variable and a linking
    constraint, the two stopping tests (primal feasibility and complementary
    slackness), the subgradient update of the multipliers and the harmonic
    step-size schedule. */
module Relaxation {
  import opened Solver

  datatype Option<T> = None | Some(value: T)

  /** One side of a constraint template: a bare number or a linear expression. */
  datatype Side = Num(n: real) | Expr(e: LinExpr)

  /** A constraint written by the caller, `lhs <sense> rhs`, before it is
      handed to the solver; the sense is the solver's character ('<', '>', '='). */
  datatype TempConstr = TempConstr(lhs: Side, sense: char, rhs: Side)

  /** The value of one side under a valuation; a bare number stands for itself. */
  function SideValue(s: Side, x: Valuation): real {
    match s
    case Num(n) => n
    case Expr(e) => Eval(e, x)
  }

  function AsExpr(s: Side): (e: LinExpr)
    ensures forall x :: Eval(e, x) == SideValue(s, x)
  {
    match s
    case Num(n) => LinExpr(n, [])
    case Expr(e) => e
  }

  /** Bounds of the penalty variable of a dualized constraint with this sense:
      '<' gives [0, +inf), '>' gives (-inf, 0], anything else is unrestricted. */
  function PenaltyBounds(sense: char): (b: VarBounds)
    ensures forall v :: Within(b, v) <==> (sense == '<' ==> v >= 0.0) && (sense == '>' ==> v <= 0.0)
  {
    if sense == '<' then VarBounds(Fin(0.0), PosInf)
    else if sense == '>' then VarBounds(NegInf, Fin(0.0))
    else VarBounds(NegInf, PosInf)
  }

  /** The linking constraint p == rhs - lhs. */
  function LinkConstraint(p: VarId, t: TempConstr): LinConstr {
    LinConstr(VarExpr(p), '=', Minus(AsExpr(t.rhs), AsExpr(t.lhs)))
  }

  /** A valuation satisfies the linking constraint exactly when the penalty
      variable holds the signed slack rhs - lhs of the template. */
  lemma LinkMeaning(p: VarId, t: TempConstr, x: Valuation)
    ensures Satisfies(LinkConstraint(p, t), x) <==> x(p) == SideValue(t.rhs, x) - SideValue(t.lhs, x)
  {
    EvalVar(p, x);
    EvalMinus(AsExpr(t.rhs), AsExpr(t.lhs), x);
  }

  /** The registries of dualized constraints agree with the solver's model:
      both registries have the same keys; each key is the handle of the
      linking constraint of its template and names a penalty variable with the
      bounds its sense calls for; no two keys share a penalty variable. */
  ghost predicate Registered(penalties: map<Key, VarId>, dualized: map<Key, TempConstr>,
                             vars: seq<VarBounds>, constrs: seq<LinConstr>)
  {
    && penalties.Keys == dualized.Keys
    && (forall c :: c in penalties ==>
          && c < |constrs| && penalties[c] < |vars|
          && vars[penalties[c]] == PenaltyBounds(dualized[c].sense)
          && constrs[c] == LinkConstraint(penalties[c], dualized[c]))
    && (forall c, d :: c in penalties && d in penalties && c != d ==> penalties[c] != penalties[d])
  }

  /** Dualizing one more template keeps the registries in agreement with the
      solver's model, when the new penalty variable and the new linking
      constraint take the next free handles. */
  lemma RegisteredExtend(penalties: map<Key, VarId>, dualized: map<Key, TempConstr>,
                         vars: seq<VarBounds>, constrs: seq<LinConstr>, t: TempConstr)
    requires Registered(penalties, dualized, vars, constrs)
    ensures |constrs| !in penalties
    ensures Registered(penalties[|constrs| := |vars|], dualized[|constrs| := t],
                       vars + [PenaltyBounds(t.sense)], constrs + [LinkConstraint(|vars|, t)])
  {
    var c, p := |constrs|, |vars|;
    var penalties', dualized' := penalties[c := p], dualized[c := t];
    var vars', constrs' := vars + [PenaltyBounds(t.sense)], constrs + [LinkConstraint(p, t)];
    forall d | d in penalties'
      ensures && d < |constrs'| && penalties'[d] < |vars'|
              && vars'[penalties'[d]] == PenaltyBounds(dualized'[d].sense)
              && constrs'[d] == LinkConstraint(penalties'[d], dualized'[d])
    {
      if d != c {
        assert vars'[penalties[d]] == vars[penalties[d]] && constrs'[d] == constrs[d];
      }
    }
  }

  /** The feasibility test of one original constraint, within eps. */
  predicate SenseHolds(t: TempConstr, x: Valuation, eps: real) {
    var l, r := SideValue(t.lhs, x), SideValue(t.rhs, x);
    if t.sense == '<' then l <= r + eps
    else if t.sense == '>' then l >= r - eps
    else if t.sense == '=' then r - eps <= l <= r + eps
    else true
  }

  predicate PrimalFeasibleSpec(keys: set<Key>, dualized: map<Key, TempConstr>, x: Valuation, eps: real)
    requires keys <= dualized.Keys
  {
    forall c :: c in keys ==> SenseHolds(dualized[c], x, eps)
  }

  function Abs(r: real): real {
    if r < 0.0 then -r else r
  }

  predicate ComplementarySlacknessSpec(penalties: map<Key, VarId>, multipliers: map<Key, real>,
                                       x: Valuation, eps: real)
    requires penalties.Keys <= multipliers.Keys
  {
    forall c :: c in penalties ==> Abs(multipliers[c]) <= eps || Abs(x(penalties[c])) <= eps
  }

  /** On any valuation the solver may return for a registered model, the
      inequality records are always feasible (their penalty bounds force the
      right sign of rhs - lhs), so primal feasibility comes down to every
      equality record having a penalty within eps of zero. */
  lemma PrimalFeasibleOnSolution(penalties: map<Key, VarId>, dualized: map<Key, TempConstr>,
                                 vars: seq<VarBounds>, constrs: seq<LinConstr>, x: Valuation, eps: real)
    requires Registered(penalties, dualized, vars, constrs)
    requires SolvesModel(x, vars, constrs)
    requires eps >= 0.0
    ensures PrimalFeasibleSpec(penalties.Keys, dualized, x, eps)
        <==> forall c :: c in penalties && dualized[c].sense == '=' ==> Abs(x(penalties[c])) <= eps
  {
    forall c | c in penalties
      ensures SenseHolds(dualized[c], x, eps) <==> (dualized[c].sense == '=' ==> Abs(x(penalties[c])) <= eps)
    {
      var p, t := penalties[c], dualized[c];
      assert Satisfies(constrs[c], x);
      LinkMeaning(p, t, x);
      assert Within(vars[p], x(p));
    }
  }

  /** One subgradient step: every multiplier moves against its penalty's value,
      scaled by the step size, with no clamping. */
  function SubgradientStep(multipliers: map<Key, real>, stepSize: real,
                           penalties: map<Key, VarId>, x: Valuation): map<Key, real>
    requires penalties.Keys <= multipliers.Keys
  {
    map c | c in penalties :: multipliers[c] - stepSize * x(penalties[c])
  }

  /** The update loop over the dualized constraints: each multiplier in turn
      moves by step size times its penalty's value. */
  method StepMultipliers(multipliers: map<Key, real>, stepSize: real,
                         penalties: map<Key, VarId>, x: Valuation) returns (r: map<Key, real>)
    requires penalties.Keys == multipliers.Keys
    ensures r == SubgradientStep(multipliers, stepSize, penalties, x)
  {
    r := multipliers;
    var todo := penalties.Keys;
    while todo != {}
      invariant todo <= penalties.Keys
      invariant r.Keys == multipliers.Keys
      invariant forall c :: c in r ==>
        r[c] == if c !in todo then multipliers[c] - stepSize * x(penalties[c]) else multipliers[c]
      decreases todo
    {
      var pc :| pc in todo;
      r := r[pc := r[pc] - stepSize * x(penalties[pc])];
      todo := todo - {pc};
    }
    ghost var target := SubgradientStep(multipliers, stepSize, penalties, x);
    assert r.Keys == target.Keys;
    assert forall c :: c in r ==> r[c] == target[c];
  }

  /** With a positive step, a multiplier rises exactly when its penalty is
      negative and falls exactly when it is positive; nothing keeps it
      non-negative. */
  lemma SubgradientStepDirection(multipliers: map<Key, real>, stepSize: real,
                                 penalties: map<Key, VarId>, x: Valuation, c: Key)
    requires penalties.Keys <= multipliers.Keys && c in penalties && stepSize > 0.0
    ensures var r := SubgradientStep(multipliers, stepSize, penalties, x);
      && r.Keys == penalties.Keys
      && (r[c] < multipliers[c] <==> x(penalties[c]) > 0.0)
      && (r[c] > multipliers[c] <==> x(penalties[c]) < 0.0)
      && (multipliers[c] >= 0.0 && x(penalties[c]) > multipliers[c] / stepSize ==> r[c] < 0.0)
  {
    var pen := x(penalties[c]);
    if pen > 0.0 {
      assert stepSize * pen > 0.0;
    } else if pen < 0.0 {
      assert stepSize * pen < 0.0;
    }
    if x(penalties[c]) > multipliers[c] / stepSize {
      assert stepSize * pen > stepSize * (multipliers[c] / stepSize);
    }
  }

  /** Step size and denominator of the harmonic schedule. */
  datatype Schedule = Schedule(stepSize: real, denominator: real)

  /** The number of step-size updates in rounds 0 .. n-1 when they happen in
      the rounds divisible by k: after round i there have been i/k + 1. */
  function UpdatesIn(n: nat, k: int): nat
    requires k > 0
  {
    if n == 0 then 0 else (n - 1) / k + 1
  }

  /** UpdatesIn counts the update rounds: round n adds one exactly when n is
      divisible by k. */
  lemma UpdatesInStep(n: nat, k: int)
    requires k > 0
    ensures UpdatesIn(n + 1, k) == UpdatesIn(n, k) + (if n % k == 0 then 1 else 0)
  {
    if n == 0 {
      assert 0 / k == 0 && 0 % k == 0;
    } else {
      var q, r := (n - 1) / k, (n - 1) % k;
      assert n == q * k + (r + 1);
      if r + 1 == k {
        DivOf(n, k, q + 1, 0);
      } else {
        DivOf(n, k, q, r + 1);
      }
    }
  }

  /** d·k >= k for d >= 1 and k > 0. */
  lemma {:induction false} MulAtLeast(d: int, k: int)
    requires d >= 1 && k > 0
    ensures d * k >= k
  {
    if d > 1 {
      MulAtLeast(d - 1, k);
      assert d * k == (d - 1) * k + k;
    }
  }

  /** Euclidean division is determined by quotient and remainder. */
  lemma DivOf(a: int, k: int, q: int, r: int)
    requires k > 0 && 0 <= r < k && a == q * k + r
    ensures a / k == q
  {
    var q', r' := a / k, a % k;
    assert a == q' * k + r' && 0 <= r' < k;
    if q' < q {
      assert q * k == q' * k + (q - q') * k;
      MulAtLeast(q - q', k);
    } else if q' > q {
      assert q' * k == q * k + (q' - q) * k;
      MulAtLeast(q' - q, k);
    }
  }

  /** The schedule step of round i: every k-th round (round 0 included) the
      step becomes 1/denominator and the denominator grows by one. */
  function Reschedule(s: Schedule, i: nat, k: int): Schedule
    requires k > 0 && s.denominator != 0.0
  {
    if i % k == 0 then Schedule(1.0 / s.denominator, s.denominator + 1.0) else s
  }

  /** The schedule after n >= 1 rounds, in closed form. */
  function ScheduleAfter(start: real, k: int, n: nat): Schedule
    requires start > 0.0 && k > 0 && n >= 1
  {
    Schedule(1.0 / (start + ((n - 1) / k) as real), start + UpdatesIn(n, k) as real)
  }

  /** Rescheduling round i of a run that started at denominator `start` gives
      the closed form after i + 1 rounds; the first round always sets the step
      to 1/start, whatever the step was before. */
  lemma RescheduleClosedForm(start: real, k: int, i: nat, s: Schedule)
    requires start > 0.0 && k > 0
    requires if i == 0 then s.denominator == start else s == ScheduleAfter(start, k, i)
    ensures Reschedule(s, i, k) == ScheduleAfter(start, k, i + 1)
    ensures i == 0 ==> Reschedule(s, i, k).stepSize == 1.0 / start
  {
    UpdatesInStep(i, k);
    if i > 0 && i % k == 0 {
      assert UpdatesIn(i, k) == (i - 1) / k + 1 == i / k;
    }
  }
}
