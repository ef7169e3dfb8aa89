/** LRModel of gurobitools: a solver model that dualizes constraints and runs
    the subgradient loop until the relaxed solution is primal feasible and
    complementary slack, or until max_iterations rounds have run.

    The loop is specified by the functions Round and RunFrom over LoopState;
    the method LROptimize is proved to leave the model in the state RunFrom
    computes, and the lemmas below say what that state is. */
module GurobiToolsLR {
  import opened Solver
  import opened Relaxation

  /** What a run of the loop depends on and does not change. */
  datatype Session = Session(
    maxIterations: int,
    updateIterations: int,
    epsilon: real,
    startDenominator: real,
    base: LinExpr,
    penalties: map<Key, VarId>,
    dualized: map<Key, TempConstr>,
    solve: Objective -> Valuation)

  predicate SessionOk(sess: Session) {
    && sess.updateIterations > 0
    && sess.startDenominator > 0.0
    && sess.penalties.Keys <= sess.dualized.Keys
  }

  /** The state the loop changes: the multipliers, the step-size schedule,
      the iteration counter, the solver's objective and values, and whether
      the stopping test has passed. */
  datatype LoopState = LoopState(
    multipliers: map<Key, real>,
    schedule: Schedule,
    iteration: int,
    objective: Objective,
    values: Valuation,
    converged: bool)

  predicate StateOk(sess: Session, s: LoopState) {
    s.multipliers.Keys == sess.penalties.Keys && s.schedule.denominator > 0.0
  }

  /** The stopping test: primal feasible and complementary slack. */
  predicate Converges(sess: Session, multipliers: map<Key, real>, x: Valuation)
    requires SessionOk(sess) && sess.penalties.Keys <= multipliers.Keys
  {
    && PrimalFeasibleSpec(sess.penalties.Keys, sess.dualized, x, sess.epsilon)
    && ComplementarySlacknessSpec(sess.penalties, multipliers, x, sess.epsilon)
  }

  /** Round i (0-based) of the loop. */
  function Round(sess: Session, s: LoopState, i: nat): (r: LoopState)
    requires SessionOk(sess) && StateOk(sess, s)
    ensures StateOk(sess, r)
  {
    var objective := Lagrangian(sess.base, s.multipliers, sess.penalties);
    var x := sess.solve(objective);
    var schedule := Reschedule(s.schedule, i, sess.updateIterations);
    var stop := Converges(sess, s.multipliers, x);
    var multipliers :=
      if stop then s.multipliers
      else SubgradientStep(s.multipliers, schedule.stepSize, sess.penalties, x);
    LoopState(multipliers, schedule, i + 1, objective, x, stop)
  }

  /** The rounds i, i+1, ... below bound, stopping after the first round
      whose test passes. */
  function RunFrom(sess: Session, s: LoopState, i: nat, bound: int): (r: LoopState)
    requires SessionOk(sess) && StateOk(sess, s)
    ensures StateOk(sess, r)
    decreases bound - i
  {
    if i >= bound || s.converged then s
    else RunFrom(sess, Round(sess, s, i), i + 1, bound)
  }

  function Run(sess: Session, s: LoopState): (r: LoopState)
    requires SessionOk(sess) && StateOk(sess, s)
    ensures StateOk(sess, r)
  {
    RunFrom(sess, s, 0, sess.maxIterations)
  }

  /** The schedule of a state reached after i rounds of a run. */
  predicate AtRound(sess: Session, s: LoopState, i: nat)
    requires SessionOk(sess)
  {
    if i == 0 then s.schedule.denominator == sess.startDenominator
    else s.iteration == i && s.schedule == ScheduleAfter(sess.startDenominator, sess.updateIterations, i)
  }

  /** What the last round of a run left behind: the solver was given the
      Lagrangian objective of the multipliers it started the round with; the
      converged flag is exactly the stopping test on those multipliers and the
      new values; if the test passed the multipliers were kept, otherwise they
      took one subgradient step with the round's step size. */
  ghost predicate LastRound(sess: Session, r: LoopState)
    requires SessionOk(sess)
  {
    && r.objective.Lagrangian?
    && r.objective.base == sess.base
    && r.objective.penalties == sess.penalties
    && r.objective.multipliers.Keys == sess.penalties.Keys
    && r.values == sess.solve(r.objective)
    && r.converged == Converges(sess, r.objective.multipliers, r.values)
    && r.multipliers ==
         if r.converged then r.objective.multipliers
         else SubgradientStep(r.objective.multipliers, r.schedule.stepSize, sess.penalties, r.values)
  }

  /** A run from round i either does nothing (no rounds left) or runs at least
      one round and at most up to bound; it ends because the test passed or
      because bound was reached; its step size and denominator are the closed
      form of the harmonic schedule after the last round
      (1/(start + (n-1)/k) and start + (n-1)/k + 1 after n rounds). */
  lemma {:induction false} RunFromOutcome(sess: Session, s: LoopState, i: nat, bound: int)
    requires SessionOk(sess) && StateOk(sess, s) && !s.converged && AtRound(sess, s, i)
    ensures var r := RunFrom(sess, s, i, bound);
      if bound <= i then r == s
      else
        && i < r.iteration <= bound
        && AtRound(sess, r, r.iteration)
        && (r.converged || r.iteration == bound)
        && LastRound(sess, r)
    decreases bound - i
  {
    if i < bound {
      var s' := Round(sess, s, i);
      assert RunFrom(sess, s, i, bound) == RunFrom(sess, s', i + 1, bound);
      RoundOutcome(sess, s, i);
      if !s'.converged {
        RunFromOutcome(sess, s', i + 1, bound);
      } else {
        assert RunFrom(sess, s', i + 1, bound) == s';
      }
    }
  }

  /** One round is a last round in the sense of LastRound and moves the
      schedule on to its closed form after i + 1 rounds. */
  lemma RoundOutcome(sess: Session, s: LoopState, i: nat)
    requires SessionOk(sess) && StateOk(sess, s) && AtRound(sess, s, i)
    ensures var r := Round(sess, s, i);
      r.iteration == i + 1 && AtRound(sess, r, i + 1) && LastRound(sess, r)
  {
    RescheduleClosedForm(sess.startDenominator, sess.updateIterations, i, s.schedule);
  }

  /** Running to bound is running to n and then on from there. */
  lemma {:induction false} RunFromSplit(sess: Session, s: LoopState, i: nat, n: nat, bound: int)
    requires SessionOk(sess) && StateOk(sess, s) && i <= n <= bound
    ensures RunFrom(sess, s, i, bound) == RunFrom(sess, RunFrom(sess, s, i, n), n, bound)
    decreases n - i
  {
    if i < n && !s.converged {
      RunFromSplit(sess, Round(sess, s, i), i + 1, n, bound);
    }
  }

  /** The loop stops at the first round whose test passes: if the first n
      rounds reach a passing test the run is exactly those rounds, and if the
      run goes on past round n, no test among the first n rounds passed. */
  lemma StopsAtFirstConvergence(sess: Session, s: LoopState, n: nat)
    requires SessionOk(sess) && StateOk(sess, s) && !s.converged && AtRound(sess, s, 0)
    requires 1 <= n <= sess.maxIterations
    ensures var prefix, r := RunFrom(sess, s, 0, n), Run(sess, s);
      && (prefix.converged ==> r == prefix)
      && (r.iteration > n ==> !prefix.converged)
  {
    RunFromSplit(sess, s, 0, n, sess.maxIterations);
    RunFromOutcome(sess, s, 0, n);
  }

  /** The first round of a session uses step size 1/start_denominator, and
      when its test fails every multiplier moves from the default by
      -(1/start_denominator)·penalty. */
  lemma FirstRound(sess: Session, s: LoopState, defaultMultiplier: real)
    requires SessionOk(sess) && StateOk(sess, s) && AtRound(sess, s, 0)
    requires forall c :: c in s.multipliers ==> s.multipliers[c] == defaultMultiplier
    ensures var r := Round(sess, s, 0);
      && r.iteration == 1
      && r.schedule.stepSize == 1.0 / sess.startDenominator
      && r.schedule.denominator == sess.startDenominator + 1.0
      && (!r.converged ==> forall c :: c in sess.penalties ==>
            r.multipliers[c] == defaultMultiplier - (1.0 / sess.startDenominator) * r.values(sess.penalties[c]))
  {
    RescheduleClosedForm(sess.startDenominator, sess.updateIterations, 0, s.schedule);
  }

  /** The configuration fields a caller may set before LROptimize. */
  datatype Settings = Settings(
    maxIterations: int,
    updateIterations: int,
    epsilon: real,
    defaultMultiplier: real,
    startDenominator: real)

  class LRModel {
    /** The solver model this object extends. */
    const solver: SolverModel

    /** Handle of each linking constraint to the template it dualizes. */
    var dualizedConstraints: map<Key, TempConstr>
    /** Handle of each linking constraint to its penalty variable. */
    var penalties: map<Key, VarId>
    var multipliers: map<Key, real>

    var maxIterations: int
    var updateIterations: int
    var epsilon: real

    var iteration: int
    var denominator: real
    var stepSize: real

    var defaultMultiplier: real
    var startDenominator: real

    /** The base objective; absent until SetObjective has been called. */
    var defaultObjective: Option<LinExpr>

    ghost predicate Valid()
      reads this, solver
    {
      Registered(penalties, dualizedConstraints, solver.vars, solver.constrs)
    }

    ghost function GetSettings(): Settings
      reads this
    {
      Settings(maxIterations, updateIterations, epsilon, defaultMultiplier, startDenominator)
    }

    ghost function SessionFor(solve: Objective -> Valuation): Session
      reads this
      requires defaultObjective.Some?
    {
      Session(maxIterations, updateIterations, epsilon, startDenominator,
              defaultObjective.value, penalties, dualizedConstraints, solve)
    }

    /** The loop state right after LROptimize has set its start values. */
    ghost function StartState(): LoopState
      reads this, solver
    {
      LoopState(map c | c in penalties :: defaultMultiplier,
                Schedule(stepSize, startDenominator),
                iteration, solver.objective, solver.values, false)
    }

    ghost function Current(converged: bool): LoopState
      reads this, solver
    {
      LoopState(multipliers, Schedule(stepSize, denominator), iteration,
                solver.objective, solver.values, converged)
    }

    constructor ()
      ensures Valid() && fresh(solver)
      ensures solver.vars == [] && solver.constrs == []
      ensures dualizedConstraints == map[] && penalties == map[] && multipliers == map[]
      ensures GetSettings() == Settings(1000, 10, 0.00001, 2.0, 1.0)
      ensures iteration == 0 && denominator == 0.0 && stepSize == 0.0
      ensures defaultObjective == None
    {
      solver := new SolverModel();
      dualizedConstraints, penalties, multipliers := map[], map[], map[];
      maxIterations, updateIterations, epsilon := 1000, 10, 0.00001;
      iteration, denominator, stepSize := 0, 0.0, 0.0;
      defaultMultiplier, startDenominator := 2.0, 1.0;
      defaultObjective := None;
    }

    /** Dualizes t: adds a penalty variable bounded by t's sense and the
        constraint penalty == rhs - lhs, and records both under the handle of
        that constraint, which is returned. */
    method AddLRConstr(t: TempConstr) returns (c: Key)
      requires Valid()
      modifies this, solver
      ensures Valid()
      ensures c == |old(solver.constrs)| && c !in old(penalties)
      ensures penalties == old(penalties)[c := |old(solver.vars)|]
      ensures dualizedConstraints == old(dualizedConstraints)[c := t]
      ensures solver.vars == old(solver.vars) + [PenaltyBounds(t.sense)]
      ensures solver.constrs == old(solver.constrs) + [LinkConstraint(penalties[c], t)]
      ensures multipliers == old(multipliers) && GetSettings() == old(GetSettings())
      ensures iteration == old(iteration) && denominator == old(denominator) && stepSize == old(stepSize)
      ensures defaultObjective == old(defaultObjective)
      ensures solver.objective == old(solver.objective) && solver.values == old(solver.values)
    {
      RegisteredExtend(penalties, dualizedConstraints, solver.vars, solver.constrs, t);
      var p := solver.AddVar(PenaltyBounds(t.sense));
      c := solver.AddConstr(LinkConstraint(p, t));
      penalties := penalties[c := p];
      dualizedConstraints := dualizedConstraints[c := t];
    }

    /** Sets the solver's objective and remembers it as the base objective. */
    method SetObjective(expr: LinExpr)
      modifies this, solver
      ensures defaultObjective == Some(expr) && solver.objective == Plain(expr)
      ensures solver.vars == old(solver.vars) && solver.constrs == old(solver.constrs)
      ensures solver.values == old(solver.values)
      ensures penalties == old(penalties) && dualizedConstraints == old(dualizedConstraints)
      ensures multipliers == old(multipliers) && GetSettings() == old(GetSettings())
      ensures iteration == old(iteration) && denominator == old(denominator) && stepSize == old(stepSize)
    {
      solver.SetObjective(Plain(expr));
      defaultObjective := Some(expr);
    }

    /** Runs the subgradient loop against the solver oracle `solve`, then
        restores the base objective. */
    method LROptimize(solve: Objective -> Valuation)
      requires Valid() && defaultObjective.Some?
      requires updateIterations > 0 && startDenominator > 0.0
      modifies this, solver
      ensures Valid()
      ensures penalties == old(penalties) && dualizedConstraints == old(dualizedConstraints)
      ensures GetSettings() == old(GetSettings()) && defaultObjective == old(defaultObjective)
      ensures solver.vars == old(solver.vars) && solver.constrs == old(solver.constrs)
      ensures var r := Run(old(SessionFor(solve)), old(StartState()));
        && multipliers == r.multipliers
        && stepSize == r.schedule.stepSize && denominator == r.schedule.denominator
        && iteration == r.iteration
        && solver.values == r.values
      ensures defaultObjective.Some? && solver.objective == Plain(defaultObjective.value)
    {
      ghost var sess := SessionFor(solve);
      Start();
      var converged := RunRounds(solve, sess);
      SetObjective(defaultObjective.value);
    }

    /** The start values LROptimize sets before its first round. */
    method Start()
      modifies this`multipliers, this`denominator
      ensures Current(false) == old(StartState())
    {
      multipliers := map c | c in penalties :: defaultMultiplier;
      denominator := startDenominator;
    }

    /** The rounds of the loop, from the state LROptimize has just set up; the
        result says whether the stopping test passed. */
    method RunRounds(solve: Objective -> Valuation, ghost sess: Session) returns (converged: bool)
      requires defaultObjective.Some? && sess == SessionFor(solve)
      requires SessionOk(sess) && StateOk(sess, Current(false))
      modifies this, solver
      ensures penalties == old(penalties) && dualizedConstraints == old(dualizedConstraints)
      ensures GetSettings() == old(GetSettings()) && defaultObjective == old(defaultObjective)
      ensures solver.vars == old(solver.vars) && solver.constrs == old(solver.constrs)
      ensures Current(converged) == Run(sess, old(Current(false)))
    {
      ghost var init := Current(false);
      converged := false;
      var i: nat := 0;
      while i < maxIterations && !converged
        invariant penalties == old(penalties) && dualizedConstraints == old(dualizedConstraints)
        invariant GetSettings() == old(GetSettings()) && defaultObjective == old(defaultObjective)
        invariant solver.vars == old(solver.vars) && solver.constrs == old(solver.constrs)
        invariant sess == SessionFor(solve)
        invariant StateOk(sess, Current(converged))
        invariant RunFrom(sess, Current(converged), i, maxIterations) == Run(sess, init)
        decreases maxIterations - i
      {
        ghost var before := Current(false);
        converged := LRRound(solve, i, sess);
        assert Current(converged) == Round(sess, before, i);
        i := i + 1;
      }
    }

    /** Round i of the loop: solve with the Lagrangian objective, update the
        schedule, test, and take a subgradient step if the test failed. */
    method LRRound(solve: Objective -> Valuation, i: nat, ghost sess: Session) returns (converged: bool)
      requires defaultObjective.Some? && sess == SessionFor(solve)
      requires SessionOk(sess) && StateOk(sess, Current(false))
      modifies this, solver
      ensures penalties == old(penalties) && dualizedConstraints == old(dualizedConstraints)
      ensures GetSettings() == old(GetSettings()) && defaultObjective == old(defaultObjective)
      ensures solver.vars == old(solver.vars) && solver.constrs == old(solver.constrs)
      ensures Current(converged) == Round(sess, old(Current(false)), i)
    {
      ghost var r := Round(sess, Current(false), i);
      iteration := i + 1;
      var objective := Lagrangian(defaultObjective.value, multipliers, penalties);
      assert objective == r.objective;
      solver.SetObjective(objective);
      solver.Optimize(solve);
      assert solver.values == r.values;
      if i % updateIterations == 0 {
        stepSize := 1.0 / denominator;
        denominator := denominator + 1.0;
      }
      assert Schedule(stepSize, denominator) == r.schedule;
      converged := StoppingTest(sess);
      assert converged == r.converged;
      if !converged {
        multipliers := StepMultipliers(multipliers, stepSize, penalties, solver.values);
      }
      assert multipliers == r.multipliers;
    }

    /** The stopping test of a round: primal feasibility, and complementary
        slackness only when that holds. */
    method StoppingTest(ghost sess: Session) returns (converged: bool)
      requires defaultObjective.Some? && sess == SessionFor(sess.solve) && SessionOk(sess)
      requires penalties.Keys == multipliers.Keys
      ensures converged <==> Converges(sess, multipliers, solver.values)
    {
      var feasible := PrimalFeasible();
      converged := false;
      if feasible {
        converged := ComplementarySlackness();
      }
    }

    /** Does the current solution satisfy every dualized constraint within epsilon? */
    method PrimalFeasible() returns (feasible: bool)
      requires penalties.Keys <= dualizedConstraints.Keys
      ensures feasible <==> PrimalFeasibleSpec(penalties.Keys, dualizedConstraints, solver.values, epsilon)
    {
      var todo := penalties.Keys;
      while todo != {}
        invariant todo <= penalties.Keys
        invariant forall c :: c in penalties && c !in todo ==> SenseHolds(dualizedConstraints[c], solver.values, epsilon)
        decreases todo
      {
        var pc :| pc in todo;
        var t := dualizedConstraints[pc];
        var lhsVal := SideValue(t.lhs, solver.values);
        var rhsVal := SideValue(t.rhs, solver.values);
        if t.sense == '<' && lhsVal > rhsVal + epsilon {
          return false;
        } else if t.sense == '>' && lhsVal < rhsVal - epsilon {
          return false;
        } else if t.sense == '=' {
          if lhsVal < rhsVal - epsilon || lhsVal > rhsVal + epsilon {
            return false;
          }
        }
        todo := todo - {pc};
      }
      return true;
    }

    /** Is, for every dualized constraint, its multiplier or its penalty's
        value within epsilon of zero? */
    method ComplementarySlackness() returns (slack: bool)
      requires penalties.Keys <= multipliers.Keys
      ensures slack <==> ComplementarySlacknessSpec(penalties, multipliers, solver.values, epsilon)
    {
      var todo := penalties.Keys;
      while todo != {}
        invariant todo <= penalties.Keys
        invariant forall c :: c in penalties && c !in todo ==>
          Abs(multipliers[c]) <= epsilon || Abs(solver.values(penalties[c])) <= epsilon
        decreases todo
      {
        var pc :| pc in todo;
        if Abs(multipliers[pc]) > epsilon && Abs(solver.values(penalties[pc])) > epsilon {
          return false;
        }
        todo := todo - {pc};
      }
      return true;
    }
  }
}
