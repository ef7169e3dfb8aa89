/** LRModel of or782, the older variant: a solver model that dualizes
    constraints and whose optimize is a generator. Each round solves with the
    Lagrangian objective, updates the schedule, always takes a subgradient
    step and yields the model; there is no stopping test, so a consumer that
    drains the generator sees exactly max_iterations rounds.

    The rounds are specified by the functions Round and Trace over YieldState;
    the method Optimize drains the generator and returns the sequence of
    states it yielded, proved equal to Trace. */
module Or782LR {
  import opened Solver
  import opened Relaxation

  /** What a run of the generator depends on and does not change. */
  datatype Session = Session(
    maxIterations: int,
    updateIterations: int,
    startDenominator: real,
    base: LinExpr,
    penalties: map<Key, VarId>,
    solve: Objective -> Valuation)

  predicate SessionOk(sess: Session) {
    sess.updateIterations > 0 && sess.startDenominator > 0.0
  }

  /** The model as a yield shows it: multipliers, schedule, iteration counter,
      the solver's objective and values. */
  datatype YieldState = YieldState(
    multipliers: map<Key, real>,
    schedule: Schedule,
    iteration: int,
    objective: Objective,
    values: Valuation)

  predicate StateOk(sess: Session, s: YieldState) {
    s.multipliers.Keys == sess.penalties.Keys && s.schedule.denominator > 0.0
  }

  /** Round i (0-based) of the generator, up to its yield. */
  function Round(sess: Session, s: YieldState, i: nat): (r: YieldState)
    requires SessionOk(sess) && StateOk(sess, s)
    ensures StateOk(sess, r)
  {
    var objective := Lagrangian(sess.base, s.multipliers, sess.penalties);
    var x := sess.solve(objective);
    var schedule := Reschedule(s.schedule, i, sess.updateIterations);
    YieldState(SubgradientStep(s.multipliers, schedule.stepSize, sess.penalties, x),
               schedule, i + 1, objective, x)
  }

  /** The states yielded by rounds i .. bound-1: one per round. */
  function Trace(sess: Session, s: YieldState, i: nat, bound: int): (t: seq<YieldState>)
    requires SessionOk(sess) && StateOk(sess, s)
    ensures |t| == if bound <= i then 0 else bound - i
    ensures forall k :: 0 <= k < |t| ==> StateOk(sess, t[k])
    decreases bound - i
  {
    if i >= bound then []
    else var s' := Round(sess, s, i); [s'] + Trace(sess, s', i + 1, bound)
  }

  /** The state after a trace: its last yield, or the start if it is empty. */
  function Last(s: YieldState, t: seq<YieldState>): YieldState {
    if t == [] then s else t[|t| - 1]
  }

  /** The schedule of a state reached after i rounds. */
  predicate AtRound(sess: Session, s: YieldState, i: nat)
    requires SessionOk(sess)
  {
    if i == 0 then s.schedule.denominator == sess.startDenominator
    else s.schedule == ScheduleAfter(sess.startDenominator, sess.updateIterations, i)
  }

  /** y is what round n - 1 yields from the state prev: its iteration is n,
      its schedule is the closed form after n rounds, the solver was given the
      Lagrangian objective of prev's multipliers, and the multipliers then took
      one subgradient step, unconditionally. */
  ghost predicate YieldOf(sess: Session, prev: YieldState, y: YieldState, n: nat)
    requires SessionOk(sess)
  {
    && n >= 1
    && y.iteration == n
    && y.schedule == ScheduleAfter(sess.startDenominator, sess.updateIterations, n)
    && y.objective == Lagrangian(sess.base, prev.multipliers, sess.penalties)
    && y.values == sess.solve(y.objective)
    && prev.multipliers.Keys == sess.penalties.Keys
    && y.multipliers == SubgradientStep(prev.multipliers, y.schedule.stepSize, sess.penalties, y.values)
  }

  /** The generator yields once per round below bound (none when bound is not
      above i); the first yield is what round i makes of s, and each later
      yield is what the next round makes of the yield before it. */
  lemma {:induction false} TraceShape(sess: Session, s: YieldState, i: nat, bound: int)
    requires SessionOk(sess) && StateOk(sess, s) && AtRound(sess, s, i)
    ensures |Trace(sess, s, i, bound)| == (if bound <= i then 0 else bound - i)
    ensures i < bound ==> YieldOf(sess, s, Trace(sess, s, i, bound)[0], i + 1)
    ensures forall j, k :: 0 <= j && k == j + 1 && k < |Trace(sess, s, i, bound)| ==>
      YieldOf(sess, Trace(sess, s, i, bound)[j], Trace(sess, s, i, bound)[k], i + k + 1)
    decreases bound - i
  {
    if i < bound {
      var s' := Round(sess, s, i);
      RescheduleClosedForm(sess.startDenominator, sess.updateIterations, i, s.schedule);
      assert YieldOf(sess, s, s', i + 1);
      TraceShape(sess, s', i + 1, bound);
      var t := Trace(sess, s, i, bound);
      var rest := Trace(sess, s', i + 1, bound);
      assert t == [s'] + rest;
      forall j, k | 0 <= j && k == j + 1 && k < |t|
        ensures YieldOf(sess, t[j], t[k], i + k + 1)
      {
        if j == 0 {
          assert t[0] == s' && t[1] == rest[0];
        } else {
          assert YieldOf(sess, rest[j - 1], rest[k - 1], (i + 1) + (k - 1) + 1);
          assert t[j] == rest[j - 1] && t[k] == rest[k - 1];
        }
      }
    }
  }

  /** Taking one round off the front of a trace that follows a prefix. */
  lemma TraceUnfold(sess: Session, s: YieldState, i: nat, bound: int, prefix: seq<YieldState>)
    requires SessionOk(sess) && StateOk(sess, s) && i < bound
    ensures var s' := Round(sess, s, i);
      prefix + [s'] + Trace(sess, s', i + 1, bound) == prefix + Trace(sess, s, i, bound)
  {
    var s' := Round(sess, s, i);
    assert Trace(sess, s, i, bound) == [s'] + Trace(sess, s', i + 1, bound);
  }

  /** start_step_size never reaches a multiplier: round 0 always replaces the
      step size, so two starts that differ only in their step size yield the
      same states. */
  lemma StartStepSizeOverwritten(sess: Session, s1: YieldState, s2: YieldState, bound: int)
    requires SessionOk(sess) && StateOk(sess, s1) && StateOk(sess, s2)
    requires s1.multipliers == s2.multipliers && s1.schedule.denominator == s2.schedule.denominator
    ensures Trace(sess, s1, 0, bound) == Trace(sess, s2, 0, bound)
  {
    if 0 < bound {
      assert Round(sess, s1, 0) == Round(sess, s2, 0);
    }
  }

  /** The configuration fields a caller may set before optimize. */
  datatype Settings = Settings(
    maxIterations: int,
    updateIterations: int,
    epsilon: real,
    defaultMultiplier: real,
    startDenominator: real,
    startStepSize: real)

  class LRModel {
    /** The solver model this object extends. */
    const solver: SolverModel

    /** Handle of each linking constraint to its penalty variable. */
    var penalties: map<Key, VarId>
    var multipliers: map<Key, real>
    /** The templates dualized so far; this variant does not keep them, the
        field exists only to state how penalties and the solver agree. */
    ghost var dualized: map<Key, TempConstr>

    var maxIterations: int
    var updateIterations: int
    var epsilon: real

    var iteration: int
    var denominator: real
    var stepSize: real

    var defaultMultiplier: real
    var startDenominator: real
    var startStepSize: real

    /** The base objective; absent until SetObjective has been called. */
    var defaultObjective: Option<LinExpr>

    ghost predicate Valid()
      reads this, solver
    {
      Registered(penalties, dualized, solver.vars, solver.constrs)
    }

    ghost function GetSettings(): Settings
      reads this
    {
      Settings(maxIterations, updateIterations, epsilon, defaultMultiplier, startDenominator, startStepSize)
    }

    ghost function SessionFor(solve: Objective -> Valuation): Session
      reads this
      requires defaultObjective.Some?
    {
      Session(maxIterations, updateIterations, startDenominator, defaultObjective.value, penalties, solve)
    }

    /** The model right after optimize has set its start values. */
    ghost function StartState(): YieldState
      reads this, solver
    {
      YieldState(map c | c in penalties :: defaultMultiplier,
                 Schedule(startStepSize, startDenominator),
                 iteration, solver.objective, solver.values)
    }

    /** What a consumer of a yield sees of the model. */
    function Snapshot(): YieldState
      reads this, solver
    {
      YieldState(multipliers, Schedule(stepSize, denominator), iteration,
                 solver.objective, solver.values)
    }

    constructor ()
      ensures Valid() && fresh(solver)
      ensures solver.vars == [] && solver.constrs == []
      ensures penalties == map[] && multipliers == map[]
      ensures GetSettings() == Settings(100, 10, 0.00001, 2.0, 1.0, 1.0)
      ensures iteration == 0 && denominator == 0.0 && stepSize == 0.0
      ensures defaultObjective == None
    {
      solver := new SolverModel();
      penalties, multipliers, dualized := map[], map[], map[];
      maxIterations, updateIterations, epsilon := 100, 10, 0.00001;
      iteration, denominator, stepSize := 0, 0.0, 0.0;
      defaultMultiplier, startDenominator, startStepSize := 2.0, 1.0, 1.0;
      defaultObjective := None;
    }

    /** Dualizes t: adds a penalty variable bounded by t's sense and the
        constraint penalty == rhs - lhs, and records the penalty under the
        handle of that constraint, which is returned. */
    method AddLRConstr(t: TempConstr) returns (c: Key)
      requires Valid()
      modifies this, solver
      ensures Valid()
      ensures c == |old(solver.constrs)| && c !in old(penalties)
      ensures penalties == old(penalties)[c := |old(solver.vars)|]
      ensures dualized == old(dualized)[c := t]
      ensures solver.vars == old(solver.vars) + [PenaltyBounds(t.sense)]
      ensures solver.constrs == old(solver.constrs) + [LinkConstraint(penalties[c], t)]
      ensures multipliers == old(multipliers) && GetSettings() == old(GetSettings())
      ensures iteration == old(iteration) && denominator == old(denominator) && stepSize == old(stepSize)
      ensures defaultObjective == old(defaultObjective)
      ensures solver.objective == old(solver.objective) && solver.values == old(solver.values)
    {
      RegisteredExtend(penalties, dualized, solver.vars, solver.constrs, t);
      var p := solver.AddVar(PenaltyBounds(t.sense));
      c := solver.AddConstr(LinkConstraint(p, t));
      penalties := penalties[c := p];
      dualized := dualized[c := t];
    }

    /** Records the base objective; the solver's objective is not touched. */
    method SetObjective(expr: LinExpr)
      modifies this`defaultObjective
      ensures defaultObjective == Some(expr)
    {
      defaultObjective := Some(expr);
    }

    /** Drains the optimize generator against the solver oracle `solve` and
        returns the states it yielded, in order. */
    method Optimize(solve: Objective -> Valuation) returns (yielded: seq<YieldState>)
      requires Valid() && defaultObjective.Some?
      requires updateIterations > 0 && startDenominator > 0.0
      modifies this, solver
      ensures Valid()
      ensures penalties == old(penalties) && dualized == old(dualized)
      ensures GetSettings() == old(GetSettings()) && defaultObjective == old(defaultObjective)
      ensures solver.vars == old(solver.vars) && solver.constrs == old(solver.constrs)
      ensures yielded == Trace(old(SessionFor(solve)), old(StartState()), 0, old(maxIterations))
      ensures Snapshot() == Last(old(StartState()), yielded)
    {
      ghost var sess := SessionFor(solve);
      ghost var init := StartState();
      Start();
      yielded := RunRounds(solve, sess);
      SetObjective(defaultObjective.value);
    }

    /** The start values optimize sets before its first round. */
    method Start()
      modifies this`multipliers, this`denominator, this`stepSize
      ensures Snapshot() == old(StartState())
    {
      multipliers := map c | c in penalties :: defaultMultiplier;
      denominator := startDenominator;
      stepSize := startStepSize;
    }

    /** The rounds of the generator, from the state optimize has just set up. */
    method RunRounds(solve: Objective -> Valuation, ghost sess: Session) returns (yielded: seq<YieldState>)
      requires defaultObjective.Some? && sess == SessionFor(solve)
      requires SessionOk(sess) && StateOk(sess, Snapshot())
      modifies this, solver
      ensures penalties == old(penalties) && dualized == old(dualized)
      ensures GetSettings() == old(GetSettings()) && defaultObjective == old(defaultObjective)
      ensures solver.vars == old(solver.vars) && solver.constrs == old(solver.constrs)
      ensures yielded == Trace(sess, old(Snapshot()), 0, maxIterations)
      ensures Snapshot() == Last(old(Snapshot()), yielded)
    {
      ghost var init := Snapshot();
      yielded := [];
      var i: nat := 0;
      while i < maxIterations
        invariant penalties == old(penalties) && dualized == old(dualized)
        invariant GetSettings() == old(GetSettings()) && defaultObjective == old(defaultObjective)
        invariant solver.vars == old(solver.vars) && solver.constrs == old(solver.constrs)
        invariant sess == SessionFor(solve)
        invariant StateOk(sess, Snapshot())
        invariant Snapshot() == Last(init, yielded)
        invariant yielded + Trace(sess, Snapshot(), i, maxIterations) == Trace(sess, init, 0, maxIterations)
        decreases maxIterations - i
      {
        ghost var before := Snapshot();
        GeneratorRound(solve, i, sess);
        var snapshot := Snapshot();
        TraceUnfold(sess, before, i, maxIterations, yielded);
        yielded := yielded + [snapshot];
        i := i + 1;
      }
    }

    /** Round i of the generator, up to its yield. */
    method GeneratorRound(solve: Objective -> Valuation, i: nat, ghost sess: Session)
      requires defaultObjective.Some? && sess == SessionFor(solve)
      requires SessionOk(sess) && StateOk(sess, Snapshot())
      modifies this, solver
      ensures penalties == old(penalties) && dualized == old(dualized)
      ensures GetSettings() == old(GetSettings()) && defaultObjective == old(defaultObjective)
      ensures solver.vars == old(solver.vars) && solver.constrs == old(solver.constrs)
      ensures Snapshot() == Round(sess, old(Snapshot()), i)
    {
      ghost var r := Round(sess, Snapshot(), i);
      iteration := i + 1;
      var objective := Lagrangian(defaultObjective.value, multipliers, penalties);
      assert objective == r.objective;
      solver.SetObjective(objective);
      solver.Optimize(solve);
      assert solver.values == r.values;
      if i % updateIterations == 0 {
        stepSize := 1.0 / denominator;
        denominator := denominator + 1.0;
      }
      assert Schedule(stepSize, denominator) == r.schedule;
      multipliers := StepMultipliers(multipliers, stepSize, penalties, solver.values);
      assert multipliers == r.multipliers;
    }
  }
}
