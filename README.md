# Lagrangian relaxation on a solver model (gurobitools, or782)

gurobitools extends a Gurobi model with Lagrangian relaxation. The model is
given an `LRModel`, and the caller "dualizes" some of its constraints with
`addLRConstr`. A dualized constraint `lhs <sense> rhs` is not added as a
hard constraint. Instead the model gets:

- a penalty variable `p`, bounded by the sense (`<` gives `p >= 0`, `>` gives
  `p <= 0`, anything else leaves `p` free);
- a linking constraint `p == rhs - lhs`.

The handle of that linking constraint keys every registry: the penalty
variable, the original template and later the multiplier.

`LRoptimize` runs rounds of subgradient optimisation. Each round:

1. solves the model with the objective `base + Σ multiplier·penalty`;
2. every `update_iterations` rounds, sets the step size to `1/denominator`
   and increments the denominator;
3. stops when the solution is primal feasible within `epsilon` and
   complementary slack within `epsilon`;
4. otherwise moves every multiplier by `-step_size · penalty value`.

After the loop, the base objective is restored.

The older `or782` variant has the same dualization. Its `optimize` is a
generator that yields the model after every round. It has no stopping test,
always steps the multipliers, and only records the base objective in
`setObjective`.

The project has four modules:

- `Solver` (solver.dfy): the part of the solver the relaxation layer uses:
  - linear expressions and their values;
  - variable bounds and linear constraints;
  - the active objective;
  - a `SolverModel` class whose `Optimize` asks an oracle `solve` for the
    values of the active objective.
- `Relaxation` (relaxation.dfy): the rules both variants share:
  - penalty bounds and linking constraints;
  - the registry invariant `Registered`;
  - the two stopping tests as predicates;
  - the subgradient step and the harmonic step-size schedule, in closed
    form.
- `GurobiToolsLR` (gurobitools_lr.dfy): the loop as pure functions `Round` /
  `RunFrom` / `Run`, the lemmas about the run, and the class `LRModel`.
  `LROptimize` in that class is proved to leave exactly the state `Run`
  computes.
- `Or782LR` (or782_lr.dfy): the generator as the pure sequence `Trace` of
  the states it yields, and the class `LRModel`. `Optimize` in that class
  drains the generator and is proved to return exactly `Trace`.

Constraint and variable handles are positions in the solver's model, so a
new handle is provably fresh. Numbers are mathematical reals. The solve is a
parameter: a function from the active objective to a valuation.

## Model

| member | source | states |
|---|---|---|
| Relaxation.SideValue | src/gurobitools/lr.py:163-172 | the value of a template side: the expression's value under the valuation, or the number itself when the side is a bare number |
| Relaxation.LinkConstraint | src/gurobitools/lr.py:79-81 | the linking constraint `p == rhs - lhs` of a template, as the solver receives it (its meaning is `LinkMeaning`) |
| Relaxation.SenseHolds | src/gurobitools/lr.py:174-181 | the feasibility test of one template: `lhs <= rhs + eps` for `<`, `lhs >= rhs - eps` for `>`, `rhs - eps <= lhs <= rhs + eps` for `=`, and true for any other sense |
| Relaxation.PrimalFeasibleSpec | src/gurobitools/lr.py:155-183 | every dualized template passes `SenseHolds` (the specification `PrimalFeasible` is proved against) |
| Relaxation.ComplementarySlacknessSpec | src/gurobitools/lr.py:194-199 | for every dualized key, the multiplier or the penalty's value is within eps of 0 (the specification `ComplementarySlackness` is proved against) |
| Relaxation.SubgradientStep | src/gurobitools/lr.py:137-138 | the multipliers after one update: `m[c] - step·x(p[c])` for exactly the dualized keys (the specification `StepMultipliers` is proved against) |
| Relaxation.Reschedule | src/gurobitools/lr.py:124-127 | the schedule step of round i: in rounds divisible by update_iterations the step becomes `1/denominator` and the denominator grows by one, otherwise both stay (closed form in `RescheduleClosedForm`) |
| Relaxation.AsExpr | src/gurobitools/lr.py:164-172 | a template side, numeric or expression, becomes an expression with the same value under every valuation |
| Relaxation.PenaltyBounds | src/gurobitools/lr.py:65-75 | a value lies within the penalty bounds iff it is `>= 0` for sense `<` and `<= 0` for sense `>`; any other sense leaves the penalty unrestricted |
| Relaxation.LinkMeaning | src/gurobitools/lr.py:77-81 | a valuation satisfies the linking constraint iff the penalty equals `rhs - lhs` of the template |
| Relaxation.RegisteredExtend | src/gurobitools/lr.py:57-89 | dualizing one more template under the next free handles keeps the registries consistent with the solver's model, and the new handle was not in use |
| Relaxation.PrimalFeasibleOnSolution | src/gurobitools/lr.py:142-183 | on any valuation that solves a registered model, inequality records always pass the feasibility test, so primal feasibility holds iff every equality record's penalty is within epsilon of 0 |
| Relaxation.StepMultipliers | src/gurobitools/lr.py:136-138 | the per-constraint update loop gives exactly the subgradient step `m[c] - step·x(p[c])` on every dualized key, and no other key |
| Relaxation.SubgradientStepDirection | src/gurobitools/lr.py:136-138 | with a positive step a multiplier falls iff its penalty is positive and rises iff it is negative; a large enough positive penalty drives a non-negative multiplier below 0, since there is no clamping |
| Relaxation.UpdatesInStep | src/gurobitools/lr.py:124-127 | the count of step-size updates grows by one in exactly the rounds divisible by update_iterations |
| Relaxation.RescheduleClosedForm | src/gurobitools/lr.py:124-127 | after n rounds the step size is `1/(start + (n-1) div k)` and the denominator is `start + (n-1) div k + 1`; round 0 always sets the step to `1/start` |
| Solver.EvalMinus | src/gurobitools/lr.py:80 | the value of `rhs - lhs` as an expression is the difference of the values |
| Solver.SolverModel.AddVar | src/gurobitools/lr.py:71-75 | a new variable gets the next handle; nothing else in the model changes |
| Solver.SolverModel.AddConstr | src/gurobitools/lr.py:79-81 | a new constraint gets the next handle; nothing else in the model changes |
| Solver.SolverModel.Optimize | src/gurobitools/lr.py:122 | the values become the oracle's answer for the active objective |
| GurobiToolsLR.Round | src/gurobitools/lr.py:111-138 | one pass of the loop body on a loop state: Lagrangian objective, solve, schedule step, stopping test, then the multipliers kept or stepped; the result keeps multipliers over exactly the dualized keys and a positive denominator (what it does is stated by `RoundOutcome`) |
| GurobiToolsLR.RunFrom | src/gurobitools/lr.py:110-134 | rounds i, i+1, … below bound, stopping after the first round whose test passes; the result keeps multipliers over exactly the dualized keys and a positive denominator (what it does is stated by `RunFromOutcome`, `RunFromSplit` and `StopsAtFirstConvergence`) |
| GurobiToolsLR.Run | src/gurobitools/lr.py:110-134 | the whole loop: `RunFrom` from round 0 to max_iterations; the result keeps multipliers over exactly the dualized keys and a positive denominator |
| GurobiToolsLR.RoundOutcome | src/gurobitools/lr.py:110-138 | one round solves with the Lagrangian objective of the multipliers it started with; its converged flag is exactly both tests on the new values; it keeps the multipliers if they pass and steps them otherwise; the schedule reaches its closed form for round i + 1 |
| GurobiToolsLR.RunFromOutcome | src/gurobitools/lr.py:110-138 | a run with rounds left does at least one and at most bound rounds; it ends because the test passed or because bound was reached; the final state is what its last round produced; the schedule is in closed form |
| GurobiToolsLR.RunFromSplit | src/gurobitools/lr.py:110-134 | running up to bound is running up to n and then on from there |
| GurobiToolsLR.StopsAtFirstConvergence | src/gurobitools/lr.py:132-134 | the loop stops at the first round whose test passes: once a prefix converges the run is that prefix, and a run longer than n had no passing test in its first n rounds |
| GurobiToolsLR.FirstRound | src/gurobitools/lr.py:106-138 | the first round uses step `1/start_denominator` and leaves denominator `start + 1`; if it does not converge each multiplier becomes `default - (1/start)·penalty` |
| GurobiToolsLR.LRModel.constructor | src/gurobitools/lr.py:39-55 | empty registries, max_iterations 1000, update_iterations 10, epsilon 10e-6, iteration/denominator/step 0, default multiplier 2.0, start denominator 1.0 |
| GurobiToolsLR.LRModel.AddLRConstr | src/gurobitools/lr.py:57-89 | adds the bounded penalty variable and the linking constraint; records the penalty and the template under the new, fresh constraint handle, which is returned; keeps the registry invariant; nothing else changes |
| GurobiToolsLR.LRModel.SetObjective | src/gurobitools/lr.py:91-94 | sets the solver's objective to the expression and remembers it as the base objective |
| GurobiToolsLR.LRModel.LROptimize | src/gurobitools/lr.py:96-140 | multipliers, step size, denominator, iteration and solver values end as `Run` of the session from the start values; the solver's objective is the base objective again; registries and settings are unchanged |
| GurobiToolsLR.LRModel.Start | src/gurobitools/lr.py:103-108 | every multiplier starts at the default and the denominator at start_denominator; the step size carries over |
| GurobiToolsLR.LRModel.RunRounds | src/gurobitools/lr.py:110-138 | the loop leaves exactly the state `Run` computes |
| GurobiToolsLR.LRModel.LRRound | src/gurobitools/lr.py:111-138 | one pass of the loop body moves the model to exactly `Round` of its state |
| GurobiToolsLR.LRModel.StoppingTest | src/gurobitools/lr.py:132-134 | the short-circuit test is true iff the solution is primal feasible and complementary slack |
| GurobiToolsLR.LRModel.PrimalFeasible | src/gurobitools/lr.py:142-183 | true iff every dualized template holds within epsilon: `lhs <= rhs + eps`, `lhs >= rhs - eps`, `rhs - eps <= lhs <= rhs + eps`, and other senses always pass |
| GurobiToolsLR.LRModel.ComplementarySlackness | src/gurobitools/lr.py:185-199 | true iff for every dualized constraint the multiplier or the penalty's value is within epsilon of 0 |
| Or782LR.Round | src/or782/lr.py:72-93 | one pass of the generator's loop body up to its yield: Lagrangian objective, solve, schedule step, then an unconditional subgradient step; the result keeps multipliers over exactly the dualized keys and a positive denominator |
| Or782LR.Trace | src/or782/lr.py:71-95 | the states yielded by rounds i .. bound-1: exactly one per round (none when bound is not above i), each a valid state (what each yield is stated by `TraceShape`) |
| Or782LR.TraceShape | src/or782/lr.py:71-95 | the generator yields exactly max(bound - i, 0) states. Each yield has iteration n and the closed-form schedule after n rounds; it solved the Lagrangian objective of the previous state's multipliers and then stepped every multiplier, unconditionally |
| Or782LR.TraceUnfold | src/or782/lr.py:71-95 | the yields of rounds i.. are the yield of round i followed by the yields of rounds i+1.. |
| Or782LR.StartStepSizeOverwritten | src/or782/lr.py:69-88 | start_step_size has no effect on what the generator yields: round 0 always replaces the step size |
| Or782LR.LRModel.constructor | src/or782/lr.py:5-21 | empty registries, max_iterations 100, update_iterations 10, epsilon 10e-6, default multiplier 2.0, start denominator 1.0, start step size 1.0 |
| Or782LR.LRModel.AddLRConstr | src/or782/lr.py:23-51 | adds the bounded penalty variable and the linking constraint; records the penalty under the new, fresh handle, which is returned; keeps the registry invariant; nothing else changes |
| Or782LR.LRModel.SetObjective | src/or782/lr.py:53-58 | only records the base objective; the solver's objective is not touched |
| Or782LR.LRModel.Optimize | src/or782/lr.py:60-97 | draining the generator returns exactly `Trace` of the session from the start values; the model ends as the last yield, or as the start if there was none; registries and settings are unchanged |
| Or782LR.LRModel.Start | src/or782/lr.py:63-69 | multipliers start at the default, and denominator and step size at their start values |
| Or782LR.LRModel.RunRounds | src/or782/lr.py:71-95 | the loop yields exactly `Trace` and ends in the state of its last yield |
| Or782LR.LRModel.GeneratorRound | src/or782/lr.py:72-93 | one pass of the loop body, up to its yield, moves the model to exactly `Round` of its state |

## Left out

- How the solver finds values is not modelled. A solve is an oracle from the active objective to a valuation; infeasible or failed solves are not modelled. `SolvesModel` states what a successful solve satisfies, and `PrimalFeasibleOnSolution` assumes it.
- The Lagrangian objective `base + Σ multiplier·penalty` is kept as a term (`Objective.Lagrangian`), not expanded into a linear expression. The model follows which multipliers and which penalties the solver was given.
- Floating-point rounding is not modelled; all numbers are reals. `epsilon` is 10e-6, that is 0.00001.
- The solver's `update()` calls are not modelled. They only flush pending changes, and the model applies changes at once.
- The proxy model base class (`model.py`) and `copy_model` are not part of this model. The `LRModel` classes hold their solver model as a field.
- `print_status` and the `debug` flag of `LRoptimize` are left out. They only print and do not change state.
- The example program `examples/gap.py` is not part of this model.
- GurobiToolsLR.LRModel.LROptimize: requires `update_iterations > 0` and `start_denominator > 0`, and the or782 Optimize requires the same. In the source, 0 raises ZeroDivisionError and a negative start can divide by zero in a later round. Those error paths are not modelled.
- GurobiToolsLR.LRModel.LROptimize: requires that the base objective was set. In the source, optimizing before any `setObjective` raises AttributeError; the model excludes that path. Or782LR.LRModel.Optimize does the same.
- Or782LR.LRModel.Optimize: models a consumer that drains the generator and reads each yield before resuming it. A consumer that stops early sees a prefix of `Trace`, and the final `setObjective` then never runs; that case is not modelled separately. The generator yields the live model object, not a copy, so a consumer that keeps the yields (for example by collecting them into a list) holds `max_iterations` references to one object, all in its final state; the returned sequence of value snapshots does not capture that aliasing. The generator is also lazy: nothing runs, not even the start values, until the first value is requested, so a call whose result is never iterated changes nothing; the model runs the start values and every round at once.
- GurobiToolsLR.LRModel.ComplementarySlackness: requires a multiplier for every dualized key. In the source `multipliers` is empty from the constructor until the first `LRoptimize`, and `addLRConstr` adds no multiplier, so a call after an `addLRConstr` and before the next `LRoptimize` raises KeyError; that error path is not modelled. Inside `LRoptimize` the requirement always holds.
- Or782LR.LRModel: this variant keeps no templates. The `dualized` field is ghost and exists only to state the registry invariant.
- Reading a penalty's value before any solve raises an error in the solver. The model starts with all values 0.
- Iteration order over the registries is not modelled. The tests and the subgradient update give the same result in every order: the tests are conjunctions, and each update touches its own key.
- Constraint senses other than `<`, `>` and `=` leave the penalty unrestricted, and the feasibility test passes them. The model follows the code here: no unsupported-sense error is raised. There is also no check for an infeasible relaxation and no configuration validation.
