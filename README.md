# Particle swarm optimisation of four unit prices

This project models, in Dafny, the particle swarm optimiser of `PSO.py`. The
optimiser searches for the unit prices of four items that maximise a linear
profit. Only feasible price vectors are scored. A vector is feasible when it
meets two constraints: a total-bid budget, and item 3 not cheaper than item 2.
So the unrounded global best the optimiser returns meets both constraints.
Every movement pass clamps the particles into per-item price bounds, and from
the first movement on every particle lies within them (`IterateInBounds`).
The initial draws are scored before any movement and are never moved into the
bounds, so the returned best may be an initial draw outside them
(`ReturnedBestMayLeaveBounds`).

The model follows the source's structure:

- `Evaluators`: the objective, the two constraint margins and the feasibility
  filter, as functions.
- `Swarm`: the `Particle` class, whose `position`, `velocity` and `fitness`
  fields the driver overwrites in place, and its value view `ParticleState`.
- `SwarmUpdate`: the velocity formula, as a function. Also `update_position`,
  as a method that overwrites a fresh array index by index: `min` against the
  upper bound first, then `max` against the lower bound. It is proved equal to
  the clamp specification `Stepped`.
- `Tracking`: the best-tracking reducer of the evaluation pass. Per particle it
  applies the feasibility filter, assigns the fitness, promotes the particle to
  local best, and then immediately promotes the local best to global best.
  Properties of a whole pass are proved by induction over the swarm.
- `Optimizer`: the driver as a function of its inputs. `Round` is one
  iteration, `Iterate` is k rounds and `Run` is the whole call. Each round is
  the evaluation pass, one history entry, and a movement pass in which the
  position step uses the velocity just computed.
- `Driver`: the driver as the source runs it, as methods over the particle
  objects and the reassigned tracker variables. `Driver.Pso` is proved to
  return exactly `Optimizer.Run`.
- `Properties`: what a whole run promises.

The sentinel `float('-inf')` becomes `Option`: `None` means "not set yet". The
source reads a best position that was never bound when no particle has been
feasible before the first movement pass. The model makes that case an explicit
result, `NoFeasibleSolution`.

Randomness is an input, not modelled:

- each particle's initial position and velocity are an `InitialDraw`;
- each velocity update's two vectors `r1` and `r2` are a `Draw`;
- `Pso` takes one `Draw` per particle per iteration.

Reals stand for the source's floats.

The source keeps only one "local best" variable for the whole swarm, so the
local and global best always hold the same value. The model keeps both
variables, as the source does, and proves them equal (`Tracking.PassPreserves`,
`Properties.RoundPullsTowardOneBest`).

## Model

| member | source | states |
|---|---|---|
| Evaluators.Objective | PSO.py:12-14 | the profit `19606 x0 + 67897 x1 + 22632 x2 + 17749 x3` of a price vector |
| Evaluators.TotalBidMargin | PSO.py:16-18 | the budget 262500 minus the total bid `20000 x0 + 75000 x1 + 25000 x2 + 20000 x3` |
| Evaluators.BalanceMargin | PSO.py:20-22 | how far item 3's price lies above item 2's |
| Evaluators.Margin | PSO.py:50 | the value `constraint(x)` of one constraint of the list |
| Evaluators.Feasible | PSO.py:50 | a position passes the filter exactly when every constraint's margin is `>= 0`, so a margin of zero is feasible |
| Evaluators.ReferenceFeasible | PSO.py:16-22 | with the run's two constraints, feasibility is exactly "total bid at most 262500 and `x[1] <= x[2]`", both bounds inclusive |
| Evaluators.ObjectiveMonotone | PSO.py:12-18 | raising prices never lowers the profit and never raises the remaining budget margin; a strict raise changes both strictly |
| Evaluators.ProfitBoundedByBudget | PSO.py:12-18 | a non-negative price vector within the budget earns at most 257328.75 |
| SwarmUpdate.UpdateVelocity | PSO.py:24-29 | the new velocity has one entry per dimension; its pointwise properties are `VelocityInertiaOnly`, `VelocityAtBest` and `VelocityPullsTowardBest` |
| SwarmUpdate.Clamp | PSO.py:35-36 | `min` against the upper bound and then `max` against the lower bound is the two-sided clamp for well-formed bounds; for crossed bounds the lower bound wins |
| SwarmUpdate.Stepped | PSO.py:33-37 | the stepped position has the same length, lies within every well-formed bound, and equals `position + velocity` in every dimension where that sum is already within bounds |
| SwarmUpdate.UpdatePosition | PSO.py:31-37 | the in-place loop over a fresh array returns exactly the clamp specification `Stepped` of the particle's position and velocity |
| SwarmUpdate.VelocityInertiaOnly | PSO.py:24-29 | with `c1 = c2 = 0` the new velocity is the old velocity |
| SwarmUpdate.VelocityAtBest | PSO.py:24-29 | a particle sitting on both best positions keeps its velocity for any coefficients and draws |
| SwarmUpdate.VelocityPullsTowardBest | PSO.py:26-28 | with non-negative coefficients and draws in [0, 1), the velocity change points toward the best positions when both lie on one side, and is bounded by the full pulls |
| SwarmUpdate.ZeroVelocityKeepsPosition | PSO.py:33-36 | zero velocity leaves an in-bounds position unchanged |
| SwarmUpdate.SteppedInBounds | PSO.py:33-37 | for well-formed bounds the stepped position lies within them |
| Tracking.Evaluated | PSO.py:50-51 | a feasible particle gets the objective of its position as fitness; an infeasible particle is left exactly as it was; position and velocity never change |
| Tracking.EvaluatedSwarm | PSO.py:49-51 | the particles after the pass's fitness assignments keep their number and shape; the specification of `Driver.EvaluationPass` |
| Tracking.Promote | PSO.py:50-57 | one particle's step of the reducer keeps set trackers DIM-vectors; its behaviour is stated by `PromoteInfeasible`, `PromoteMonotone`, `PromoteFeasible` and `PromoteSound` |
| Tracking.PromoteInfeasible | PSO.py:50-57 | a particle is infeasible exactly when some margin is negative, and then it changes neither the trackers nor its own fitness |
| Tracking.PromoteMonotone | PSO.py:52-57 | one particle's step never lowers or unsets the local or the global best |
| Tracking.PromoteFeasible | PSO.py:50-57 | after a feasible particle both trackers are set; local best is at least the particle's fitness (and takes its position exactly when strictly higher) and global best at least the local best; equal trackers stay equal |
| Tracking.PromoteSound | PSO.py:50-57 | set trackers keep naming feasible DIM-vectors whose objective is exactly the tracked fitness |
| Tracking.PassTrackers | PSO.py:49-57 | the trackers after a pass keep holding DIM-vectors |
| Tracking.PassPreserves | PSO.py:49-57 | over a pass neither tracker gets worse, equal trackers stay equal (global best equals local best after every particle), and sound trackers stay sound |
| Tracking.PassIsMaximum | PSO.py:49-57 | after a pass the global best is at least the local best, which is at least the objective of every feasible particle of the pass; the global best is set exactly when it was set before or some particle was feasible |
| Optimizer.Moved | PSO.py:61-63 | a particle's movement keeps its fitness and the dimension of its position and velocity |
| Optimizer.InitialSwarm | PSO.py:42 | one particle per initial draw, each with a DIM-position and a DIM-velocity; the specification of `Driver.CreateSwarm` |
| Optimizer.MovedSwarm | PSO.py:61-63 | the moved swarm keeps its size and every particle's dimensions; the specification of `Driver.MovementPass` |
| Optimizer.Round | PSO.py:48-63 | a successful round keeps the swarm's size and shape, sets the global best and adds one history entry |
| Optimizer.Iterate | PSO.py:42-63 | after k rounds the swarm still has `num_particles` DIM-particles and the history has exactly k entries; after one round the global best is set |
| Optimizer.FailureSticks | PSO.py:48-62 | once a round fails, every later state is a failure |
| Optimizer.RoundRecords | PSO.py:49-59 | a round succeeds exactly when the pass leaves both trackers set; its trackers are the pass's trackers, its history is the old history plus the global best fitness, and neither tracker gets worse |
| Optimizer.RoundInBounds | PSO.py:61-63 | after a successful round every particle lies within well-formed bounds |
| Optimizer.RoundKeepsConsistent | PSO.py:49-59 | a round keeps the history non-decreasing and ending with the global best, and the trackers equal and sound |
| Optimizer.ConsistentStep | PSO.py:48-59 | consistency carries from the state after k - 1 rounds to the state after k |
| Optimizer.Run | PSO.py:39-65 | a found result holds a DIM-vector and `max_iterations` history entries; its properties are stated by `RunFound`, `RunFailsIff` and `FoundIsBestVisited` |
| Optimizer.IterateInvariant | PSO.py:48-59 | every state reached is consistent: history non-decreasing and ending with the global best, trackers equal and naming feasible positions with their exact objective |
| Optimizer.IterateInBounds | PSO.py:61-63 | after at least one round, every particle lies within well-formed bounds |
| Swarm.Particle.constructor | PSO.py:6-10 | a new particle holds the drawn position and velocity and an unset fitness |
| Driver.EvaluationPass | PSO.py:49-57 | the per-particle loop leaves the tracker variables equal to `PassTrackers` and every particle object in its evaluated state |
| Driver.MoveParticle | PSO.py:62-63 | the velocity field is overwritten first and the position step reads the new velocity |
| Driver.MovementPass | PSO.py:61-63 | every particle object, feasible or not, ends in its moved state; the number of particles is unchanged |
| Driver.RunRound | PSO.py:49-63 | one iteration of the driver succeeds exactly when `Round` does and then produces its state |
| Driver.CreateSwarm | PSO.py:42 | `num_particles` fresh, distinct particle objects holding the initial draws |
| Driver.Iterations | PSO.py:48-63 | the driver loop succeeds exactly when `Iterate` does, leaving its trackers and history |
| Driver.Pso | PSO.py:39-65 | the driver returns exactly `Run` of its inputs |
| Properties.RunFound | PSO.py:48-65 | a found result has `max_iterations` history entries, non-decreasing and ending with the returned fitness; its position, the unrounded global best, is a feasible DIM-vector whose objective is exactly that fitness |
| Properties.SourceRunMeetsConstraints | PSO.py:69-75 | with the source's configuration the unrounded global best that `Run` returns is within budget and has `x[1] <= x[2]` |
| Properties.SourceFeasibleProfit | PSO.py:12-18 | with the source's bounds and constraints, a feasible in-bounds position earns between 105251.5, the profit at the lower bounds, and 257328.75 |
| Properties.SourceVisitedProfit | PSO.py:33-37 | with the source's configuration, every feasible position a particle holds after the first round earns between 105251.5 and 257328.75 |
| Properties.SourceRunBeatsLowerBounds | PSO.py:49-65 | with the source's configuration, a found fitness is at least 105251.5 once some particle held a feasible position after the first round and before the last round ended |
| Properties.SetStep | PSO.py:48-57 | a round after a successful round succeeds too |
| Properties.SetStaysSet | PSO.py:48-57 | once the global best is set, no later round fails |
| Properties.RunFailsIff | PSO.py:43-65 | the run fails exactly when there are no iterations or no initial particle is feasible |
| Properties.HistoryEntry | PSO.py:48-59 | history entry k is the global best fitness at the end of iteration k's evaluation pass |
| Properties.FoundIsBestVisited | PSO.py:49-65 | the returned fitness is at least the objective of every feasible position any particle held at the start of any iteration |
| Properties.RoundPullsTowardOneBest | PSO.py:52-63 | local and global best coincide, and every particle moves toward that one position after its own evaluation |
| Properties.ReturnedBestMayLeaveBounds | PSO.py:42-65 | with one particle drawn at `[1, 1, 1, 1]` and one iteration, the run returns that position with fitness 127884, outside the lower bound 1.5 of item 3 |
| Properties.InertParticleStays | PSO.py:24-37 | with zero coefficients, a particle at rest inside the bounds does not move |

## Left out

- Random number generation (`np.random.rand`, PSO.py:8-9, 27-28): the initial positions and velocities and the draws `r1`, `r2` are inputs. Only `VelocityPullsTowardBest` assumes the draws lie in [0, 1).
- IEEE floating point: reals stand for floats, so rounding, overflow and NaN are not modelled. `float('-inf')` is `Option.None`.
- Initialisation within the bounds: the source draws initial positions in [0, 1) and never moves them into `[x_min, x_max]` before the first evaluation pass, so the returned best may be such an initial position outside the bounds. The model keeps this behaviour (`ReturnedBestMayLeaveBounds`) and promises the bounds only from the first movement on (`IterateInBounds`).
- `np.around(..., decimals=1)` of the returned position (PSO.py:65): `Run` returns the unrounded global best. Rounding can push the returned position over budget (`[1.0, 1.66, 1.7, 3.7]` bids 261000 but rounds to `[1.0, 1.7, 1.7, 3.7]`, which bids 264000), and it breaks `Objective(position) == fitness`. `RunFound` and `SourceRunMeetsConstraints` speak of the unrounded position.
- Printing, plotting, the fuzzy-membership construction, the Monte-Carlo defuzzification loop and the final budget recheck after the optimiser returns: I/O or calls into an external fuzzy-logic library, outside the optimiser.
- The failure when no particle is ever feasible: the source raises an error by reading an unbound name, at line 62 (or at line 65 for an empty swarm or zero iterations). Both are the single result `NoFeasibleSolution`.
- The objective and the constraint list are passed to `PSO` as Python callables. The model fixes the objective to the source's linear profit and gives the constraints as a closed datatype of the source's two constraints, in any order and multiplicity.
- The dimension is fixed to 4, as the driver fixes `dim = 4`.
