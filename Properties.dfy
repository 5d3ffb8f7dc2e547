/** What a whole run promises: the shape and order of the history, the
    feasibility and exactness of the returned best, when the run fails, and
    that the result beats every feasible position the swarm visited. */
module Properties {
  import opened Wrappers
  import opened Evaluators
  import opened Swarm
  import opened SwarmUpdate
  import opened Tracking
  import opened Optimizer

  /** A found result: one history entry per iteration, non-decreasing and
      ending with the returned fitness; the returned position is a feasible
      DIM-vector whose objective is exactly the returned fitness. */
  lemma RunFound(cfg: Config, init: seq<InitialDraw>, draws: seq<seq<Draw>>)
    requires ValidInputs(cfg, init, draws)
    ensures match Run(cfg, init, draws)
      case NoFeasibleSolution => true
      case Found(position, fitness, history) =>
        && |history| == cfg.maxIterations > 0
        && NonDecreasing(history)
        && history[|history| - 1] == fitness
        && |position| == DIM
        && Feasible(cfg.constraints, position)
        && Objective(position) == fitness
  {
    IterateInvariant(cfg, init, draws, cfg.maxIterations);
  }

  /** With the source's configuration the unrounded global best that `Run`
      returns stays within the budget and keeps item 3 at least as expensive
      as item 2. */
  lemma SourceRunMeetsConstraints(init: seq<InitialDraw>, draws: seq<seq<Draw>>)
    requires ValidInputs(SOURCE_CONFIG, init, draws)
    ensures match Run(SOURCE_CONFIG, init, draws)
      case NoFeasibleSolution => true
      case Found(p, _, _) =>
        20000.0 * p[0] + 75000.0 * p[1] + 25000.0 * p[2] + 20000.0 * p[3] <= 262500.0 && p[1] <= p[2]
  {
    RunFound(SOURCE_CONFIG, init, draws);
    var out := Run(SOURCE_CONFIG, init, draws);
    if out.Found? {
      ReferenceFeasible(out.position);
    }
  }

  /** A round after a successful one succeeds too: the trackers it starts
      from are already set, and the evaluation pass never unsets them. */
  lemma SetStep(cfg: Config, init: seq<InitialDraw>, draws: seq<seq<Draw>>, k: nat)
    requires ValidInputs(cfg, init, draws) && 0 < k < cfg.maxIterations
    requires Iterate(cfg, init, draws, k).Some?
    ensures Iterate(cfg, init, draws, k + 1).Some?
  {
    var s := Iterate(cfg, init, draws, k).value;
    IterateInvariant(cfg, init, draws, k);
    IterateStep(cfg, init, draws, k, s);
    RoundRecords(cfg, s, draws[k]);
    PassPreserves(cfg.constraints, s.trackers, s.swarm);
  }

  /** Once the global best is set, no later round fails. */
  lemma {:induction false} SetStaysSet(cfg: Config, init: seq<InitialDraw>, draws: seq<seq<Draw>>, k: nat, m: nat)
    requires ValidInputs(cfg, init, draws) && 0 < k <= m <= cfg.maxIterations
    requires Iterate(cfg, init, draws, k).Some?
    ensures Iterate(cfg, init, draws, m).Some?
    decreases m - k
  {
    if k < m {
      SetStep(cfg, init, draws, k);
      SetStaysSet(cfg, init, draws, k + 1, m);
    }
  }

  /** The run fails exactly when there are no iterations or no particle of
      the initial swarm is feasible: a feasible particle in the first pass
      sets the trackers for good, and without one the first movement pass
      reads an unbound best position. */
  lemma RunFailsIff(cfg: Config, init: seq<InitialDraw>, draws: seq<seq<Draw>>)
    requires ValidInputs(cfg, init, draws)
    ensures Run(cfg, init, draws).NoFeasibleSolution? <==>
      cfg.maxIterations == 0 || forall j :: 0 <= j < |init| ==> !Feasible(cfg.constraints, init[j].position)
  {
    if cfg.maxIterations > 0 {
      var s0 := Iterate(cfg, init, draws, 0).value;
      IterateStep(cfg, init, draws, 0, s0);
      PassIsMaximum(cfg.constraints, UNSET, s0.swarm);
      PassPreserves(cfg.constraints, UNSET, s0.swarm);
      RoundRecords(cfg, s0, draws[0]);
      if exists j :: 0 <= j < |init| && Feasible(cfg.constraints, init[j].position) {
        var j :| 0 <= j < |init| && Feasible(cfg.constraints, init[j].position);
        assert s0.swarm[j].position == init[j].position;
        SetStaysSet(cfg, init, draws, 1, cfg.maxIterations);
      } else {
        assert forall j :: 0 <= j < |s0.swarm| ==> !Feasible(cfg.constraints, s0.swarm[j].position);
        FailureSticks(cfg, init, draws, 1, cfg.maxIterations);
      }
    }
  }

  /** With the source's bounds and constraints, a feasible position within
      the bounds earns between the profit of the lower price bounds
      (105251.5) and the budget's ceiling (257328.75). */
  lemma SourceFeasibleProfit(x: seq<real>)
    requires |x| == DIM && InBounds(x, SOURCE_CONFIG.xMin, SOURCE_CONFIG.xMax)
    requires Feasible(CONSTRAINTS, x)
    ensures 105251.5 <= Objective(x) <= 257328.75
  {
    var lower := SOURCE_CONFIG.xMin;
    assert Below(lower, x);
    ObjectiveMonotone(lower, x);
    assert Objective(lower) == 105251.5;
    assert Margin(CONSTRAINTS[0], x) >= 0.0;
    ProfitBoundedByBudget(x);
  }

  /** With the source's configuration, every feasible position a particle
      holds after the first round earns between the lower bounds' profit and
      the budget's ceiling. */
  lemma SourceVisitedProfit(init: seq<InitialDraw>, draws: seq<seq<Draw>>, k: nat, j: nat)
    requires ValidInputs(SOURCE_CONFIG, init, draws) && 0 < k <= SOURCE_CONFIG.maxIterations
    ensures var sk := Iterate(SOURCE_CONFIG, init, draws, k);
      sk.Some? && j < |sk.value.swarm| && Feasible(CONSTRAINTS, sk.value.swarm[j].position) ==>
        105251.5 <= Objective(sk.value.swarm[j].position) <= 257328.75
  {
    var sk := Iterate(SOURCE_CONFIG, init, draws, k);
    if sk.Some? && j < |sk.value.swarm| {
      var x := sk.value.swarm[j].position;
      if Feasible(CONSTRAINTS, x) {
        SourceBoundsWellFormed();
        IterateInBounds(SOURCE_CONFIG, init, draws, k);
        assert InBounds(x, SOURCE_CONFIG.xMin, SOURCE_CONFIG.xMax);
        SourceFeasibleProfit(x);
      }
    }
  }

  /** Every lower price bound of the source lies below its upper bound. */
  lemma SourceBoundsWellFormed()
    ensures WellFormedBounds(SOURCE_CONFIG.xMin, SOURCE_CONFIG.xMax)
  {
  }

  /** With the source's configuration, a found result earns at least the
      lower bounds' profit once some particle has held a feasible position
      after the first round and before the last round ended. */
  lemma SourceRunBeatsLowerBounds(init: seq<InitialDraw>, draws: seq<seq<Draw>>, k: nat, j: nat)
    requires ValidInputs(SOURCE_CONFIG, init, draws) && 0 < k < SOURCE_CONFIG.maxIterations
    requires Run(SOURCE_CONFIG, init, draws).Found?
    ensures var sk := Iterate(SOURCE_CONFIG, init, draws, k);
      sk.Some? && (j < |sk.value.swarm| && Feasible(CONSTRAINTS, sk.value.swarm[j].position) ==>
        105251.5 <= Run(SOURCE_CONFIG, init, draws).fitness)
  {
    FoundIsBestVisited(SOURCE_CONFIG, init, draws, k, j);
    SourceVisitedProfit(init, draws, k, j);
  }

  /** The first evaluation pass scores the initial draws as they are, so the
      returned best can lie outside the price bounds: one particle drawn at
      [1, 1, 1, 1] is feasible and is returned although item 3's lower bound
      is 1.5. */
  lemma ReturnedBestMayLeaveBounds()
    ensures var cfg := Config(1, 1, 1.5, 2.5, [1.0, 0.5, 1.5, 1.0], [4.0, 3.0, 6.0, 4.0], CONSTRAINTS);
      var zero := [0.0, 0.0, 0.0, 0.0];
      var out := Run(cfg, [InitialDraw([1.0, 1.0, 1.0, 1.0], zero)], [[Draw(zero, zero)]]);
      && out == Found([1.0, 1.0, 1.0, 1.0], 127884.0, [127884.0])
      && !InBounds(out.position, cfg.xMin, cfg.xMax)
  {
    var cfg := Config(1, 1, 1.5, 2.5, [1.0, 0.5, 1.5, 1.0], [4.0, 3.0, 6.0, 4.0], CONSTRAINTS);
    var zero := [0.0, 0.0, 0.0, 0.0];
    var x := [1.0, 1.0, 1.0, 1.0];
    var init := [InitialDraw(x, zero)];
    var draws := [[Draw(zero, zero)]];
    var s0 := Iterate(cfg, init, draws, 0).value;
    assert s0.swarm == [ParticleState(x, zero, None)];
    ReferenceFeasible(x);
    assert Feasible(CONSTRAINTS, x);
    assert Objective(x) == 127884.0;
    var t := PassTrackers(CONSTRAINTS, UNSET, s0.swarm);
    assert s0.swarm[..0] == [];
    assert PassTrackers(CONSTRAINTS, UNSET, s0.swarm[..0]) == UNSET;
    assert t == Promote(CONSTRAINTS, UNSET, x);
    assert t == Trackers(Some(Best(127884.0, x)), Some(Best(127884.0, x)));
    IterateStep(cfg, init, draws, 0, s0);
    RoundRecords(cfg, s0, draws[0]);
  }

  /** A successful round k starts from the successful state after k - 1
      rounds and appends the global best of its evaluation pass to that
      state's history. */
  lemma HistoryStep(cfg: Config, init: seq<InitialDraw>, draws: seq<seq<Draw>>, m: nat)
    requires ValidInputs(cfg, init, draws) && 0 < m <= cfg.maxIterations
    requires Iterate(cfg, init, draws, m).Some?
    ensures var prev := Iterate(cfg, init, draws, m - 1);
      && prev.Some?
      && var t := PassTrackers(cfg.constraints, prev.value.trackers, prev.value.swarm);
      && t.global.Some?
      && Iterate(cfg, init, draws, m).value.history == prev.value.history + [t.global.value.fitness]
  {
    var prev := Iterate(cfg, init, draws, m - 1);
    assert prev.Some?;
    IterateStep(cfg, init, draws, m - 1, prev.value);
    RoundRecords(cfg, prev.value, draws[m - 1]);
  }

  /** History entry k is the global best at the end of iteration k's
      evaluation pass. */
  lemma {:induction false} HistoryEntry(cfg: Config, init: seq<InitialDraw>, draws: seq<seq<Draw>>, k: nat, m: nat)
    requires ValidInputs(cfg, init, draws) && k < m <= cfg.maxIterations
    requires Iterate(cfg, init, draws, m).Some?
    ensures var sk := Iterate(cfg, init, draws, k);
      && sk.Some?
      && var t := PassTrackers(cfg.constraints, sk.value.trackers, sk.value.swarm);
      && t.global.Some?
      && Iterate(cfg, init, draws, m).value.history[k] == t.global.value.fitness
    decreases m
  {
    HistoryStep(cfg, init, draws, m);
    if k < m - 1 {
      HistoryEntry(cfg, init, draws, k, m - 1);
    }
  }

  /** The returned fitness is at least the objective of every feasible
      position any particle held at the start of any iteration. */
  lemma FoundIsBestVisited(cfg: Config, init: seq<InitialDraw>, draws: seq<seq<Draw>>, k: nat, j: nat)
    requires ValidInputs(cfg, init, draws) && k < cfg.maxIterations
    requires Run(cfg, init, draws).Found?
    ensures var sk := Iterate(cfg, init, draws, k);
      sk.Some? && (j < |sk.value.swarm| && Feasible(cfg.constraints, sk.value.swarm[j].position) ==>
        Objective(sk.value.swarm[j].position) <= Run(cfg, init, draws).fitness)
  {
    HistoryEntry(cfg, init, draws, k, cfg.maxIterations);
    RunFound(cfg, init, draws);
    var sk := Iterate(cfg, init, draws, k).value;
    PassIsMaximum(cfg.constraints, sk.trackers, sk.swarm);
  }

  /** In every round the whole swarm moves, feasible or not, and all
      particles are pulled toward one and the same position: the local and
      global best coincide. */
  lemma RoundPullsTowardOneBest(cfg: Config, s: RunState, ds: seq<Draw>)
    requires ValidConfig(cfg) && Shaped(s.swarm) && RoundDraws(|s.swarm|, ds)
    requires Dimensioned(s.trackers) && Synced(s.trackers)
    ensures match Round(cfg, s, ds)
      case None => true
      case Some(r) =>
        && r.trackers.local == r.trackers.global
        && forall j :: 0 <= j < |s.swarm| ==>
             var best := r.trackers.global.value.position;
             r.swarm[j] == Moved(cfg, Evaluated(cfg.constraints, s.swarm[j]), best, best, ds[j])
  {
    PassPreserves(cfg.constraints, s.trackers, s.swarm);
  }

  /** With both coefficients zero, a particle at rest inside the bounds stays
      where it is. */
  lemma InertParticleStays(cfg: Config, p: ParticleState, localPos: seq<real>, globalPos: seq<real>, d: Draw)
    requires ValidConfig(cfg) && cfg.c1 == 0.0 && cfg.c2 == 0.0
    requires |p.position| == DIM && |p.velocity| == DIM && |localPos| == DIM && |globalPos| == DIM
    requires |d.r1| == DIM && |d.r2| == DIM
    requires IsZero(p.velocity) && InBounds(p.position, cfg.xMin, cfg.xMax)
    ensures Moved(cfg, p, localPos, globalPos, d) == p
  {
    VelocityInertiaOnly(p.position, p.velocity, localPos, globalPos, d.r1, d.r2);
    ZeroVelocityKeepsPosition(p.position, p.velocity, cfg.xMin, cfg.xMax);
  }
}
