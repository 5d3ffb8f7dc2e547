/** The PSO driver as a function of its inputs: `max_iterations` rounds, each
    an evaluation pass over the swarm, one history entry, and a movement
    pass that updates every particle. The random draws are inputs. */
module Optimizer {
  import opened Wrappers
  import opened Evaluators
  import opened Swarm
  import opened SwarmUpdate
  import opened Tracking

  /** The optimiser's parameters; the objective is the fixed linear profit. */
  datatype Config = Config(numParticles: nat, maxIterations: nat, c1: real, c2: real,
                           xMin: seq<real>, xMax: seq<real>, constraints: seq<Constraint>)

  /** The defaults of the source's `PSO` signature together with the bounds
      and the constraint list of its one run. */
  const SOURCE_CONFIG: Config :=
    Config(50, 100, 1.5, 2.5, [1.0, 0.5, 1.5, 1.0], [4.0, 3.0, 6.0, 4.0], CONSTRAINTS)

  /** The two random vectors one velocity update draws. */
  datatype Draw = Draw(r1: seq<real>, r2: seq<real>)

  /** What the optimiser returns; the source fails instead of returning when
      no particle was ever feasible. */
  datatype Outcome = Found(position: seq<real>, fitness: real, history: seq<real>) | NoFeasibleSolution

  /** The state between two rounds. */
  datatype RunState = RunState(swarm: seq<ParticleState>, trackers: Trackers, history: seq<real>)

  predicate ValidConfig(cfg: Config) {
    |cfg.xMin| == DIM && |cfg.xMax| == DIM
  }

  /** One draw per particle, each of dimension DIM. */
  predicate RoundDraws(n: nat, ds: seq<Draw>) {
    |ds| == n && forall j :: 0 <= j < |ds| ==> |ds[j].r1| == DIM && |ds[j].r2| == DIM
  }

  /** The caller-supplied randomness: the swarm's initial draws and one round
      of velocity draws per iteration. */
  predicate ValidInputs(cfg: Config, init: seq<InitialDraw>, draws: seq<seq<Draw>>) {
    && ValidConfig(cfg)
    && |init| == cfg.numParticles
    && (forall j :: 0 <= j < |init| ==> |init[j].position| == DIM && |init[j].velocity| == DIM)
    && |draws| == cfg.maxIterations
    && (forall k :: 0 <= k < |draws| ==> RoundDraws(cfg.numParticles, draws[k]))
  }

  function InitialSwarm(init: seq<InitialDraw>): (swarm: seq<ParticleState>)
    requires forall j :: 0 <= j < |init| ==> |init[j].position| == DIM && |init[j].velocity| == DIM
    ensures |swarm| == |init| && Shaped(swarm)
  {
    seq(|init|, j requires 0 <= j < |init| => Spawned(init[j]))
  }

  /** One particle's movement: the velocity update toward the two best
      positions, then the position step with the velocity just computed.
      The fitness is left as it is. */
  function Moved(cfg: Config, p: ParticleState, localPos: seq<real>, globalPos: seq<real>, d: Draw): (q: ParticleState)
    requires ValidConfig(cfg) && |p.position| == DIM && |p.velocity| == DIM
    requires |localPos| == DIM && |globalPos| == DIM && |d.r1| == DIM && |d.r2| == DIM
    ensures |q.position| == DIM && |q.velocity| == DIM && q.fitness == p.fitness
  {
    var v := UpdateVelocity(p.position, p.velocity, localPos, globalPos, cfg.c1, cfg.c2, d.r1, d.r2);
    ParticleState(Stepped(p.position, v, cfg.xMin, cfg.xMax), v, p.fitness)
  }

  function MovedSwarm(cfg: Config, swarm: seq<ParticleState>, localPos: seq<real>, globalPos: seq<real>,
                      ds: seq<Draw>): (r: seq<ParticleState>)
    requires ValidConfig(cfg) && Shaped(swarm) && RoundDraws(|swarm|, ds)
    requires |localPos| == DIM && |globalPos| == DIM
    ensures |r| == |swarm| && Shaped(r)
  {
    seq(|swarm|, j requires 0 <= j < |swarm| => Moved(cfg, swarm[j], localPos, globalPos, ds[j]))
  }

  /** One iteration. `None` when the trackers are still unset after the
      evaluation pass: the source then reads an unbound best position and
      fails. */
  function Round(cfg: Config, s: RunState, ds: seq<Draw>): (r: Option<RunState>)
    requires ValidConfig(cfg) && Shaped(s.swarm) && RoundDraws(|s.swarm|, ds)
    requires Dimensioned(s.trackers)
    ensures r.Some? ==> |r.value.swarm| == |s.swarm| && Shaped(r.value.swarm)
    ensures r.Some? ==> Dimensioned(r.value.trackers) && r.value.trackers.global.Some?
    ensures r.Some? ==> |r.value.history| == |s.history| + 1
  {
    var t := PassTrackers(cfg.constraints, s.trackers, s.swarm);
    if t.local.None? || t.global.None? then None
    else
      var evaluated := EvaluatedSwarm(cfg.constraints, s.swarm);
      var moved := MovedSwarm(cfg, evaluated, t.local.value.position, t.global.value.position, ds);
      Some(RunState(moved, t, s.history + [t.global.value.fitness]))
  }

  /** The state after k rounds, or `None` once a round has failed. */
  function Iterate(cfg: Config, init: seq<InitialDraw>, draws: seq<seq<Draw>>, k: nat): (r: Option<RunState>)
    requires ValidInputs(cfg, init, draws) && k <= cfg.maxIterations
    ensures r.Some? ==> |r.value.swarm| == cfg.numParticles && Shaped(r.value.swarm)
    ensures r.Some? ==> Dimensioned(r.value.trackers)
    ensures r.Some? && k > 0 ==> r.value.trackers.global.Some?
    ensures r.Some? ==> |r.value.history| == k
  {
    if k == 0 then Some(RunState(InitialSwarm(init), UNSET, []))
    else
      match Iterate(cfg, init, draws, k - 1)
      case None => None
      case Some(s) => Round(cfg, s, draws[k - 1])
  }

  /** The whole run: the global best and the history, or the failure. */
  function Run(cfg: Config, init: seq<InitialDraw>, draws: seq<seq<Draw>>): (out: Outcome)
    requires ValidInputs(cfg, init, draws)
    ensures out.Found? ==> |out.position| == DIM && |out.history| == cfg.maxIterations
  {
    match Iterate(cfg, init, draws, cfg.maxIterations)
    case None => NoFeasibleSolution
    case Some(s) =>
      if s.trackers.global.None? then NoFeasibleSolution
      else Found(s.trackers.global.value.position, s.trackers.global.value.fitness, s.history)
  }

  /** Iterate unrolled by one round. */
  lemma IterateStep(cfg: Config, init: seq<InitialDraw>, draws: seq<seq<Draw>>, k: nat, s: RunState)
    requires ValidInputs(cfg, init, draws) && k < cfg.maxIterations
    requires Iterate(cfg, init, draws, k) == Some(s)
    ensures Iterate(cfg, init, draws, k + 1) == Round(cfg, s, draws[k])
  {
  }

  predicate NonDecreasing(h: seq<real>) {
    forall i, j :: 0 <= i <= j < |h| ==> h[i] <= h[j]
  }

  /** A failed state stays failed for one more round. */
  lemma FailureStep(cfg: Config, init: seq<InitialDraw>, draws: seq<seq<Draw>>, k: nat)
    requires ValidInputs(cfg, init, draws) && 0 < k <= cfg.maxIterations
    ensures Iterate(cfg, init, draws, k - 1).None? ==> Iterate(cfg, init, draws, k).None?
  {
  }

  /** Once a round fails, every later state is a failure too. */
  lemma {:induction false} FailureSticks(cfg: Config, init: seq<InitialDraw>, draws: seq<seq<Draw>>, k: nat, m: nat)
    requires ValidInputs(cfg, init, draws) && k <= m <= cfg.maxIterations
    ensures Iterate(cfg, init, draws, k).None? ==> Iterate(cfg, init, draws, m).None?
    decreases m
  {
    if k < m {
      FailureSticks(cfg, init, draws, k, m - 1);
      FailureStep(cfg, init, draws, m);
    }
  }

  /** A round that succeeds appends exactly the global best of its
      evaluation pass to the history and never lowers either tracker. */
  lemma RoundRecords(cfg: Config, s: RunState, ds: seq<Draw>)
    requires ValidConfig(cfg) && Shaped(s.swarm) && RoundDraws(|s.swarm|, ds)
    requires Dimensioned(s.trackers)
    ensures var t := PassTrackers(cfg.constraints, s.trackers, s.swarm);
      Round(cfg, s, ds).Some? <==> t.global.Some? && t.local.Some?
    ensures var r := Round(cfg, s, ds);
      r.Some? ==>
        && r.value.trackers == PassTrackers(cfg.constraints, s.trackers, s.swarm)
        && r.value.history == s.history + [r.value.trackers.global.value.fitness]
        && NoWorse(s.trackers.global, r.value.trackers.global)
        && NoWorse(s.trackers.local, r.value.trackers.local)
  {
    PassPreserves(cfg.constraints, s.trackers, s.swarm);
  }

  /** After a successful round every particle lies within well-formed
      bounds. */
  lemma RoundInBounds(cfg: Config, s: RunState, ds: seq<Draw>)
    requires ValidConfig(cfg) && Shaped(s.swarm) && RoundDraws(|s.swarm|, ds)
    requires Dimensioned(s.trackers) && WellFormedBounds(cfg.xMin, cfg.xMax)
    ensures match Round(cfg, s, ds)
      case None => true
      case Some(r) => forall j :: 0 <= j < |r.swarm| ==> InBounds(r.swarm[j].position, cfg.xMin, cfg.xMax)
  {
    var r := Round(cfg, s, ds);
    if r.Some? {
      var t := r.value.trackers;
      var evaluated := EvaluatedSwarm(cfg.constraints, s.swarm);
      forall j | 0 <= j < |r.value.swarm|
        ensures InBounds(r.value.swarm[j].position, cfg.xMin, cfg.xMax)
      {
        var p := evaluated[j];
        var v := UpdateVelocity(p.position, p.velocity, t.local.value.position, t.global.value.position,
                                cfg.c1, cfg.c2, ds[j].r1, ds[j].r2);
        assert r.value.swarm[j].position == Stepped(p.position, v, cfg.xMin, cfg.xMax);
        SteppedInBounds(p.position, v, cfg.xMin, cfg.xMax);
      }
    }
  }

  /** What every reachable state satisfies: the history never decreases
      and ends with the global best, and the trackers are equal and sound. */
  predicate Consistent(cs: seq<Constraint>, s: RunState) {
    && NonDecreasing(s.history)
    && Synced(s.trackers)
    && Sound(cs, s.trackers)
    && (|s.history| > 0 ==> s.trackers.global.Some? && s.history[|s.history| - 1] == s.trackers.global.value.fitness)
  }

  /** A successful round keeps a state consistent. */
  lemma RoundKeepsConsistent(cfg: Config, s: RunState, ds: seq<Draw>)
    requires ValidConfig(cfg) && Shaped(s.swarm) && RoundDraws(|s.swarm|, ds)
    requires Dimensioned(s.trackers) && Consistent(cfg.constraints, s)
    ensures var r := Round(cfg, s, ds); r.Some? ==> Consistent(cfg.constraints, r.value)
  {
    var r := Round(cfg, s, ds);
    if r.Some? {
      RoundRecords(cfg, s, ds);
      PassPreserves(cfg.constraints, s.trackers, s.swarm);
      var h := r.value.history;
      var n := |s.history|;
      assert h == s.history + [h[n]];
      forall i, j | 0 <= i <= j < |h|
        ensures h[i] <= h[j]
      {
        if j < n {
          assert h[i] == s.history[i] && h[j] == s.history[j];
        } else if i < n {
          assert h[i] == s.history[i] <= s.history[n - 1];
        }
      }
    }
  }

  /** Every state reached after k rounds is consistent and holds one history
      entry per round. */
  lemma {:induction false} IterateInvariant(cfg: Config, init: seq<InitialDraw>, draws: seq<seq<Draw>>, k: nat)
    requires ValidInputs(cfg, init, draws) && k <= cfg.maxIterations
    ensures var r := Iterate(cfg, init, draws, k); r.Some? ==> Consistent(cfg.constraints, r.value)
  {
    if k > 0 {
      IterateInvariant(cfg, init, draws, k - 1);
      ConsistentStep(cfg, init, draws, k);
    }
  }

  /** Consistency carries over from the state after k - 1 rounds to the
      state after k. */
  lemma ConsistentStep(cfg: Config, init: seq<InitialDraw>, draws: seq<seq<Draw>>, k: nat)
    requires ValidInputs(cfg, init, draws) && 0 < k <= cfg.maxIterations
    requires var r := Iterate(cfg, init, draws, k - 1); r.Some? ==> Consistent(cfg.constraints, r.value)
    ensures var r := Iterate(cfg, init, draws, k); r.Some? ==> Consistent(cfg.constraints, r.value)
  {
    var prev := Iterate(cfg, init, draws, k - 1);
    if prev.Some? {
      IterateStep(cfg, init, draws, k - 1, prev.value);
      RoundKeepsConsistent(cfg, prev.value, draws[k - 1]);
    }
  }

  /** For well-formed bounds, every particle lies within them after the
      first round. */
  lemma {:induction false} IterateInBounds(cfg: Config, init: seq<InitialDraw>, draws: seq<seq<Draw>>, k: nat)
    requires ValidInputs(cfg, init, draws) && 0 < k <= cfg.maxIterations
    requires WellFormedBounds(cfg.xMin, cfg.xMax)
    ensures var r := Iterate(cfg, init, draws, k);
      r.Some? ==> forall j :: 0 <= j < |r.value.swarm| ==> InBounds(r.value.swarm[j].position, cfg.xMin, cfg.xMax)
  {
    var prev := Iterate(cfg, init, draws, k - 1);
    if prev.Some? {
      IterateStep(cfg, init, draws, k - 1, prev.value);
      RoundInBounds(cfg, prev.value, draws[k - 1]);
    }
  }
}
