/** The PSO driver as the source runs it: particle objects whose fields are
    overwritten in place, tracker variables reassigned inside the
    per-particle loop, and a history list appended once per iteration. */
module Driver {
  import opened Wrappers
  import opened Evaluators
  import opened Swarm
  import opened SwarmUpdate
  import opened Tracking
  import opened Optimizer

  /** The particles are pairwise distinct objects. */
  predicate Distinct(particles: seq<Particle>) {
    forall a, b :: 0 <= a < b < |particles| ==> particles[a] != particles[b]
  }

  /** The particle objects hold, in order, the states of `swarm`. */
  predicate Mirrors(particles: seq<Particle>, swarm: seq<ParticleState>)
    reads particles
  {
    && |particles| == |swarm| && Distinct(particles)
    && forall a :: 0 <= a < |particles| ==> particles[a].State() == swarm[a]
  }

  /** The evaluation pass: each particle in turn is checked against every
      constraint, gets its fitness when feasible, and may promote itself to
      local best and the local best to global best. */
  method EvaluationPass(particles: seq<Particle>, cs: seq<Constraint>, local: Option<Best>, global: Option<Best>,
                        ghost before: seq<ParticleState>)
    returns (local': Option<Best>, global': Option<Best>)
    requires Mirrors(particles, before) && Shaped(before)
    modifies particles
    ensures Trackers(local', global') == PassTrackers(cs, Trackers(local, global), before)
    ensures Mirrors(particles, EvaluatedSwarm(cs, before))
  {
    var n := |particles|;
    local', global' := local, global;
    for j := 0 to n
      invariant Trackers(local', global') == PassTrackers(cs, Trackers(local, global), before[..j])
      invariant forall a :: 0 <= a < j ==> particles[a].State() == Evaluated(cs, before[a])
      invariant forall a :: j <= a < n ==> particles[a].State() == before[a]
    {
      var particle := particles[j];
      if Feasible(cs, particle.position) {
        particle.fitness := Some(Objective(particle.position));
        if Exceeds(particle.fitness.value, local') {
          local' := Some(Best(particle.fitness.value, particle.position));
        }
        if Exceeds(local'.value.fitness, global') {
          global' := local';
        }
      }
      assert before[..j + 1][..j] == before[..j];
    }
    assert before[..n] == before;
  }

  /** The movement pass: every particle, feasible or not, gets its new
      velocity and then moves with that velocity. */
  method MovementPass(particles: seq<Particle>, cfg: Config, localPos: seq<real>, globalPos: seq<real>,
                      ds: seq<Draw>, ghost before: seq<ParticleState>)
    requires Mirrors(particles, before) && Shaped(before)
    requires ValidConfig(cfg) && RoundDraws(|particles|, ds) && |localPos| == DIM && |globalPos| == DIM
    modifies particles
    ensures Mirrors(particles, MovedSwarm(cfg, before, localPos, globalPos, ds))
  {
    var n := |particles|;
    for j := 0 to n
      invariant forall a :: 0 <= a < j ==> particles[a].State() == Moved(cfg, before[a], localPos, globalPos, ds[a])
      invariant forall a :: j <= a < n ==> particles[a].State() == before[a]
    {
      MoveParticle(particles[j], cfg, localPos, globalPos, ds[j]);
    }
  }

  /** One particle's turn in the movement pass: the velocity is overwritten
      first, and the position step reads the new velocity. */
  method MoveParticle(particle: Particle, cfg: Config, localPos: seq<real>, globalPos: seq<real>, d: Draw)
    requires ValidConfig(cfg) && |particle.position| == DIM && |particle.velocity| == DIM
    requires |localPos| == DIM && |globalPos| == DIM && |d.r1| == DIM && |d.r2| == DIM
    modifies particle
    ensures particle.State() == Moved(cfg, old(particle.State()), localPos, globalPos, d)
  {
    particle.velocity := UpdateVelocity(particle.position, particle.velocity, localPos, globalPos,
                                        cfg.c1, cfg.c2, d.r1, d.r2);
    particle.position := UpdatePosition(particle, cfg.xMin, cfg.xMax);
  }

  /** One iteration of the driver loop: the evaluation pass, the history
      entry and the movement pass. `ok` is false when no particle has been
      feasible yet, where the source reads an unbound best position and
      fails. */
  method RunRound(particles: seq<Particle>, cfg: Config, ds: seq<Draw>, ghost s: RunState,
                  local: Option<Best>, global: Option<Best>, history: seq<real>)
    returns (ok: bool, local': Option<Best>, global': Option<Best>, history': seq<real>, ghost swarm': seq<ParticleState>)
    requires Mirrors(particles, s.swarm) && Shaped(s.swarm)
    requires ValidConfig(cfg) && RoundDraws(|particles|, ds) && Dimensioned(s.trackers)
    requires s.trackers == Trackers(local, global) && s.history == history
    modifies particles
    ensures ok <==> Round(cfg, s, ds).Some?
    ensures ok ==> Round(cfg, s, ds) == Some(RunState(swarm', Trackers(local', global'), history'))
    ensures ok ==> Mirrors(particles, swarm')
  {
    local', global' := EvaluationPass(particles, cfg.constraints, local, global, s.swarm);
    PassPreserves(cfg.constraints, s.trackers, s.swarm);
    if local'.None? || global'.None? {
      return false, local', global', history, s.swarm;
    }
    ok := true;
    history' := history + [global'.value.fitness];
    ghost var evaluated := EvaluatedSwarm(cfg.constraints, s.swarm);
    MovementPass(particles, cfg, local'.value.position, global'.value.position, ds, evaluated);
    swarm' := MovedSwarm(cfg, evaluated, local'.value.position, global'.value.position, ds);
  }

  /** Creates one particle per initial draw, in order: `num_particles`
      particles whose random position and velocity come from `init`. */
  method CreateSwarm(init: seq<InitialDraw>) returns (particles: seq<Particle>)
    requires forall j :: 0 <= j < |init| ==> |init[j].position| == DIM && |init[j].velocity| == DIM
    ensures Mirrors(particles, InitialSwarm(init))
    ensures forall a :: 0 <= a < |particles| ==> fresh(particles[a])
  {
    particles := [];
    for j := 0 to |init|
      invariant |particles| == j && Distinct(particles)
      invariant forall a :: 0 <= a < j ==> fresh(particles[a]) && particles[a].State() == Spawned(init[a])
    {
      var p := new Particle(init[j]);
      particles := particles + [p];
    }
  }

  /** The driver loop: `cfg.maxIterations` rounds over the given particles,
      stopping at the first round that fails. */
  method Iterations(particles: seq<Particle>, cfg: Config, init: seq<InitialDraw>, draws: seq<seq<Draw>>)
    returns (ok: bool, local: Option<Best>, global: Option<Best>, history: seq<real>)
    requires ValidInputs(cfg, init, draws) && Mirrors(particles, InitialSwarm(init))
    modifies particles
    ensures ok <==> Iterate(cfg, init, draws, cfg.maxIterations).Some?
    ensures ok ==> Iterate(cfg, init, draws, cfg.maxIterations).value.trackers == Trackers(local, global)
    ensures ok ==> Iterate(cfg, init, draws, cfg.maxIterations).value.history == history
  {
    ghost var swarm := InitialSwarm(init);
    local, global, history := None, None, [];
    for iteration := 0 to cfg.maxIterations
      invariant Iterate(cfg, init, draws, iteration) == Some(RunState(swarm, Trackers(local, global), history))
      invariant Mirrors(particles, swarm)
    {
      ghost var s := RunState(swarm, Trackers(local, global), history);
      IterateStep(cfg, init, draws, iteration, s);
      var roundOk;
      roundOk, local, global, history, swarm := RunRound(particles, cfg, draws[iteration], s, local, global, history);
      if !roundOk {
        FailureSticks(cfg, init, draws, iteration + 1, cfg.maxIterations);
        return false, local, global, history;
      }
    }
    ok := true;
  }

  /** Runs `cfg.maxIterations` rounds over a swarm created from `init`,
      taking the velocity draws of iteration k from `draws[k]`. */
  method Pso(cfg: Config, init: seq<InitialDraw>, draws: seq<seq<Draw>>) returns (out: Outcome)
    requires ValidInputs(cfg, init, draws)
    ensures out == Run(cfg, init, draws)
  {
    var particles := CreateSwarm(init);
    var ok, local, global, history := Iterations(particles, cfg, init, draws);
    if !ok || global.None? {
      // No particle was ever feasible, or there were no iterations: the
      // source reads a best position that was never bound.
      return NoFeasibleSolution;
    }
    out := Found(global.value.position, global.value.fitness, history);
  }
}
