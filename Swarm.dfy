/** A particle: one candidate price vector, the velocity it moves with, and
    the fitness of its last feasible evaluation. */
module Swarm {
  import opened Wrappers

  /** The value a particle holds at one moment. `fitness` is `None` until the
      particle is first found feasible (the source's `float('-inf')`). */
  datatype ParticleState = ParticleState(position: seq<real>, velocity: seq<real>, fitness: Option<real>)

  /** The random position and velocity a particle is created with. */
  datatype InitialDraw = InitialDraw(position: seq<real>, velocity: seq<real>)

  function Spawned(d: InitialDraw): ParticleState {
    ParticleState(d.position, d.velocity, None)
  }

  class Particle {
    var position: seq<real>
    var velocity: seq<real>
    var fitness: Option<real>

    /** The swarm's random draws are taken as the arguments. */
    constructor (d: InitialDraw)
      ensures State() == Spawned(d)
    {
      position := d.position;
      velocity := d.velocity;
      fitness := None;
    }

    function State(): ParticleState
      reads this
    {
      ParticleState(position, velocity, fitness)
    }
  }
}
