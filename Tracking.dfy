/** The best-tracking reducer of the evaluation pass: per particle, the
    feasibility filter, the fitness assignment, the promotion to local best
    and, immediately after, the promotion to global best. */
module Tracking {
  import opened Wrappers
  import opened Evaluators
  import opened Swarm

  /** A fitness together with the position it was reached at. */
  datatype Best = Best(fitness: real, position: seq<real>)

  /** The source's `particle_local_fitness` / `particle_local_position` and
      `global_best_fitness` / `global_best_position`. A tracker is `None`
      while its fitness is still `float('-inf')` and its position unbound.
      Note that the "local" tracker is one variable for the whole swarm, not
      one per particle. */
  datatype Trackers = Trackers(local: Option<Best>, global: Option<Best>)

  const UNSET: Trackers := Trackers(None, None)

  /** `f > tracked fitness`, where every real beats an unset tracker. */
  predicate Exceeds(f: real, b: Option<Best>) {
    b.None? || f > b.value.fitness
  }

  /** Tracker b is at least as good as a: set whenever a is, and no lower. */
  predicate NoWorse(a: Option<Best>, b: Option<Best>) {
    a.Some? ==> b.Some? && a.value.fitness <= b.value.fitness
  }

  /** Every particle of the swarm is a DIM-vector with a DIM-velocity. */
  predicate Shaped(swarm: seq<ParticleState>) {
    forall j :: 0 <= j < |swarm| ==> |swarm[j].position| == DIM && |swarm[j].velocity| == DIM
  }

  /** The fitness assignment of one particle: only a feasible particle gets
      its fitness recomputed; an infeasible one keeps its old fitness. */
  function Evaluated(cs: seq<Constraint>, p: ParticleState): (q: ParticleState)
    requires |p.position| >= DIM
    ensures q.position == p.position && q.velocity == p.velocity
    ensures Feasible(cs, p.position) ==> q.fitness == Some(Objective(p.position))
    ensures !Feasible(cs, p.position) ==> q == p
  {
    if Feasible(cs, p.position) then p.(fitness := Some(Objective(p.position))) else p
  }

  /** One particle's effect on the trackers: nothing if it is infeasible;
      otherwise its fitness replaces the local best when strictly higher, and
      then the local best replaces the global best when strictly higher. */
  function Promote(cs: seq<Constraint>, t: Trackers, x: seq<real>): (r: Trackers)
    requires |x| >= DIM
    ensures Dimensioned(t) && |x| == DIM ==> Dimensioned(r)
  {
    if !Feasible(cs, x) then t
    else
      var f := Objective(x);
      var local := if Exceeds(f, t.local) then Some(Best(f, x)) else t.local;
      var global := if Exceeds(local.value.fitness, t.global) then local else t.global;
      Trackers(local, global)
  }

  /** The trackers after the evaluation pass has visited `swarm` in order. */
  function PassTrackers(cs: seq<Constraint>, t: Trackers, swarm: seq<ParticleState>): (r: Trackers)
    requires Shaped(swarm)
    ensures Dimensioned(t) ==> Dimensioned(r)
  {
    if swarm == [] then t
    else Promote(cs, PassTrackers(cs, t, swarm[..|swarm| - 1]), swarm[|swarm| - 1].position)
  }

  /** The particles after the evaluation pass. */
  function EvaluatedSwarm(cs: seq<Constraint>, swarm: seq<ParticleState>): (r: seq<ParticleState>)
    requires Shaped(swarm)
    ensures |r| == |swarm| && Shaped(r)
  {
    seq(|swarm|, j requires 0 <= j < |swarm| => Evaluated(cs, swarm[j]))
  }

  /** Both trackers hold the same value. */
  predicate Synced(t: Trackers) {
    t.local == t.global
  }

  /** A set tracker names a feasible DIM-vector whose objective is exactly
      the tracked fitness. */
  predicate Witnessed(cs: seq<Constraint>, b: Option<Best>) {
    b.Some? ==>
      |b.value.position| == DIM && Feasible(cs, b.value.position) && Objective(b.value.position) == b.value.fitness
  }

  /** Every set tracker holds a DIM-vector. */
  predicate Dimensioned(t: Trackers) {
    && (t.local.Some? ==> |t.local.value.position| == DIM)
    && (t.global.Some? ==> |t.global.value.position| == DIM)
  }

  predicate Sound(cs: seq<Constraint>, t: Trackers) {
    Witnessed(cs, t.local) && Witnessed(cs, t.global)
  }

  /** An infeasible particle changes neither the trackers nor its own
      fitness; margins of exactly zero do not make a particle infeasible. */
  lemma PromoteInfeasible(cs: seq<Constraint>, t: Trackers, p: ParticleState)
    requires |p.position| >= DIM
    ensures !Feasible(cs, p.position) <==> exists i :: 0 <= i < |cs| && Margin(cs[i], p.position) < 0.0
    ensures !Feasible(cs, p.position) ==> Promote(cs, t, p.position) == t && Evaluated(cs, p) == p
  {
  }

  /** Neither tracker ever gets worse. */
  lemma PromoteMonotone(cs: seq<Constraint>, t: Trackers, x: seq<real>)
    requires |x| >= DIM
    ensures NoWorse(t.local, Promote(cs, t, x).local)
    ensures NoWorse(t.global, Promote(cs, t, x).global)
  {
  }

  /** After a feasible particle both trackers are set, the local best is at
      least the particle's fitness (taking its position exactly when its
      fitness is strictly higher), and the global best is at least the local
      best; when the trackers were equal they stay equal. */
  lemma PromoteFeasible(cs: seq<Constraint>, t: Trackers, x: seq<real>)
    requires |x| >= DIM && Feasible(cs, x)
    ensures var t' := Promote(cs, t, x);
      && t'.local.Some? && t'.global.Some?
      && Objective(x) <= t'.local.value.fitness <= t'.global.value.fitness
      && (t'.local == Some(Best(Objective(x), x)) <== Exceeds(Objective(x), t.local))
      && (!Exceeds(Objective(x), t.local) ==> t'.local == t.local)
      && (Synced(t) ==> Synced(t'))
  {
  }

  /** The trackers only ever hold positions that were feasible when copied,
      with their exact objective value. */
  lemma PromoteSound(cs: seq<Constraint>, t: Trackers, x: seq<real>)
    requires |x| == DIM && Sound(cs, t)
    ensures Sound(cs, Promote(cs, t, x))
  {
  }

  /** Over a whole pass neither tracker gets worse, and equal, sound trackers
      stay equal and sound. */
  lemma {:induction false} PassPreserves(cs: seq<Constraint>, t: Trackers, swarm: seq<ParticleState>)
    requires Shaped(swarm)
    ensures var t' := PassTrackers(cs, t, swarm);
      && NoWorse(t.local, t'.local) && NoWorse(t.global, t'.global)
      && (Synced(t) ==> Synced(t'))
      && (Sound(cs, t) ==> Sound(cs, t'))
  {
    if swarm != [] {
      var prefix := swarm[..|swarm| - 1];
      PassPreserves(cs, t, prefix);
      var mid := PassTrackers(cs, t, prefix);
      var x := swarm[|swarm| - 1].position;
      PromoteMonotone(cs, mid, x);
      if Feasible(cs, x) {
        PromoteFeasible(cs, mid, x);
      }
      if Sound(cs, t) {
        PromoteSound(cs, mid, x);
      }
    }
  }

  /** After a pass the global best is at least the fitness of every feasible
      particle of the pass, and it is set exactly when it was set before or
      some particle of the pass is feasible. */
  lemma {:induction false} PassIsMaximum(cs: seq<Constraint>, t: Trackers, swarm: seq<ParticleState>)
    requires Shaped(swarm)
    ensures var t' := PassTrackers(cs, t, swarm);
      && (forall j :: 0 <= j < |swarm| && Feasible(cs, swarm[j].position) ==>
            t'.local.Some? && t'.global.Some? &&
            Objective(swarm[j].position) <= t'.local.value.fitness <= t'.global.value.fitness)
      && (t'.global.Some? <==> t.global.Some? || exists j :: 0 <= j < |swarm| && Feasible(cs, swarm[j].position))
  {
    if swarm != [] {
      var n := |swarm|;
      var prefix := swarm[..n - 1];
      PassIsMaximum(cs, t, prefix);
      var mid := PassTrackers(cs, t, prefix);
      var x := swarm[n - 1].position;
      var t' := Promote(cs, mid, x);
      PromoteMonotone(cs, mid, x);
      if Feasible(cs, x) {
        PromoteFeasible(cs, mid, x);
      }
      forall j | 0 <= j < n && Feasible(cs, swarm[j].position)
        ensures t'.local.Some? && t'.global.Some?
        ensures Objective(swarm[j].position) <= t'.local.value.fitness <= t'.global.value.fitness
      {
        if j < n - 1 {
          assert prefix[j] == swarm[j];
        }
      }
      if t'.global.Some? && !t.global.Some? && !Feasible(cs, x) {
        var j :| 0 <= j < |prefix| && Feasible(cs, prefix[j].position);
        assert swarm[j] == prefix[j];
      }
      if exists j :: 0 <= j < n && Feasible(cs, swarm[j].position) {
        var j :| 0 <= j < n && Feasible(cs, swarm[j].position);
        if j < n - 1 {
          assert prefix[j] == swarm[j];
        }
      }
    }
  }
}
