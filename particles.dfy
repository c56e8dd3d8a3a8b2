/**
 The values the sketch's state is made of: points, the global modifier and
 the per-note entities. The drawing details of `RotatingParticle` and
 `RippleCircle` (colours, orbit, radius) are not part of this model; an
 entity keeps what the frame logic reads and writes: where and how hard it
 was spawned, whether its note is still held, and its remaining lifetime.
 */
module Particles {
  import opened Midi

  datatype Point = Point(x: real, y: real)

  /** The global parameters every entity reads during its update. */
  datatype Modifier = Modifier(scale: real, accelerator: real, centerShift: Point)

  /** `Modifier::new()`: neutral scale and accelerator, no drift. */
  const NeutralModifier := Modifier(1.0, 1.0, Point(0.0, 0.0))

  datatype Entity = Entity(center: Point, velocity: U7, held: bool, lifetime: int)

  /**
   What an entity variant's constructor and per-frame `update` contribute,
   as seen by the frame logic: the lifetime a fresh entity starts with and
   the step function applied once per frame.
   */
  datatype Behaviour = Behaviour(initialLifetime: U7 -> int, update: (Entity, Modifier) -> Entity)

  /** `RotatingParticle::new(center, velocity)` / `RippleCircle::new(center, velocity)`. */
  function Spawn(b: Behaviour, center: Point, velocity: U7): (e: Entity)
    ensures e.held && e.center == center && e.velocity == velocity
    ensures e.lifetime == b.initialLifetime(velocity)
  {
    Entity(center, velocity, true, b.initialLifetime(velocity))
  }
}
