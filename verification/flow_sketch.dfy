/** The flow-field prototype sketch (_archive/prototypes/in-transit-000/sketch.js):
    the four 0..1 indices it keeps in `currentData`, the keyboard presets
    that replace them, and the wrap-around of a particle at the canvas edges.
    The flow field, the optical flow and drawing are not modelled. */
module FlowSketch {
  import opened Common

  /** `currentData`: the indices the prototype's visuals and audio read. */
  datatype Indices = Indices(tempIndex: real, chaosIndex: real, rainIndex: real, densityIndex: real)

  const INITIAL_DATA: Indices := Indices(0.5, 0.1, 0.0, 0.3)
  const PRESET_HOPE: Indices := Indices(0.6, 0.1, 0.0, 0.3)
  const PRESET_SOLASTALGIA: Indices := Indices(0.2, 0.3, 0.9, 0.2)
  const PRESET_ANGER: Indices := Indices(0.9, 0.9, 0.0, 1.0)

  /** `keyPressed`: keys '1', '2' and '3' install a preset, any other key
      keeps the data. */
  function KeyPressed(current: Indices, key: char): (next: Indices)
    ensures key == '1' ==> next == PRESET_HOPE
    ensures key == '2' ==> next == PRESET_SOLASTALGIA
    ensures key == '3' ==> next == PRESET_ANGER
    ensures key !in {'1', '2', '3'} ==> next == current
  {
    if key == '1' then PRESET_HOPE
    else if key == '2' then PRESET_SOLASTALGIA
    else if key == '3' then PRESET_ANGER
    else current
  }

  ghost predicate InUnitRange(d: Indices)
  {
    && 0.0 <= d.tempIndex <= 1.0 && 0.0 <= d.chaosIndex <= 1.0
    && 0.0 <= d.rainIndex <= 1.0 && 0.0 <= d.densityIndex <= 1.0
  }

  /** The initial data and every preset are in range, so no key press ever
      takes an index out of [0, 1]. */
  lemma KeyPressedKeepsRange(current: Indices, key: char)
    requires InUnitRange(current)
    ensures InUnitRange(KeyPressed(current, key))
    ensures InUnitRange(INITIAL_DATA)
  {
  }

  const PARTICLE_POOL: int := 2000

  /** How many particles `draw` moves: the loop runs while `i` is below
      `map(densityIndex, 0, 1, 500, 2000)`, so it moves the ceiling of that
      bound (none when it is not positive). */
  function ActiveParticles(d: Indices): (n: nat)
    ensures n as real >= 500.0 + 1500.0 * d.densityIndex
    ensures n > 0 ==> (n - 1) as real < 500.0 + 1500.0 * d.densityIndex
  {
    var bound := 500.0 + d.densityIndex * (PARTICLE_POOL as real - 500.0);
    if bound <= 0.0 then 0 else Ceil(bound)
  }

  /** With indices in range the loop stays inside the pool of 2000
      particles and moves at least 500; a density above 1 would index past
      the pool. */
  lemma ActiveParticlesWithinPool(d: Indices)
    requires InUnitRange(d)
    ensures 500 <= ActiveParticles(d) <= PARTICLE_POOL
    ensures d.densityIndex == 0.0 ==> ActiveParticles(d) == 500
    ensures d.densityIndex == 1.0 ==> ActiveParticles(d) == PARTICLE_POOL
  {
  }

  // ---------------------------------------------------------------------
  // Edges
  // ---------------------------------------------------------------------

  /** A particle's position and the previous position its trail starts from. */
  datatype Particle = Particle(x: real, y: real, prevX: real, prevY: real)

  /** `edges`: each of the four checks in order; a wrap moves the coordinate
      to the opposite side and resets the trail start to the new position. */
  function Edges(p: Particle, width: real, height: real): (q: Particle)
    requires width >= 0.0 && height >= 0.0
    ensures 0.0 <= q.x <= width && 0.0 <= q.y <= height
  {
    var a := if p.x > width then Particle(0.0, p.y, 0.0, p.y) else p;
    var b := if a.x < 0.0 then Particle(width, a.y, width, a.y) else a;
    var c := if b.y > height then Particle(b.x, 0.0, b.x, 0.0) else b;
    if c.y < 0.0 then Particle(c.x, height, c.x, height) else c
  }

  predicate Inside(p: Particle, width: real, height: real)
  {
    0.0 <= p.x <= width && 0.0 <= p.y <= height
  }

  /** A particle inside the canvas is untouched; one outside is wrapped and
      its trail restarts at the wrapped position, so no line is drawn across
      the canvas. */
  lemma EdgesWrapResetsTrail(p: Particle, width: real, height: real)
    requires width >= 0.0 && height >= 0.0
    ensures Inside(p, width, height) ==> Edges(p, width, height) == p
    ensures !Inside(p, width, height) ==>
      var q := Edges(p, width, height);
      q.prevX == q.x && q.prevY == q.y
    ensures p.x > width ==> Edges(p, width, height).x == 0.0
    ensures p.x < 0.0 ==> Edges(p, width, height).x == width
    ensures 0.0 <= p.x <= width ==> Edges(p, width, height).x == p.x
  {
  }
}
