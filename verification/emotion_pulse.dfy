/** The expanding ring of the Vite front end (src/visual/Pulse.js): it grows
    by its speed, fades by 4 per frame and dies when invisible or too large.
    The random maximum size (100..300) and speed (2..5) are parameters. */
module EmotionPulse {
  import opened Common

  datatype Pulse = Pulse(size: real, maxSize: real, alpha: real, speed: real, dead: bool)

  /** The constructor with its two random draws already made. */
  function NewPulse(maxSize: real, speed: real): (p: Pulse)
    requires 100.0 <= maxSize <= 300.0 && 2.0 <= speed <= 5.0
    ensures p.alpha == 255.0 && p.size == 0.0 && !p.dead
    ensures Valid(p)
  {
    Pulse(0.0, maxSize, 255.0, speed, false)
  }

  ghost predicate Valid(p: Pulse)
  {
    0.0 <= p.alpha <= 255.0 && p.speed >= 2.0 && p.size >= 0.0
  }

  /** `update`: grow, fade (never below 0), and die once invisible or past
      the maximum size. */
  function Update(p: Pulse): (q: Pulse)
    requires Valid(p)
    ensures Valid(q)
    ensures q.size == p.size + p.speed && q.size >= p.size + 2.0
    ensures q.alpha <= p.alpha && (p.alpha >= 4.0 ==> q.alpha == p.alpha - 4.0)
    ensures q.dead <==> p.dead || q.alpha <= 0.0 || q.size > p.maxSize
    ensures q.maxSize == p.maxSize && q.speed == p.speed
  {
    var size := p.size + p.speed;
    var alpha := Max(0.0, p.alpha - 4.0);
    p.(size := size, alpha := alpha, dead := p.dead || alpha <= 0.0 || size > p.maxSize)
  }

  /** `k` frames of updates. */
  function UpdateN(p: Pulse, k: nat): (q: Pulse)
    requires Valid(p)
    ensures Valid(q)
    decreases k
  {
    if k == 0 then p else UpdateN(Update(p), k - 1)
  }

  /** After `k` frames the alpha is `max(0, alpha - 4k)`, the size has grown
      by `k` speeds, and a dead pulse stays dead. */
  lemma {:induction false} UpdateNShape(p: Pulse, k: nat)
    requires Valid(p)
    ensures UpdateN(p, k).alpha == Max(0.0, p.alpha - 4.0 * k as real)
    ensures UpdateN(p, k).size == p.size + k as real * p.speed
    ensures p.dead ==> UpdateN(p, k).dead
    ensures UpdateN(p, k).maxSize == p.maxSize && UpdateN(p, k).speed == p.speed
    decreases k
  {
    if k > 0 {
      UpdateNShape(Update(p), k - 1);
    }
  }

  /** A fresh pulse is dead after at most 64 frames: 64 fades of 4 exhaust
      the initial 255. */
  lemma DeadWithin64Frames(maxSize: real, speed: real)
    requires 100.0 <= maxSize <= 300.0 && 2.0 <= speed <= 5.0
    ensures UpdateN(NewPulse(maxSize, speed), 64).dead
  {
    var p := NewPulse(maxSize, speed);
    UpdateNShape(p, 63);
    var q := UpdateN(p, 63);
    assert q.alpha == 3.0;
    UpdateNUnfoldLast(p, 63);
    assert UpdateN(p, 64) == Update(q);
  }

  /** The last step of `k + 1` frames. */
  lemma {:induction false} UpdateNUnfoldLast(p: Pulse, k: nat)
    requires Valid(p)
    ensures UpdateN(p, k + 1) == Update(UpdateN(p, k))
    decreases k
  {
    if k > 0 {
      UpdateNUnfoldLast(Update(p), k - 1);
    }
  }

  /** `display`: nothing once dead; otherwise a ring of the current size
      drawn with the current alpha. */
  datatype Ring = Ring(diameter: real, alpha: real)

  function Display(p: Pulse): (r: Option<Ring>)
    ensures r.None? <==> p.dead
    ensures r.Some? ==> r.value.diameter == p.size && r.value.alpha == p.alpha
  {
    if p.dead then None else Some(Ring(p.size, p.alpha))
  }
}
