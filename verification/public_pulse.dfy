/** The expanding ring of the static front end (public/js/visual/Pulse.js):
    it grows by its speed and fades by 3 per frame without a floor; only the
    alpha decides when it dies. The random maximum size and speed are
    parameters. */
module PublicPulse {

  datatype Pulse = Pulse(size: real, maxSize: real, alpha: int, speed: real, dead: bool)

  function NewPulse(maxSize: real, speed: real): (p: Pulse)
    requires 100.0 <= maxSize <= 300.0 && 2.0 <= speed <= 5.0
    ensures p.alpha == 255 && p.size == 0.0 && !p.dead
  {
    Pulse(0.0, maxSize, 255, speed, false)
  }

  /** `update`: grow, fade by 3, die once the alpha reaches 0. */
  function Update(p: Pulse): (q: Pulse)
    ensures q.size == p.size + p.speed
    ensures q.alpha == p.alpha - 3
    ensures q.dead <==> p.dead || q.alpha <= 0
    ensures q.maxSize == p.maxSize && q.speed == p.speed
  {
    var alpha := p.alpha - 3;
    p.(size := p.size + p.speed, alpha := alpha, dead := p.dead || alpha <= 0)
  }

  function UpdateN(p: Pulse, k: nat): Pulse
    decreases k
  {
    if k == 0 then p else UpdateN(Update(p), k - 1)
  }

  /** After `k` frames a fresh pulse has alpha `255 - 3k`, has grown by `k`
      speeds, and is dead exactly from the 85th frame on. */
  lemma {:induction false} FreshPulseAfter(p: Pulse, k: nat)
    requires !p.dead && p.alpha == 255
    ensures UpdateN(p, k).alpha == 255 - 3 * k
    ensures UpdateN(p, k).size == p.size + k as real * p.speed
    ensures UpdateN(p, k).dead <==> k >= 85
  {
    Shape(p, k);
  }

  /** The general step count: alpha falls by `3k`, size grows by `k` speeds,
      and the pulse is dead iff it was, or the alpha has reached 0 at some
      frame (the last frame, since the alpha only falls). */
  lemma {:induction false} Shape(p: Pulse, k: nat)
    ensures UpdateN(p, k).alpha == p.alpha - 3 * k
    ensures UpdateN(p, k).size == p.size + k as real * p.speed
    ensures UpdateN(p, k).dead <==> p.dead || (k > 0 && p.alpha - 3 * k <= 0)
    ensures UpdateN(p, k).maxSize == p.maxSize
    decreases k
  {
    if k > 0 {
      Shape(Update(p), k - 1);
    }
  }

  /** The maximum size never matters: two pulses that differ only in it die
      at the same frame. */
  lemma MaxSizeNeverKills(p: Pulse, maxSize: real, k: nat)
    ensures UpdateN(p, k).dead == UpdateN(p.(maxSize := maxSize), k).dead
  {
    Shape(p, k);
    Shape(p.(maxSize := maxSize), k);
  }
}
