/** The main loop of the static front end (public/js/sketch.js): resizing the
    particle list to the mobility index, pruning dead pulses, and copying the
    weather reply into `weatherState`. Particles are opaque values of any
    type; the fetch reply, `random()` and the canvas are parameters. */
module PublicSketch {
  import opened Common
  import PP = PublicPulse

  const MAX_PARTICLES: real := 200.0

  /** `map(mobilityIndex, 0, 1, 50, maxParticles)`, unclamped. */
  function TargetCount(mobilityIndex: real): (t: real)
    ensures 0.0 <= mobilityIndex <= 1.0 ==> 50.0 <= t <= MAX_PARTICLES
  {
    P5Map(mobilityIndex, 0.0, 1.0, 50.0, MAX_PARTICLES, false)
  }

  /** The number of elements `splice(0, deleteCount)` removes from a list of
      `len`: the count is truncated toward zero and clamped to [0, len]. */
  function SpliceDeleteCount(len: nat, deleteCount: real): (n: nat)
    ensures n <= len
    ensures 0.0 <= deleteCount <= len as real ==> n == Trunc(deleteCount)
    ensures deleteCount >= len as real ==> n == len
  {
    var d := Trunc(deleteCount);
    if d < 0 then 0 else if d > len then len else d
  }

  /** The length `updateParticleCount` leaves: the least whole count reaching
      the target, and never negative. */
  function Settled(target: real): (n: nat)
    ensures target <= n as real
    ensures n > 0 ==> (n - 1) as real < target
  {
    if target <= 0.0 then 0 else Ceil(target)
  }

  /** `updateParticleCount` for a real target: grow by pushing fresh
      particles until the length reaches the target, or shrink by splicing
      from the front. */
  method UpdateParticleCount<T>(particles: seq<T>, target: real, spawn: T) returns (r: seq<T>)
    ensures |r| == if (|particles| as real) < target || target < |particles| as real
                   then Settled(target) else |particles|
    ensures (|particles| as real) < target ==>
      r[..|particles|] == particles && forall j :: |particles| <= j < |r| ==> r[j] == spawn
    ensures target < (|particles| as real) ==> r == particles[|particles| - |r|..]
    ensures target == |particles| as real ==> r == particles
  {
    r := particles;
    if (|particles| as real) < target {
      while (|r| as real) < target
        invariant |particles| <= |r| <= Settled(target)
        invariant r[..|particles|] == particles
        invariant forall j :: |particles| <= j < |r| ==> r[j] == spawn
        decreases Settled(target) - |r|
      {
        r := r + [spawn];
      }
    } else if target < (|particles| as real) {
      var n := SpliceDeleteCount(|particles|, |particles| as real - target);
      r := particles[n..];
      SpliceLeavesSettled(|particles|, target);
    }
  }

  /** Splicing `len - target` from the front of a longer list leaves
      `Settled(target)` elements. */
  lemma SpliceLeavesSettled(len: nat, target: real)
    requires target < len as real
    ensures len - SpliceDeleteCount(len, len as real - target) == Settled(target)
  {
    var x := len as real - target;
    var d := Trunc(x);
    assert d == x.Floor;
    if target > 0.0 {
      var c := Ceil(target);
      assert (len - c) as real <= x < (len - c) as real + 1.0;
      assert d == len - c;
    }
  }

  /** With an integer target, exactly that many particles remain: surplus
      ones from the front, missing ones appended at the back. */
  lemma IntegerTargetIsExact(len: nat, k: nat)
    ensures Settled(k as real) == k
  {
  }

  // ---------------------------------------------------------------------
  // Pulse pruning
  // ---------------------------------------------------------------------

  /** What the backward pulse loop leaves: every pulse updated once, the dead
      ones removed, the others in their original order. */
  function UpdateAndPrune(pulses: seq<PP.Pulse>): (r: seq<PP.Pulse>)
    ensures |r| <= |pulses|
    decreases |pulses|
  {
    if |pulses| == 0 then []
    else
      var q := PP.Update(pulses[0]);
      (if q.dead then [] else [q]) + UpdateAndPrune(pulses[1..])
  }

  /** The loop of `draw`: walk from the back, update each pulse, and splice
      it out when it died. */
  method PrunePulses(pulses: seq<PP.Pulse>) returns (r: seq<PP.Pulse>)
    ensures r == UpdateAndPrune(pulses)
  {
    r := pulses;
    var i := |pulses|;
    while i > 0
      invariant 0 <= i <= |pulses|
      invariant r == pulses[..i] + UpdateAndPrune(pulses[i..])
      decreases i
    {
      i := i - 1;
      var q := PP.Update(r[i]);
      assert pulses[i..][1..] == pulses[i + 1..];
      assert r[i] == pulses[i];
      if q.dead {
        r := r[..i] + r[i + 1..];
        assert r == pulses[..i] + UpdateAndPrune(pulses[i..]) by {
          assert pulses[..i + 1][..i] == pulses[..i];
        }
      } else {
        r := r[i := q];
        assert r == pulses[..i] + UpdateAndPrune(pulses[i..]) by {
          assert pulses[..i + 1][..i] == pulses[..i];
        }
      }
    }
    assert pulses[0..] == pulses;
  }

  /** After pruning no pulse is dead, every survivor is the update of an
      original pulse, and every original whose update lives survives. */
  lemma {:induction false} PruneKeepsExactlyTheLiving(pulses: seq<PP.Pulse>)
    ensures forall j :: 0 <= j < |UpdateAndPrune(pulses)| ==> !UpdateAndPrune(pulses)[j].dead
    ensures forall x :: x in UpdateAndPrune(pulses) ==> exists k :: 0 <= k < |pulses| && x == PP.Update(pulses[k])
    ensures forall k :: 0 <= k < |pulses| && !PP.Update(pulses[k]).dead ==> PP.Update(pulses[k]) in UpdateAndPrune(pulses)
    decreases |pulses|
  {
    if |pulses| > 0 {
      var tail := pulses[1..];
      PruneKeepsExactlyTheLiving(tail);
      var q := PP.Update(pulses[0]);
      var r := UpdateAndPrune(pulses);
      assert r == (if q.dead then [] else [q]) + UpdateAndPrune(tail);
      forall x | x in r
        ensures exists k :: 0 <= k < |pulses| && x == PP.Update(pulses[k])
      {
        if x in UpdateAndPrune(tail) {
          var k :| 0 <= k < |tail| && x == PP.Update(tail[k]);
          assert x == PP.Update(pulses[k + 1]);
        } else {
          assert x == PP.Update(pulses[0]);
        }
      }
      forall k | 0 <= k < |pulses| && !PP.Update(pulses[k]).dead
        ensures PP.Update(pulses[k]) in r
      {
        if k > 0 {
          assert pulses[k] == tail[k - 1];
        }
      }
    }
  }

  // ---------------------------------------------------------------------
  // Weather reply
  // ---------------------------------------------------------------------

  /** `weatherState`; a field the reply lacks becomes `undefined`. */
  datatype WeatherState = WeatherState(tempIndex: Option<real>, windIndex: Option<real>,
                                       rainIndex: Option<real>, mobilityIndex: Option<real>)

  const INITIAL_WEATHER: WeatherState := WeatherState(Some(0.5), Some(0.1), Some(0.0), Some(0.5))

  function Field(reply: map<string, real>, key: string): (v: Option<real>)
    ensures v.Some? <==> key in reply
    ensures v.Some? ==> v.value == reply[key]
  {
    if key in reply then Some(reply[key]) else None
  }

  /** The assignments of `fetchWeatherData`: a failed request or an empty
      (`null`) body keeps the state; otherwise exactly the four index fields
      are copied. */
  function CopyWeather(ws: WeatherState, reply: Option<map<string, real>>): (ws': WeatherState)
    ensures reply.None? ==> ws' == ws
    ensures reply.Some? ==>
      && ws'.tempIndex == Field(reply.value, "tempIndex")
      && ws'.windIndex == Field(reply.value, "windIndex")
      && ws'.rainIndex == Field(reply.value, "rainIndex")
      && ws'.mobilityIndex == Field(reply.value, "mobilityIndex")
  {
    if reply.None? then ws
    else
      var m := reply.value;
      WeatherState(Field(m, "tempIndex"), Field(m, "windIndex"), Field(m, "rainIndex"), Field(m, "mobilityIndex"))
  }

  /** Only the four index keys matter: replies that agree on them give the
      same state, whatever else they carry and whatever the state was. */
  lemma CopyWeatherReadsOnlyIndices(ws1: WeatherState, ws2: WeatherState, a: map<string, real>, b: map<string, real>)
    requires forall k :: k in {"tempIndex", "windIndex", "rainIndex", "mobilityIndex"} ==>
      (k in a <==> k in b) && (k in a ==> a[k] == b[k])
    ensures CopyWeather(ws1, Some(a)) == CopyWeather(ws2, Some(b))
  {
    assert "tempIndex" in {"tempIndex", "windIndex", "rainIndex", "mobilityIndex"};
    assert "windIndex" in {"tempIndex", "windIndex", "rainIndex", "mobilityIndex"};
    assert "rainIndex" in {"tempIndex", "windIndex", "rainIndex", "mobilityIndex"};
    assert "mobilityIndex" in {"tempIndex", "windIndex", "rainIndex", "mobilityIndex"};
  }
}
