/** The face-mirror prototype (_archive/prototypes/in-transit-000/in-transit/js/app.js):
    the ASCII face chosen from the city readings, the capped list of orbital
    particles, and the padded bounding box around the tracked face. The
    camera, the face mesh model and drawing are not modelled. */
module FaceProto {
  import opened Common

  // ---------------------------------------------------------------------
  // ASCII faces
  // ---------------------------------------------------------------------

  datatype Face = Cold | Neutral | Warm | Hot | Polluted | Noisy | Stressed

  /** The `asciiFaces` table: every face has a text of at least five
      characters, and `FaceTextsDistinct` shows no two faces share one. */
  function FaceText(f: Face): (t: string)
    ensures |t| >= 5
  {
    match f
    case Cold => "( '–' )"
    case Neutral => "( •_• )"
    case Warm => "( ◕‿◕ )"
    case Hot => "(🔥‿🔥)"
    case Polluted => "( -_- )"
    case Noisy => "( >_< )"
    case Stressed => "(╯°□°）╯"
  }

  /** Every face is told apart by its text. */
  lemma FaceTextsDistinct(f: Face, g: Face)
    ensures FaceText(f) == FaceText(g) <==> f == g
  {
    if f != g {
      assert FaceText(f)[2] != FaceText(g)[2];
    }
  }

  /** The readings `getAsciiFace` consults. */
  datatype Readings = Readings(temp: real, co2: real, noiseDb: real, congestion: real)

  /** The prototype's default `data` before any load. */
  const DEFAULT_READINGS: Readings := Readings(20.0, 400.0, 45.0, 5.0)

  /** First match wins: cold, hot, polluted, noisy, stressed, else neutral. */
  function GetAsciiFace(d: Readings): (f: Face)
    ensures f == Cold <==> d.temp < 10.0
    ensures f == Hot <==> !(d.temp < 10.0) && d.temp > 30.0
    ensures f == Polluted <==> 10.0 <= d.temp <= 30.0 && d.co2 > 800.0
    ensures f == Noisy <==> 10.0 <= d.temp <= 30.0 && d.co2 <= 800.0 && d.noiseDb > 75.0
    ensures f == Stressed <==> 10.0 <= d.temp <= 30.0 && d.co2 <= 800.0 && d.noiseDb <= 75.0 && d.congestion > 7.0
    ensures f == Neutral <==> 10.0 <= d.temp <= 30.0 && d.co2 <= 800.0 && d.noiseDb <= 75.0 && d.congestion <= 7.0
  {
    if d.temp < 10.0 then Cold
    else if d.temp > 30.0 then Hot
    else if d.co2 > 800.0 then Polluted
    else if d.noiseDb > 75.0 then Noisy
    else if d.congestion > 7.0 then Stressed
    else Neutral
  }

  /** The warm face is defined but no reading selects it, and the default
      readings show the neutral face. */
  lemma WarmIsUnreachable(d: Readings)
    ensures GetAsciiFace(d) != Warm
    ensures GetAsciiFace(DEFAULT_READINGS) == Neutral
  {
  }

  /** Temperature overrides everything: a cold or hot reading shows its face
      whatever the pollution, noise and traffic. */
  lemma TemperatureTakesPriority(d: Readings, co2: real, noiseDb: real, congestion: real)
    ensures d.temp < 10.0 || d.temp > 30.0 ==>
      GetAsciiFace(d) == GetAsciiFace(Readings(d.temp, co2, noiseDb, congestion))
  {
  }

  // ---------------------------------------------------------------------
  // Orbital particles
  // ---------------------------------------------------------------------

  const PARTICLE_CAP: nat := 800

  /** How many particles one frame spawns: `floor(map(noiseDb, 40, 90, 10,
      60))`, i.e. `floor(noiseDb - 30)`; a non-positive count spawns none. */
  function SpawnCount(noiseDb: real): (n: nat)
    ensures n as real <= Max(0.0, noiseDb - 30.0) < n as real + 1.0
  {
    var amount := P5Map(noiseDb, 40.0, 90.0, 10.0, 60.0, false).Floor;
    assert P5Map(noiseDb, 40.0, 90.0, 10.0, 60.0, false) == noiseDb - 30.0;
    if amount < 0 then 0 else amount
  }

  /** `spawnParticles`: append the new particles, then splice the oldest
      away until at most 800 remain. */
  function SpawnParticles<T>(particles: seq<T>, spawned: seq<T>): (r: seq<T>)
    ensures |r| == if |particles| + |spawned| > PARTICLE_CAP then PARTICLE_CAP else |particles| + |spawned|
    ensures r == (particles + spawned)[|particles| + |spawned| - |r|..]
  {
    var all := particles + spawned;
    if |all| > PARTICLE_CAP then all[|all| - PARTICLE_CAP..] else all
  }

  /** Over any sequence of frames the list never exceeds the cap, and the
      newest spawned particles are the last ones kept. */
  lemma {:induction false} CapHolds<T>(particles: seq<T>, frames: seq<seq<T>>)
    requires |particles| <= PARTICLE_CAP
    ensures |SpawnAll(particles, frames)| <= PARTICLE_CAP
    ensures |frames| > 0 && |frames[|frames| - 1]| <= PARTICLE_CAP ==>
      var r := SpawnAll(particles, frames);
      var last := frames[|frames| - 1];
      |last| <= |r| && r[|r| - |last|..] == last
    decreases |frames|
  {
    if |frames| > 0 {
      var init := frames[..|frames| - 1];
      var last := frames[|frames| - 1];
      assert frames == init + [last];
      CapHolds(particles, init);
      var before := SpawnAll(particles, init);
      assert SpawnAll(particles, frames) == SpawnParticles(before, last) by {
        SpawnAllSnoc(particles, init, last);
      }
      var r := SpawnParticles(before, last);
      if |last| <= PARTICLE_CAP {
        var all := before + last;
        assert r == all[|all| - |r|..];
        assert r[|r| - |last|..] == all[|all| - |last|..];
        assert all[|all| - |last|..] == last;
      }
    }
  }

  /** The particle list after a sequence of frames. */
  function SpawnAll<T>(particles: seq<T>, frames: seq<seq<T>>): seq<T>
    decreases |frames|
  {
    if |frames| == 0 then particles else SpawnAll(SpawnParticles(particles, frames[0]), frames[1..])
  }

  lemma {:induction false} SpawnAllSnoc<T>(particles: seq<T>, frames: seq<seq<T>>, last: seq<T>)
    ensures SpawnAll(particles, frames + [last]) == SpawnParticles(SpawnAll(particles, frames), last)
    decreases |frames|
  {
    if |frames| == 0 {
      assert frames + [last] == [last];
      assert [last][1..] == [];
    } else {
      assert (frames + [last])[1..] == frames[1..] + [last];
      SpawnAllSnoc(SpawnParticles(particles, frames[0]), frames[1..], last);
    }
  }

  // ---------------------------------------------------------------------
  // Bounding box
  // ---------------------------------------------------------------------

  datatype Point = Point(x: real, y: real)
  datatype Box = Box(x: real, y: real, w: real, h: real)

  const PADDING: real := 50.0

  /** `getBoundingBox`: the extremes start at the canvas size (minimum) and
      0 (maximum), so points outside the canvas do not move them past it;
      the box is then padded by 50 on every side. */
  method GetBoundingBox(face: seq<Point>, width: real, height: real) returns (b: Box)
    ensures forall i :: 0 <= i < |face| ==>
      b.x + PADDING <= face[i].x <= b.x + b.w - PADDING && b.y + PADDING <= face[i].y <= b.y + b.h - PADDING
    ensures b.x + PADDING <= width && b.y + PADDING <= height
    ensures b.x + b.w - PADDING >= 0.0 && b.y + b.h - PADDING >= 0.0
    ensures (exists i :: 0 <= i < |face| && face[i].x == b.x + PADDING) || b.x + PADDING == width
    ensures (exists i :: 0 <= i < |face| && face[i].x == b.x + b.w - PADDING) || b.x + b.w - PADDING == 0.0
    ensures (exists i :: 0 <= i < |face| && face[i].y == b.y + PADDING) || b.y + PADDING == height
    ensures (exists i :: 0 <= i < |face| && face[i].y == b.y + b.h - PADDING) || b.y + b.h - PADDING == 0.0
    ensures |face| > 0 && (forall i :: 0 <= i < |face| ==> 0.0 <= face[i].x <= width && 0.0 <= face[i].y <= height) ==>
      && (exists i :: 0 <= i < |face| && face[i].x == b.x + PADDING)
      && (exists i :: 0 <= i < |face| && face[i].x == b.x + b.w - PADDING)
      && (exists i :: 0 <= i < |face| && face[i].y == b.y + PADDING)
      && (exists i :: 0 <= i < |face| && face[i].y == b.y + b.h - PADDING)
  {
    var minX, minY, maxX, maxY := width, height, 0.0, 0.0;
    var i := 0;
    while i < |face|
      invariant 0 <= i <= |face|
      invariant minX <= width && minY <= height && maxX >= 0.0 && maxY >= 0.0
      invariant forall j :: 0 <= j < i ==> minX <= face[j].x <= maxX && minY <= face[j].y <= maxY
      invariant (exists j :: 0 <= j < i && face[j].x == minX) || minX == width
      invariant (exists j :: 0 <= j < i && face[j].x == maxX) || maxX == 0.0
      invariant (exists j :: 0 <= j < i && face[j].y == minY) || minY == height
      invariant (exists j :: 0 <= j < i && face[j].y == maxY) || maxY == 0.0
    {
      minX := Min(minX, face[i].x);
      maxX := Max(maxX, face[i].x);
      minY := Min(minY, face[i].y);
      maxY := Max(maxY, face[i].y);
      i := i + 1;
    }
    b := Box(minX - PADDING, minY - PADDING, maxX - minX + PADDING * 2.0, maxY - minY + PADDING * 2.0);
    if |face| > 0 && (forall i :: 0 <= i < |face| ==> 0.0 <= face[i].x <= width && 0.0 <= face[i].y <= height) {
      // A point on the canvas pins an extreme that still has its initial value.
      if minX == width {
        assert face[0].x == minX;
      }
      if maxX == 0.0 {
        assert face[0].x == maxX;
      }
      if minY == height {
        assert face[0].y == minY;
      }
      if maxY == 0.0 {
        assert face[0].y == maxY;
      }
    }
  }
}
