/** The biometric audio engine of the Vite front end
    (src/systems/AudioEngine.js): the start guard, emotion-driven chord
    selection, the mapping of the state record onto effect targets, and its
    `map` helper with its clamp quirk. Tone.js synthesis, ramps and the
    transport are left to the library; this module computes the values the
    engine hands to them. */
module BiometricAudio {
  import opened Common
  import opened Emotions

  // ---------------------------------------------------------------------
  // `map`
  // ---------------------------------------------------------------------

  /** Linear map of [inMin, inMax] onto [outMin, outMax]; with `clamp` the
      result goes through `Math.max(outMin, Math.min(outMax, ·))`. */
  function Map(value: real, inMin: real, inMax: real, outMin: real, outMax: real, clamp: bool): (r: real)
    requires inMin != inMax
    ensures clamp && outMin <= outMax ==> outMin <= r <= outMax
    ensures clamp && outMin > outMax ==> r == outMin
  {
    var mapped := (value - inMin) * (outMax - outMin) / (inMax - inMin) + outMin;
    if clamp then Clamp(outMin, outMax, mapped) else mapped
  }

  /** The unclamped map sends the input bounds to the output bounds. */
  lemma MapEndpoints(inMin: real, inMax: real, outMin: real, outMax: real)
    requires inMin != inMax
    ensures Map(inMin, inMin, inMax, outMin, outMax, false) == outMin
    ensures Map(inMax, inMin, inMax, outMin, outMax, false) == outMax
  {
    assert (inMax - inMin) * (outMax - outMin) / (inMax - inMin) == outMax - outMin;
  }

  /** The unclamped map is affine: it maps midpoints to midpoints. */
  lemma MapMidpoint(a: real, b: real, inMin: real, inMax: real, outMin: real, outMax: real)
    requires inMin != inMax
    ensures Map((a + b) / 2.0, inMin, inMax, outMin, outMax, false)
         == (Map(a, inMin, inMax, outMin, outMax, false) + Map(b, inMin, inMax, outMin, outMax, false)) / 2.0
  {
    var k := (outMax - outMin) / (inMax - inMin);
    MapSlope(a, inMin, inMax, outMin, outMax);
    MapSlope(b, inMin, inMax, outMin, outMax);
    MapSlope((a + b) / 2.0, inMin, inMax, outMin, outMax);
    assert ((a + b) / 2.0 - inMin) * k == ((a - inMin) * k + (b - inMin) * k) / 2.0;
  }

  /** The unclamped map as slope times offset plus intercept. */
  lemma MapSlope(v: real, inMin: real, inMax: real, outMin: real, outMax: real)
    requires inMin != inMax
    ensures Map(v, inMin, inMax, outMin, outMax, false)
         == (v - inMin) * ((outMax - outMin) / (inMax - inMin)) + outMin
  {
    var d := inMax - inMin;
    var k := (outMax - outMin) / d;
    assert k * d == outMax - outMin;
    var q := (v - inMin) * (outMax - outMin) / d;
    assert q * d == (v - inMin) * (outMax - outMin);
    assert (v - inMin) * k * d == (v - inMin) * (outMax - outMin);
    assert (q - (v - inMin) * k) * d == 0.0;
  }

  /** With `clamp` and an ordered output range, values whose unclamped image
      lies in range pass through unchanged. */
  lemma MapClampTransparent(value: real, inMin: real, inMax: real, outMin: real, outMax: real)
    requires inMin != inMax
    requires outMin <= Map(value, inMin, inMax, outMin, outMax, false) <= outMax
    ensures Map(value, inMin, inMax, outMin, outMax, true) == Map(value, inMin, inMax, outMin, outMax, false)
  {
  }

  /** The bit-depth map runs from 8 down to 3, so with `clamp` the inverted
      range makes it 8 for every CO2 level. */
  lemma BitDepthIsAlwaysEight(co2: real)
    ensures Map(co2, 400.0, 1200.0, 8.0, 3.0, true) == 8.0
  {
  }

  // ---------------------------------------------------------------------
  // Engine state and chords
  // ---------------------------------------------------------------------

  datatype Engine = Engine(isStarted: bool, currentEmotion: string)

  /** The constructor: stopped, emotion "NEUTRAL". */
  const INITIAL: Engine := Engine(false, NEUTRAL)

  /** `start`: a no-op once started; otherwise the engine starts when
      `Tone.start()` resolves and stays stopped when it rejects. */
  function Start(e: Engine, toneStarted: bool): (e': Engine)
    ensures e.isStarted ==> e' == e
    ensures !e.isStarted ==> e'.isStarted == toneStarted
    ensures e'.currentEmotion == e.currentEmotion
  {
    if e.isStarted then e else e.(isStarted := toneStarted)
  }

  lemma StartIdempotent(e: Engine, t1: bool, t2: bool)
    ensures Start(Start(e, true), t2) == Start(e, true)
    ensures Start(Start(e, t1), t2).currentEmotion == e.currentEmotion
  {
  }

  const ANGER_CHORD: seq<string> := ["C3", "C#3", "F#3", "G3"]
  const ANXIETY_CHORD: seq<string> := ["D3", "F3", "G#3", "B3"]
  const GRIEF_CHORD: seq<string> := ["A2", "C3", "E3", "G3"]
  const HOPE_CHORD: seq<string> := ["C3", "E3", "G3", "B3"]

  /** The pad chord for an emotion label. */
  function ChordFor(emotion: string): (chord: seq<string>)
    ensures |chord| == 4
    ensures emotion == URBAN_ANGER ==> chord == ANGER_CHORD
    ensures emotion == ECO_ANXIETY ==> chord == ANXIETY_CHORD
    ensures emotion == SOLASTALGIA ==> chord == GRIEF_CHORD
    ensures emotion !in {URBAN_ANGER, ECO_ANXIETY, SOLASTALGIA} ==> chord == HOPE_CHORD
  {
    match MoodOf(emotion)
    case Anger => ANGER_CHORD
    case Anxiety => ANXIETY_CHORD
    case Grief => GRIEF_CHORD
    case Hope => HOPE_CHORD
  }

  /** The four chords are pairwise different, so the chord identifies the mood. */
  lemma ChordsDistinguishMoods(a: string, b: string)
    ensures ChordFor(a) == ChordFor(b) <==> MoodOf(a) == MoodOf(b)
  {
    assert ANGER_CHORD[1] != ANXIETY_CHORD[1] && ANGER_CHORD[1] != GRIEF_CHORD[1] && ANGER_CHORD[1] != HOPE_CHORD[1];
    assert ANXIETY_CHORD[0] != GRIEF_CHORD[0] && ANXIETY_CHORD[0] != HOPE_CHORD[0];
    assert GRIEF_CHORD[0] != HOPE_CHORD[0];
  }

  /** What one loop tick triggers: the pad chord (if played), the membrane
      pulse and the low drone. */
  datatype Tick = Tick(pad: Option<seq<string>>, pulse: bool, drone: bool)

  /** `playGenerativeChord`. `rPulse` and `rPad` are the two random draws and
      `bpm` the current transport tempo; the pad probability falls linearly
      from 0.8 at 60 bpm to 0.3 at 140 bpm (unclamped). */
  function PlayGenerativeChord(e: Engine, bpm: real, rPulse: real, rPad: real): (t: Tick)
    ensures !e.isStarted ==> t == Tick(None, false, false)
    ensures t.pad.Some? ==> e.isStarted && t.pad.value == ChordFor(e.currentEmotion)
    ensures t.pulse <==> e.isStarted && e.currentEmotion == URBAN_ANGER && rPulse > 0.3
    ensures t.drone <==> e.isStarted && e.currentEmotion == SOLASTALGIA
  {
    if !e.isStarted then Tick(None, false, false)
    else
      var mood := MoodOf(e.currentEmotion);
      var padProbability := Map(bpm, 60.0, 140.0, 0.8, 0.3, false);
      Tick(if rPad < padProbability then Some(ChordFor(e.currentEmotion)) else None,
           mood == Anger && rPulse > 0.3,
           mood == Grief)
  }

  // ---------------------------------------------------------------------
  // `updateFromState`
  // ---------------------------------------------------------------------

  /** The fields of the state record the engine reads. */
  datatype Snapshot = Snapshot(emotion: Option<string>, lightLevel: real, co2: real, noiseDb: real,
                               congestion: real, humidity: real)

  /** The effect targets one update hands to Tone.js. */
  datatype Targets = Targets(cutoff: real, crushWet: real, bits: real, distWet: real,
                             pulseVolume: real, bpm: real, reverbWet: real)

  datatype Update = Update(engine: Engine, targets: Option<Targets>)

  function UpdateFromState(e: Engine, s: Option<Snapshot>): (u: Update)
    ensures !e.isStarted || s.None? ==> u == Update(e, None)
    ensures e.isStarted && s.Some? ==>
      && u.engine.isStarted
      && u.engine.currentEmotion == LabelOr(s.value.emotion, NEUTRAL)
      && u.targets.Some?
      && 0.0 <= u.targets.value.crushWet <= 0.8
      && u.targets.value.bits == 8.0
      && 0.0 <= u.targets.value.distWet <= 0.6
      && -20.0 <= u.targets.value.pulseVolume <= -2.0
      && 60.0 <= u.targets.value.bpm <= 140.0
  {
    if !e.isStarted || s.None? then Update(e, None)
    else
      var st := s.value;
      var targets := Targets(
        Map(st.lightLevel, 0.0, 1.0, 200.0, 8000.0, false),
        Map(st.co2, 400.0, 1200.0, 0.0, 0.8, true),
        Map(st.co2, 400.0, 1200.0, 8.0, 3.0, true),
        Map(st.noiseDb, 40.0, 90.0, 0.0, 0.6, true),
        Map(st.noiseDb, 40.0, 90.0, -20.0, -2.0, true),
        Map(st.congestion, 0.0, 10.0, 60.0, 140.0, true),
        Map(st.humidity, 0.0, 100.0, 0.2, 0.8, false));
      Update(e.(currentEmotion := LabelOr(st.emotion, NEUTRAL)), Some(targets))
  }

  /** A missing or empty label in the record resets the engine to "NEUTRAL",
      whose chord is the hope chord. */
  lemma MissingEmotionPlaysHope(e: Engine, s: Snapshot)
    requires e.isStarted
    requires s.emotion.None? || s.emotion == Some("")
    ensures UpdateFromState(e, Some(s)).engine.currentEmotion == NEUTRAL
    ensures ChordFor(UpdateFromState(e, Some(s)).engine.currentEmotion) == HOPE_CHORD
  {
  }
}
