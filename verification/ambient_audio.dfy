/** The ambient audio engine of the static front end
    (public/js/audio/AudioEngine.js): the start guard, the bus-arrival
    cooldown, the idempotent glitch switch, the reaction to weather data, the
    ambience chord cycle and `mapRange`. `Date.now()` is a parameter; the
    Tone.js synths and ramps are not modelled. */
module AmbientAudio {
  import opened Common
  import BA = BiometricAudio

  const BUS_COOLDOWN_MS: int := 2000
  const GLITCH_WET: real := 0.7

  datatype Engine = Engine(isStarted: bool, glitchActive: bool, lastBusTrigger: int)

  /** The constructor: stopped, no glitch, no trigger yet (time 0). */
  const INITIAL: Engine := Engine(false, false, 0)

  /** `start`: a no-op once started; otherwise starts when `Tone.start()`
      resolves. */
  function Start(e: Engine, toneStarted: bool): (e': Engine)
    ensures e.isStarted ==> e' == e
    ensures !e.isStarted ==> e' == e.(isStarted := toneStarted)
  {
    if e.isStarted then e else e.(isStarted := toneStarted)
  }

  // ---------------------------------------------------------------------
  // Bus arrival cooldown
  // ---------------------------------------------------------------------

  datatype Trigger = Trigger(engine: Engine, fired: bool)

  /** `triggerBusArrival` at time `now`: fires only when started and at least
      two seconds after the last accepted trigger; only a firing trigger moves
      `lastBusTrigger`. */
  function TriggerBusArrival(e: Engine, now: int): (t: Trigger)
    ensures t.fired <==> e.isStarted && now - e.lastBusTrigger >= BUS_COOLDOWN_MS
    ensures t.fired ==> t.engine == e.(lastBusTrigger := now)
    ensures !t.fired ==> t.engine == e
  {
    if !e.isStarted then Trigger(e, false)
    else if now - e.lastBusTrigger < BUS_COOLDOWN_MS then Trigger(e, false)
    else Trigger(e.(lastBusTrigger := now), true)
  }

  /** The engine after a sequence of trigger attempts. */
  function TriggerAll(e: Engine, times: seq<int>): Engine
    decreases |times|
  {
    if |times| == 0 then e else TriggerAll(TriggerBusArrival(e, times[0]).engine, times[1..])
  }

  /** The times at which the attempts fired, in order. */
  function FiredTimes(e: Engine, times: seq<int>): seq<int>
    decreases |times|
  {
    if |times| == 0 then []
    else
      var t := TriggerBusArrival(e, times[0]);
      (if t.fired then [times[0]] else []) + FiredTimes(t.engine, times[1..])
  }

  /** Whatever the attempt times, accepted triggers are at least two seconds
      apart (and the first at least two seconds after the last one before). */
  lemma {:induction false} FiredTimesSpaced(e: Engine, times: seq<int>)
    ensures var f := FiredTimes(e, times);
            && (|f| > 0 ==> f[0] >= e.lastBusTrigger + BUS_COOLDOWN_MS)
            && forall i :: 0 <= i < |f| - 1 ==> f[i + 1] >= f[i] + BUS_COOLDOWN_MS
    decreases |times|
  {
    if |times| > 0 {
      var t := TriggerBusArrival(e, times[0]);
      FiredTimesSpaced(t.engine, times[1..]);
      var rest := FiredTimes(t.engine, times[1..]);
      if t.fired {
        assert FiredTimes(e, times) == [times[0]] + rest;
      } else {
        assert FiredTimes(e, times) == rest;
      }
    }
  }

  /** Before `start` nothing ever fires. */
  lemma {:induction false} NothingFiresBeforeStart(e: Engine, times: seq<int>)
    requires !e.isStarted
    ensures FiredTimes(e, times) == []
    decreases |times|
  {
    if |times| > 0 {
      NothingFiresBeforeStart(e, times[1..]);
    }
  }

  // ---------------------------------------------------------------------
  // Glitch mode
  // ---------------------------------------------------------------------

  /** The engine after the call, and the crusher wet target it ramps to (if
      any). */
  datatype Glitch = Glitch(engine: Engine, wetTarget: Option<real>)

  /** `setGlitchMode`: ignored when stopped or when the mode is unchanged;
      otherwise switches and ramps the crusher to 0.7 (on) or 0 (off). */
  function SetGlitchMode(e: Engine, isActive: bool): (g: Glitch)
    ensures !e.isStarted || e.glitchActive == isActive ==> g == Glitch(e, None)
    ensures e.isStarted && e.glitchActive != isActive ==>
      g.engine == e.(glitchActive := isActive) && g.wetTarget == Some(if isActive then GLITCH_WET else 0.0)
  {
    if !e.isStarted || e.glitchActive == isActive then Glitch(e, None)
    else Glitch(e.(glitchActive := isActive), Some(if isActive then GLITCH_WET else 0.0))
  }

  /** Asking for the same mode twice acts once. */
  lemma SetGlitchModeIdempotent(e: Engine, isActive: bool)
    ensures var g := SetGlitchMode(e, isActive);
            SetGlitchMode(g.engine, isActive) == Glitch(g.engine, None)
  {
  }

  // ---------------------------------------------------------------------
  // `updateFromData`
  // ---------------------------------------------------------------------

  /** The fields `updateFromData` reads; any may be absent (`undefined`). */
  datatype Reading = Reading(temp: Option<real>, humidity: Option<real>, bikeActivity: Option<real>)

  /** `humidity > 80`; an absent humidity compares false. */
  predicate ShouldGlitch(humidity: Option<real>)
  {
    humidity.Some? && humidity.value > 80.0
  }

  /** The outcome of one update: the engine, the filter frequency (`None`
      when the temperature is absent and the map yields NaN), the crusher
      ramp, and the pad volume (only for a numeric bike activity). */
  datatype DataUpdate = DataUpdate(engine: Engine, filterFreq: Option<real>, wetTarget: Option<real>,
                                   padVolume: Option<real>)

  function UpdateFromData(e: Engine, data: Option<Reading>): (u: DataUpdate)
    ensures !e.isStarted || data.None? ==> u == DataUpdate(e, None, None, None)
    ensures e.isStarted && data.Some? ==>
      && u.engine.glitchActive == ShouldGlitch(data.value.humidity)
      && u.engine.lastBusTrigger == e.lastBusTrigger
      && (u.wetTarget.Some? <==> e.glitchActive != ShouldGlitch(data.value.humidity))
      && (u.padVolume.Some? <==> data.value.bikeActivity.Some?)
      && (u.filterFreq.Some? <==> data.value.temp.Some?)
  {
    if !e.isStarted || data.None? then DataUpdate(e, None, None, None)
    else
      var d := data.value;
      var filterFreq := if d.temp.Some? then Some(MapRange(d.temp.value, 0.0, 40.0, 200.0, 3000.0)) else None;
      var g := SetGlitchMode(e, ShouldGlitch(d.humidity));
      var padVolume := if d.bikeActivity.Some? then Some(MapRange(d.bikeActivity.value, 0.0, 500.0, -20.0, -10.0)) else None;
      DataUpdate(g.engine, filterFreq, g.wetTarget, padVolume)
  }

  /** The number of crusher ramps a sequence of readings causes. */
  function Toggles(e: Engine, readings: seq<Reading>): nat
    decreases |readings|
  {
    if |readings| == 0 then 0
    else
      var u := UpdateFromData(e, Some(readings[0]));
      (if u.wetTarget.Some? then 1 else 0) + Toggles(u.engine, readings[1..])
  }

  /** Readings that all stay on one side of 80% humidity toggle the glitch at
      most once. */
  lemma {:induction false} OneSideTogglesAtMostOnce(e: Engine, readings: seq<Reading>, side: bool)
    requires forall i :: 0 <= i < |readings| ==> ShouldGlitch(readings[i].humidity) == side
    ensures Toggles(e, readings) <= 1
    ensures e.glitchActive == side ==> Toggles(e, readings) == 0
    decreases |readings|
  {
    if |readings| > 0 {
      var u := UpdateFromData(e, Some(readings[0]));
      assert forall i :: 0 <= i < |readings[1..]| ==> readings[1..][i] == readings[i + 1];
      OneSideTogglesAtMostOnce(u.engine, readings[1..], side);
      assert e.isStarted ==> u.engine.glitchActive == side;
      assert !e.isStarted ==> u.engine == e && u.wetTarget.None?;
    }
  }

  // ---------------------------------------------------------------------
  // Ambience chord cycle
  // ---------------------------------------------------------------------

  const CHORDS: seq<seq<string>> := [
    ["C3", "E3", "G3", "B3"],
    ["D3", "F3", "A3", "C4"],
    ["F3", "A3", "C4", "E4"],
    ["G3", "B3", "D4", "F4"]
  ]

  /** The 8-second interval callback: plays the current chord and advances
      the index modulo four; does nothing while stopped. */
  datatype AmbienceTick = AmbienceTick(chord: Option<seq<string>>, nextIndex: nat)

  function AmbienceStep(e: Engine, index: nat): (t: AmbienceTick)
    requires index < |CHORDS|
    ensures t.nextIndex < |CHORDS|
    ensures !e.isStarted ==> t == AmbienceTick(None, index)
    ensures e.isStarted ==> t.chord == Some(CHORDS[index])
  {
    if !e.isStarted then AmbienceTick(None, index)
    else AmbienceTick(Some(CHORDS[index]), (index + 1) % |CHORDS|)
  }

  /** The chords played by `k` ticks of a started engine from index 0. */
  function PlayedChords(e: Engine, index: nat, k: nat): seq<seq<string>>
    requires e.isStarted && index < |CHORDS|
    decreases k
  {
    if k == 0 then []
    else
      var t := AmbienceStep(e, index);
      [t.chord.value] + PlayedChords(e, t.nextIndex, k - 1)
  }

  /** The ambience cycles through the four chords in order: tick `j` plays
      chord `(start + j) mod 4`. */
  lemma {:induction false} ChordCycle(e: Engine, index: nat, k: nat)
    requires e.isStarted && index < |CHORDS|
    ensures |PlayedChords(e, index, k)| == k
    ensures forall j :: 0 <= j < k ==> PlayedChords(e, index, k)[j] == CHORDS[(index + j) % 4]
    decreases k
  {
    if k > 0 {
      var next := (index + 1) % 4;
      ChordCycle(e, next, k - 1);
      var rest := PlayedChords(e, next, k - 1);
      assert PlayedChords(e, index, k) == [CHORDS[index]] + rest;
      forall j | 1 <= j < k
        ensures PlayedChords(e, index, k)[j] == CHORDS[(index + j) % 4]
      {
        assert rest[j - 1] == CHORDS[(next + (j - 1)) % 4];
        assert (next + (j - 1)) % 4 == (index + j) % 4;
      }
    }
  }

  // ---------------------------------------------------------------------
  // `mapRange`
  // ---------------------------------------------------------------------

  /** `mapRange`: the linear map sending [inMin, inMax] onto [outMin, outMax],
      unclamped; an ordered input inside its range lands inside the output
      range. */
  function MapRange(value: real, inMin: real, inMax: real, outMin: real, outMax: real): (r: real)
    requires inMin != inMax
    ensures (r - outMin) * (inMax - inMin) == (outMax - outMin) * (value - inMin)
    ensures inMin < inMax && outMin <= outMax && inMin <= value <= inMax ==> outMin <= r <= outMax
  {
    var r := outMin + ((outMax - outMin) * (value - inMin)) / (inMax - inMin);
    if inMin < inMax && outMin <= outMax && inMin <= value <= inMax then
      var t := (value - inMin) / (inMax - inMin);
      QuotientBounds(value - inMin, inMax - inMin, inMax - inMin);
      assert 0.0 <= t <= 1.0;
      assert ((outMax - outMin) * (value - inMin)) / (inMax - inMin) == (outMax - outMin) * t;
      r
    else
      r
  }

  /** `mapRange` sends the input bounds to the output bounds and agrees with
      the unclamped `map` of the biometric engine everywhere. */
  lemma MapRangeAgreesWithMap(value: real, inMin: real, inMax: real, outMin: real, outMax: real)
    requires inMin != inMax
    ensures MapRange(value, inMin, inMax, outMin, outMax) == BA.Map(value, inMin, inMax, outMin, outMax, false)
    ensures MapRange(inMin, inMin, inMax, outMin, outMax) == outMin
    ensures MapRange(inMax, inMin, inMax, outMin, outMax) == outMax
  {
    assert (outMax - outMin) * (value - inMin) == (value - inMin) * (outMax - outMin);
    BA.MapEndpoints(inMin, inMax, outMin, outMax);
    assert (outMax - outMin) * (inMax - inMin) == (inMax - inMin) * (outMax - outMin);
  }
}
