/** The biometric data engine of the Express server
    (server/utils/dataNormalizer.js): normalisation, the Barcelona noise
    ordinance periods, the simulated noise/air and congestion metrics, and the
    state record one fetch cycle builds. The clock, `Math.random`, `Math.sin`
    and every HTTP reply are parameters. The polling state machine lives in
    module `Polling`. */
module ServerEngine {
  import opened Common

  // ---------------------------------------------------------------------
  // Normalisation
  // ---------------------------------------------------------------------

  /** What `normalize` receives: a number, or something `typeof`/`isNaN`
      rejects (NaN, `undefined`, a string, `null`). */
  datatype JsValue = Num(n: real) | NotANumber

  /** Linear rescaling of `value` from [min, max] into [0, 1], clamped; a
      non-number yields the mid-scale 0.5. */
  function Normalize(value: JsValue, min: real, max: real): (r: real)
    requires min != max
    ensures value.NotANumber? ==> r == 0.5
    ensures value.Num? && min < max ==> 0.0 <= r <= 1.0
    ensures value.Num? && min < max && value.n <= min ==> r == 0.0
    ensures value.Num? && min < max && value.n >= max ==> r == 1.0
  {
    match value
    case NotANumber => 0.5
    case Num(v) =>
      var norm := (v - min) / (max - min);
      if min < max then
        QuotientBounds(v - min, v - min, max - min);
        Clamp(0.0, 1.0, norm)
      else
        Clamp(0.0, 1.0, norm)
  }

  /** Between the bounds `normalize` never decreases. */
  lemma NormalizeMonotone(a: real, b: real, min: real, max: real)
    requires min < max
    requires a <= b
    ensures Normalize(Num(a), min, max) <= Normalize(Num(b), min, max)
  {
    QuotientBounds(a - min, b - min, max - min);
  }

  /** Strictly inside the bounds the clamp is inactive: `normalize` is the
      linear map that sends min to 0 and max to 1. */
  lemma NormalizeInterior(v: real, min: real, max: real)
    requires min < v < max
    ensures Normalize(Num(v), min, max) * (max - min) == v - min
  {
    QuotientBounds(v - min, v - min, max - min);
    assert (v - min) / (max - min) * (max - min) == v - min;
  }

  // ---------------------------------------------------------------------
  // Noise ordinance periods
  // ---------------------------------------------------------------------

  /** One band of the Barcelona noise ordinance: its hours [start, end), the
      base level and the spread of the simulated noise. */
  datatype NoisePeriod = NoisePeriod(start: int, end: int, baseDb: real, variance: real, tag: string)

  const DAY: NoisePeriod := NoisePeriod(7, 21, 65.0, 15.0, "Ld (Day)")
  const EVENING: NoisePeriod := NoisePeriod(21, 23, 55.0, 10.0, "Le (Evening)")
  const NIGHT: NoisePeriod := NoisePeriod(23, 7, 45.0, 5.0, "Ln (Night)")

  function GetNoisePeriod(hour: int): (p: NoisePeriod)
    ensures p in {DAY, EVENING, NIGHT}
  {
    if DAY.start <= hour < DAY.end then DAY
    else if EVENING.start <= hour < EVENING.end then EVENING
    else NIGHT
  }

  /** The three periods partition the hours of a day: [7,21) is DAY, [21,23)
      is EVENING and every other hour (23 and 0..6) is NIGHT. */
  lemma NoisePeriodPartition(hour: int)
    requires IsHour(hour)
    ensures GetNoisePeriod(hour) == DAY <==> 7 <= hour < 21
    ensures GetNoisePeriod(hour) == EVENING <==> 21 <= hour < 23
    ensures GetNoisePeriod(hour) == NIGHT <==> hour == 23 || hour < 7
  {
  }

  // ---------------------------------------------------------------------
  // Simulated environment
  // ---------------------------------------------------------------------

  /** The frequency bucket reported next to the noise level. */
  datatype Band = LOW | MID | HIGH

  function FrequencyBand(db: real): (b: Band)
    ensures b == HIGH <==> db > 70.0
    ensures b == MID <==> 50.0 < db <= 70.0
    ensures b == LOW <==> db <= 50.0
  {
    if db > 70.0 then HIGH else if db > 50.0 then MID else LOW
  }

  datatype EnvMetrics = EnvMetrics(noiseDb: real, noiseFreq: Band, airQuality: real, periodTag: string)

  /** Simulated noise and particulate level for the hour and a traffic index.
      `rNoise` and `rAir` are the two `Math.random()` draws. */
  function CalculateEnvironmentalMetrics(hour: int, trafficIndex: real, rNoise: real, rAir: real): (m: EnvMetrics)
    ensures 30.0 <= m.noiseDb <= 95.0
    ensures m.noiseFreq == HIGH <==> m.noiseDb > 70.0
    ensures m.noiseFreq == MID <==> 50.0 < m.noiseDb <= 70.0
    ensures m.noiseFreq == LOW <==> m.noiseDb <= 50.0
    ensures m.airQuality >= 5.0
    ensures m.periodTag == GetNoisePeriod(hour).tag
  {
    var period := GetNoisePeriod(hour);
    var trafficNoise := (trafficIndex / 10.0) * 10.0;
    var randomVar := rNoise * period.variance - period.variance / 2.0;
    var db := Clamp(30.0, 95.0, period.baseDb + trafficNoise + randomVar);
    EnvMetrics(db, FrequencyBand(db), Max(5.0, trafficIndex * 4.0 + rAir * 10.0), period.tag)
  }

  /** For a traffic index on the 0..10 congestion scale the [30, 95] clamp
      never acts: the level is the period base plus the traffic plus a spread
      of half the variance either side. */
  lemma NoiseClampInactive(hour: int, trafficIndex: real, rNoise: real, rAir: real)
    requires 0.0 <= trafficIndex <= 10.0
    requires IsRandom(rNoise)
    ensures var p := GetNoisePeriod(hour);
            var db := CalculateEnvironmentalMetrics(hour, trafficIndex, rNoise, rAir).noiseDb;
            && db == p.baseDb + trafficIndex + rNoise * p.variance - p.variance / 2.0
            && p.baseDb - p.variance / 2.0 <= db < p.baseDb + 10.0 + p.variance / 2.0
  {
    var p := GetNoisePeriod(hour);
    assert 0.0 <= rNoise * p.variance < p.variance;
  }

  // ---------------------------------------------------------------------
  // Transport
  // ---------------------------------------------------------------------

  /** The wall clock as `Date` reports it; weekday 0 is Sunday, 6 Saturday. */
  datatype Clock = Clock(hour: int, minute: int, weekday: int)

  predicate ValidClock(c: Clock)
  {
    IsHour(c.hour) && 0 <= c.minute < 60 && 0 <= c.weekday < 7
  }

  function FractionalHour(c: Clock): real
  {
    c.hour as real + c.minute as real / 60.0
  }

  predicate IsWeekend(c: Clock)
  {
    c.weekday == 0 || c.weekday == 6
  }

  /** A triangular rush-hour peak of half-width 2 hours. */
  function Peak(h: real, centre: real): (p: real)
    ensures 0.0 <= p <= 1.0
    ensures p == 1.0 <==> h == centre
  {
    Max(0.0, 1.0 - Abs(h - centre) / 2.0)
  }

  /** Weekday congestion before the TMB modulation: 0.2 plus 0.7 times the
      nearer of the 8:30 and 18:30 peaks. */
  function WeekdayBase(h: real): (b: real)
    ensures 0.2 <= b <= 0.9
  {
    0.2 + 0.7 * Max(Peak(h, 8.5), Peak(h, 18.5))
  }

  /** Weekend congestion; `weekendSine` is the value of
      `Math.sin((hour - 14) / 4)`, which the model does not compute. */
  function WeekendBase(weekendSine: real): real
  {
    0.3 + weekendSine * 0.2
  }

  function BaseCongestion(c: Clock, weekendSine: real): real
  {
    if IsWeekend(c) then WeekendBase(weekendSine) else WeekdayBase(FractionalHour(c))
  }

  /** A positive count of active metro lines pulls the base towards
      `lines / 8` (eight main lines are assumed); no data leaves it alone. */
  function ModulateByLines(base: real, activeLines: nat): real
  {
    if activeLines > 0 then (base + activeLines as real / 8.0) / 2.0 else base
  }

  datatype TransportMetrics = TransportMetrics(congestion: real, flowRhythm: real)

  /** Congestion on the 0..10 scale and the flow rhythm it is ten times of.
      Without line data the flow is the clock's base; with lines it is the
      midpoint between that base and the share of eight lines. */
  function CalculateTransportMetrics(c: Clock, weekendSine: real, activeLines: nat): (t: TransportMetrics)
    ensures t.congestion == 10.0 * t.flowRhythm
    ensures activeLines == 0 ==> t.flowRhythm == BaseCongestion(c, weekendSine)
    ensures activeLines > 0 ==> t.flowRhythm == (BaseCongestion(c, weekendSine) + activeLines as real / 8.0) / 2.0
  {
    var base := ModulateByLines(BaseCongestion(c, weekendSine), activeLines);
    TransportMetrics(base * 10.0, base)
  }

  /** On a weekday without line data congestion lies in [2, 9]. */
  lemma WeekdayCongestionBounds(c: Clock, weekendSine: real)
    requires !IsWeekend(c)
    ensures 2.0 <= CalculateTransportMetrics(c, weekendSine, 0).congestion <= 9.0
  {
  }

  /** The maximum 9 is reached exactly at the peaks, 8:30 and 18:30. */
  lemma WeekdayCongestionPeaks(c: Clock, weekendSine: real)
    requires ValidClock(c) && !IsWeekend(c)
    ensures CalculateTransportMetrics(c, weekendSine, 0).congestion == 9.0
        <==> (c.hour == 8 || c.hour == 18) && c.minute == 30
  {
    var h := FractionalHour(c);
    var m := c.minute as real / 60.0;
    QuotientBounds(c.minute as real, c.minute as real, 60.0);
    assert 0.0 <= m < 1.0;
    if Peak(h, 8.5) == 1.0 {
      assert c.hour as real + m == 8.5;
      assert c.hour == 8;
      assert c.minute == 30;
    } else if Peak(h, 18.5) == 1.0 {
      assert c.hour as real + m == 18.5;
      assert c.hour == 18;
      assert c.minute == 30;
    }
  }

  /** With a sine in [-1, 1] every base lies in [0.1, 0.9], so congestion
      is at least 1 whatever the line count. The code assumes eight lines:
      up to eight, congestion stays in [1, 9.5], within the documented 0..10
      scale. */
  lemma CongestionBounds(c: Clock, weekendSine: real, activeLines: nat)
    requires -1.0 <= weekendSine <= 1.0
    ensures var t := CalculateTransportMetrics(c, weekendSine, activeLines);
            && 1.0 <= t.congestion && 0.1 <= t.flowRhythm
            && (activeLines > 0 ==> t.congestion <= 4.5 + 5.0 * activeLines as real / 8.0)
            && (activeLines <= 8 ==> t.congestion <= 9.5 && t.flowRhythm <= 0.95)
  {
    var base := BaseCongestion(c, weekendSine);
    assert 0.1 <= base <= 0.9;
  }

  /** Nothing bounds the line count, and past eight lines the congestion
      leaves the 0..10 scale: at a weekday rush-hour peak it stays within the
      scale exactly when at most eight lines are reported, and from sixteen
      lines on it exceeds 10 at every hour. */
  lemma CongestionLeavesScale(c: Clock, weekendSine: real, activeLines: nat)
    requires -1.0 <= weekendSine <= 1.0
    ensures ValidClock(c) && !IsWeekend(c) && c.hour == 8 && c.minute == 30 ==>
              (CalculateTransportMetrics(c, weekendSine, activeLines).congestion <= 10.0 <==> activeLines <= 8)
    ensures activeLines >= 16 ==> CalculateTransportMetrics(c, weekendSine, activeLines).congestion > 10.0
  {
    var base := BaseCongestion(c, weekendSine);
    assert 0.1 <= base;
    if ValidClock(c) && !IsWeekend(c) && c.hour == 8 && c.minute == 30 {
      assert FractionalHour(c) == 8.5;
      assert Peak(8.5, 8.5) == 1.0;
      assert base == 0.9;
      if activeLines > 0 {
        assert CalculateTransportMetrics(c, weekendSine, activeLines).congestion
            == 4.5 + 5.0 * activeLines as real / 8.0;
      }
    }
  }

  // ---------------------------------------------------------------------
  // The state record and one fetch cycle
  // ---------------------------------------------------------------------

  datatype Meta = Meta(timestamp: int, period: string, mode: string)

  /** The weather object the local data service returns; the engine stores
      it verbatim. */
  datatype Weather = Weather(temp: real, humidity: real, windSpeed: real, windDir: real,
                             pressure: real, rain: real, description: string)

  datatype Environment = Environment(noiseDb: real, noiseFreq: Band, airQuality: real, lightLevel: real)

  datatype Transport = Transport(congestion: real, activeLines: nat, flowRhythm: real)

  datatype BioState = BioState(meta: Meta, weather: Weather, environment: Environment, transport: Transport)

  /** The state the constructor installs, stamped with the creation time. */
  function InitialState(now: int): (s: BioState)
    ensures s.meta == Meta(now, "Ld", "INIT")
    ensures s.environment.noiseFreq == LOW && s.environment.lightLevel == 0.5
    ensures s.transport == Transport(5.0, 5, 0.5)
  {
    BioState(
      Meta(now, "Ld", "INIT"),
      Weather(20.0, 50.0, 5.0, 0.0, 1013.0, 0.0, "init"),
      Environment(50.0, LOW, 10.0, 0.5),
      Transport(5.0, 5, 0.5))
  }

  /** The TMB line request: not answered, answered without a `features`
      array, or answered with `count` features. */
  datatype TmbReply = TmbFailed | TmbNoFeatures | TmbFeatures(count: nat)

  /** Every outside value one cycle reads, in the order the code reads them.
      `weatherReply` and `lightReply` are `None` when the request rejects;
      those two awaits are not guarded by a `try`. */
  datatype CycleInputs = CycleInputs(
    weatherReply: Option<Weather>,
    hasOwmKey: bool,
    hasTmbAppId: bool,
    tmbReply: TmbReply,
    clock: Clock,
    weekendSine: real,
    rNoise: real,
    rAir: real,
    lightReply: Option<real>,
    now: int)

  /** How a cycle ends: it rejects before the state assignment, or it builds
      a new state and asks for the next cycle after `nextInterval` ms. */
  datatype CycleOutcome = Aborted | Completed(state: BioState, nextInterval: int)

  const NOMINAL_INTERVAL: int := 10 * 60 * 1000

  /** The active-line count the cycle uses: zero without an app id, on a
      failed request, or when the reply has no `features`. */
  function ActiveLines(inp: CycleInputs): nat
  {
    if inp.hasTmbAppId && inp.tmbReply.TmbFeatures? then inp.tmbReply.count else 0
  }

  /** One run of `fetchWeatherData`. A rejected weather or light request
      aborts the cycle; otherwise the whole record is replaced (never merged)
      and the nominal 10-minute interval is requested. */
  function RunCycle(inp: CycleInputs): (o: CycleOutcome)
    ensures o.Aborted? <==> inp.weatherReply.None? || inp.lightReply.None?
    ensures o.Completed? ==>
      && o.nextInterval == NOMINAL_INTERVAL
      && o.state.weather == inp.weatherReply.value
      && o.state.environment.lightLevel == inp.lightReply.value
      && o.state.meta.timestamp == inp.now
      && o.state.meta.mode == (if inp.hasOwmKey then "REAL" else "SIMULATED")
      && o.state.meta.period == GetNoisePeriod(inp.clock.hour).tag
      && var tm := CalculateTransportMetrics(inp.clock, inp.weekendSine, ActiveLines(inp));
         var env := CalculateEnvironmentalMetrics(inp.clock.hour, tm.congestion, inp.rNoise, inp.rAir);
         && o.state.transport == Transport(tm.congestion, ActiveLines(inp), tm.flowRhythm)
         && o.state.environment.noiseDb == env.noiseDb
         && o.state.environment.noiseFreq == env.noiseFreq
         && o.state.environment.airQuality == env.airQuality
  {
    if inp.weatherReply.None? then Aborted
    else
      var lines := ActiveLines(inp);
      var tm := CalculateTransportMetrics(inp.clock, inp.weekendSine, lines);
      var env := CalculateEnvironmentalMetrics(inp.clock.hour, tm.congestion, inp.rNoise, inp.rAir);
      if inp.lightReply.None? then Aborted
      else
        Completed(
          BioState(
            Meta(inp.now, env.periodTag, if inp.hasOwmKey then "REAL" else "SIMULATED"),
            inp.weatherReply.value,
            Environment(env.noiseDb, env.noiseFreq, env.airQuality, inp.lightReply.value),
            Transport(tm.congestion, lines, tm.flowRhythm)),
          NOMINAL_INTERVAL)
  }

  /** In a completed cycle the lower noise clamp never acts, so the stored
      noise is the period base plus the congestion plus the random spread,
      cut at 95 dB. Up to 28 active lines the upper clamp never acts either:
      the noise is exactly that sum. */
  lemma CycleNoiseUnclamped(inp: CycleInputs)
    requires inp.weatherReply.Some? && inp.lightReply.Some?
    requires -1.0 <= inp.weekendSine <= 1.0
    requires IsRandom(inp.rNoise)
    ensures var s := RunCycle(inp).state;
            var p := GetNoisePeriod(inp.clock.hour);
            var raw := p.baseDb + s.transport.congestion + inp.rNoise * p.variance - p.variance / 2.0;
            && s.environment.noiseDb == Min(95.0, raw)
            && (ActiveLines(inp) <= 28 ==> s.environment.noiseDb == raw)
  {
    var lines := ActiveLines(inp);
    var tm := CalculateTransportMetrics(inp.clock, inp.weekendSine, lines);
    var p := GetNoisePeriod(inp.clock.hour);
    CongestionBounds(inp.clock, inp.weekendSine, lines);
    assert 0.0 <= inp.rNoise * p.variance < p.variance;
    var raw := p.baseDb + tm.congestion + inp.rNoise * p.variance - p.variance / 2.0;
    assert raw >= 30.0;
    if lines <= 28 {
      assert tm.congestion <= 22.5;
      assert raw < 95.0;
    }
  }

  /** `getCurrentState` hands out a copy whose fields equal the engine's. */
  function GetCurrentState(s: BioState): (copy: BioState)
    ensures copy.meta == s.meta && copy.weather == s.weather
    ensures copy.environment == s.environment && copy.transport == s.transport
  {
    BioState(s.meta, s.weather, s.environment, s.transport)
  }
}
