/** The older data engine (backend/services/dataNormalizer.js): four 0..1
    indices fed by OpenWeatherMap and a simulated hour-band mobility factor.
    The API key, the HTTP reply, the hour and `Math.random` are parameters. */
module BackendEngine {
  import opened Common

  /** The engine's state: four indices and the time of the last update. */
  datatype State = State(tempIndex: real, windIndex: real, rainIndex: real, mobilityIndex: real, timestamp: int)

  const TEMP_MIN: real := -5.0
  const TEMP_MAX: real := 35.0
  const WIND_MIN: real := 0.0
  const WIND_MAX: real := 50.0

  /** The state the constructor installs, used while the API is unreachable. */
  function InitialState(now: int): (s: State)
    ensures s.tempIndex == 0.5 && s.windIndex == 0.1 && s.rainIndex == 0.0
    ensures s.mobilityIndex == 0.5 && s.timestamp == now
  {
    State(0.5, 0.1, 0.0, 0.5, now)
  }

  /** Linear rescaling into [0, 1] with a clamp; unlike the server version it
      has no guard against non-numbers. */
  function Normalize(value: real, min: real, max: real): (r: real)
    requires min != max
    ensures min < max ==> 0.0 <= r <= 1.0
    ensures min < max && value <= min ==> r == 0.0
    ensures min < max && value >= max ==> r == 1.0
  {
    var norm := (value - min) / (max - min);
    if min < max then
      QuotientBounds(value - min, value - min, max - min);
      Clamp(0.0, 1.0, norm)
    else
      Clamp(0.0, 1.0, norm)
  }

  /** Strictly between the bounds the clamp is inactive. */
  lemma NormalizeInterior(value: real, min: real, max: real)
    requires min < value < max
    ensures Normalize(value, min, max) * (max - min) == value - min
  {
    QuotientBounds(value - min, value - min, max - min);
    assert (value - min) / (max - min) * (max - min) == value - min;
  }

  predicate IsRushHour(hour: int)
  {
    (7 <= hour <= 9) || (17 <= hour <= 19)
  }

  predicate IsLateNight(hour: int)
  {
    hour >= 23 || hour <= 5
  }

  /** The hour-band factor before the random jitter. */
  function BaseMobility(hour: int): (f: real)
    ensures IsRushHour(hour) ==> f == 0.9
    ensures !IsRushHour(hour) && IsLateNight(hour) ==> f == 0.1
    ensures !IsRushHour(hour) && !IsLateNight(hour) ==> f == 0.5
  {
    if IsRushHour(hour) then 0.9 else if IsLateNight(hour) then 0.1 else 0.5
  }

  /** The three bands over the hours of a day, written out. */
  lemma MobilityTable(hour: int)
    requires IsHour(hour)
    ensures BaseMobility(hour) == 0.9 <==> hour in {7, 8, 9, 17, 18, 19}
    ensures BaseMobility(hour) == 0.1 <==> hour in {0, 1, 2, 3, 4, 5, 23}
    ensures BaseMobility(hour) == 0.5 <==> hour in {6, 10, 11, 12, 13, 14, 15, 16, 20, 21, 22}
  {
  }

  /** `calculateMobilityFactor`: the band factor plus up to 0.1 of jitter,
      normalised over [0, 1.1]. The clamp never acts, so the factor lies in
      [f / 1.1, (f + 0.1) / 1.1) and is always strictly below 1. */
  function CalculateMobilityFactor(hour: int, r: real): (m: real)
    requires IsRandom(r)
    ensures BaseMobility(hour) / 1.1 <= m < (BaseMobility(hour) + 0.1) / 1.1
    ensures 0.0 < m < 1.0
  {
    var f := BaseMobility(hour);
    var x := f + r * 0.1;
    assert f <= x < f + 0.1;
    QuotientBounds(f, x, 1.1);
    QuotientBounds(x, f + 0.1, 1.1);
    QuotientBounds(f + 0.1, 1.1, 1.1);
    NormalizeInterior(x, 0.0, 1.1);
    Normalize(x, 0.0, 1.1)
  }

  /** The weather groups that count as rain. */
  predicate IsRainy(main: string)
  {
    main == "Rain" || main == "Drizzle" || main == "Thunderstorm"
  }

  function RainIndex(main: string): (x: real)
    ensures x == 0.8 <==> IsRainy(main)
    ensures x == 0.0 <==> !IsRainy(main)
  {
    if IsRainy(main) then 0.8 else 0.0
  }

  /** The fields of an OpenWeatherMap reply the engine reads. `weatherMain`
      is `None` when the reply's `weather` array is empty. */
  datatype OwmReply = OwmReply(temp: real, windSpeed: real, weatherMain: Option<string>)

  /** `fetchWeatherData`. Without a key nothing changes; a failed request
      changes nothing; a reply whose `weather` list is empty throws after the
      temperature and wind indices were written, so only those two change;
      otherwise all four indices and the timestamp are replaced. */
  function FetchWeatherData(s: State, hasKey: bool, reply: Option<OwmReply>, hour: int, r: real, now: int): (s': State)
    requires IsRandom(r)
    ensures !hasKey || reply.None? ==> s' == s
    ensures hasKey && reply.Some? ==>
      && s'.tempIndex == Normalize(reply.value.temp, TEMP_MIN, TEMP_MAX)
      && s'.windIndex == Normalize(reply.value.windSpeed, WIND_MIN, WIND_MAX)
      && 0.0 <= s'.tempIndex <= 1.0 && 0.0 <= s'.windIndex <= 1.0
    ensures hasKey && reply.Some? && reply.value.weatherMain.None? ==>
      s'.rainIndex == s.rainIndex && s'.mobilityIndex == s.mobilityIndex && s'.timestamp == s.timestamp
    ensures hasKey && reply.Some? && reply.value.weatherMain.Some? ==>
      && (s'.rainIndex == 0.8 <==> IsRainy(reply.value.weatherMain.value))
      && (s'.rainIndex == 0.0 <==> !IsRainy(reply.value.weatherMain.value))
      && s'.mobilityIndex == CalculateMobilityFactor(hour, r)
      && 0.0 < s'.mobilityIndex < 1.0
      && s'.timestamp == now
  {
    if !hasKey || reply.None? then s
    else
      var d := reply.value;
      var partial := s.(tempIndex := Normalize(d.temp, TEMP_MIN, TEMP_MAX),
                        windIndex := Normalize(d.windSpeed, WIND_MIN, WIND_MAX));
      match d.weatherMain
      case None => partial
      case Some(main) =>
        partial.(rainIndex := RainIndex(main),
                 mobilityIndex := CalculateMobilityFactor(hour, r),
                 timestamp := now)
  }

  /** Every index the engine ever holds stays in [0, 1]. */
  ghost predicate IndicesInRange(s: State)
  {
    && 0.0 <= s.tempIndex <= 1.0 && 0.0 <= s.windIndex <= 1.0
    && 0.0 <= s.rainIndex <= 1.0 && 0.0 <= s.mobilityIndex <= 1.0
  }

  lemma FetchKeepsIndicesInRange(s: State, hasKey: bool, reply: Option<OwmReply>, hour: int, r: real, now: int)
    requires IsRandom(r)
    requires IndicesInRange(s)
    ensures IndicesInRange(FetchWeatherData(s, hasKey, reply, hour, r, now))
  {
  }
}
