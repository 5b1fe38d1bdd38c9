/** The data loop of the early city prototype (_archive/prototypes/in-transit/js/api.js):
    the temperature read or simulated, the traffic simulated from the hour,
    and the bars and alert colour shown. The weather reply, the hour and
    `Math.random()` are parameters; the DOM writes become a record. */
module CityApi {
  import opened Common

  datatype CityData = CityData(temp: real, traffic: real, noise: real, status: string)

  const INITIAL_CITY: CityData := CityData(20.0, 50.0, 0.0, "INIT")

  /** Rush hour is 8:00-10:59 and 18:00-20:59. */
  predicate IsRushHour(hour: int)
  {
    (8 <= hour <= 10) || (18 <= hour <= 20)
  }

  function TargetTraffic(hour: int): (t: real)
    ensures t == 85.0 <==> IsRushHour(hour)
    ensures t == 40.0 <==> !IsRushHour(hour)
  {
    if IsRushHour(hour) then 85.0 else 40.0
  }

  /** `fetchCityData`. `weatherTemp` is `data.main.temp` when the request
      and the parse succeed; without a key, or on any failure, the
      temperature drifts by `rTemp - 0.5`. The traffic is the hour's target
      plus up to 10 either way (draw `rTraffic`). */
  function FetchCityData(c: CityData, hasKey: bool, weatherTemp: Option<real>, rTemp: real,
                         hour: int, rTraffic: real): (c': CityData)
    requires IsRandom(rTemp) && IsRandom(rTraffic)
    ensures hasKey && weatherTemp.Some? ==> c'.temp == weatherTemp.value
    ensures !(hasKey && weatherTemp.Some?) ==> -0.5 <= c'.temp - c.temp < 0.5
    ensures TargetTraffic(hour) - 10.0 <= c'.traffic < TargetTraffic(hour) + 10.0
    ensures c'.noise == c.noise && c'.status == c.status
  {
    var temp := if hasKey && weatherTemp.Some? then weatherTemp.value else c.temp + (rTemp - 0.5);
    c.(temp := temp, traffic := TargetTraffic(hour) + (rTraffic * 20.0 - 10.0))
  }

  /** What `updateDOM` writes: the temperature text and bar width, the
      traffic text and bar width, and whether the bar takes the alert colour. */
  datatype Dom = Dom(tempText: int, tempBar: real, trafficText: int, trafficBar: real, alert: bool)

  function UpdateDom(c: CityData): (d: Dom)
    ensures d.tempBar <= 100.0
    ensures d.tempBar == 100.0 || d.tempBar == c.temp * 2.0
    ensures c.temp <= 50.0 ==> d.tempBar == c.temp * 2.0
    ensures d.alert <==> c.traffic > 75.0
    ensures d.tempText as real <= c.temp < d.tempText as real + 1.0
    ensures d.trafficBar == c.traffic
  {
    Dom(c.temp.Floor, Min(c.temp * 2.0, 100.0), c.traffic.Floor, c.traffic, c.traffic > 75.0)
  }

  /** Off-peak traffic stays below 50, so the alert colour only ever shows
      during rush hour, where it shows for every draw but 0. */
  lemma AlertOnlyInRushHour(c: CityData, hasKey: bool, weatherTemp: Option<real>, rTemp: real,
                            hour: int, rTraffic: real)
    requires IsRandom(rTemp) && IsRandom(rTraffic)
    ensures var c' := FetchCityData(c, hasKey, weatherTemp, rTemp, hour, rTraffic);
            && (!IsRushHour(hour) ==> c'.traffic < 50.0)
            && (UpdateDom(c').alert ==> IsRushHour(hour))
            && (IsRushHour(hour) ==> (UpdateDom(c').alert <==> rTraffic > 0.0))
  {
  }

  /** The data after one cycle per draw, each with the weather request
      failing. */
  function FailedCycles(c: CityData, draws: seq<real>, hour: int, rTraffic: real): CityData
    requires IsRandom(rTraffic)
    requires forall i :: 0 <= i < |draws| ==> IsRandom(draws[i])
    decreases |draws|
  {
    if |draws| == 0 then c
    else FailedCycles(FetchCityData(c, false, None, draws[0], hour, rTraffic), draws[1..], hour, rTraffic)
  }

  /** Repeated failures let the temperature wander by at most half a degree
      per cycle: after `k` failed cycles it is within `k / 2` of where it
      started. */
  lemma {:induction false} SimulatedDriftBounded(c: CityData, draws: seq<real>, hour: int, rTraffic: real)
    requires IsRandom(rTraffic)
    requires forall i :: 0 <= i < |draws| ==> IsRandom(draws[i])
    ensures Abs(FailedCycles(c, draws, hour, rTraffic).temp - c.temp) <= |draws| as real / 2.0
    decreases |draws|
  {
    if |draws| > 0 {
      var next := FetchCityData(c, false, None, draws[0], hour, rTraffic);
      SimulatedDriftBounded(next, draws[1..], hour, rTraffic);
    }
  }
}
