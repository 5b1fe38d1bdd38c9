/** The Flask data service (server/data_app.py): the constant root route and
    the light level by hour of the day. The hour is a parameter. */
module LightApp {
  import opened Common
  import SE = ServerEngine

  /** The JSON object the root route serialises. */
  function HelloWorld(): (body: map<string, string>)
    ensures body.Keys == {"hello"} && body["hello"] == "world"
  {
    map["hello" := "world"]
  }

  /** Full light from 7:00 to 18:59, half light at 19 and 20, dim otherwise. */
  function GetLightLevel(hour: int): (level: real)
    ensures level == 1.0 <==> 7 <= hour < 19
    ensures level == 0.5 <==> 19 <= hour < 21
    ensures level == 0.1 <==> !(7 <= hour < 21)
  {
    if 7 <= hour < 19 then 1.0
    else if 19 <= hour < 21 then 0.5
    else 0.1
  }

  /** The JSON object the light route serialises. */
  function LightLevelBody(hour: int): (body: map<string, real>)
    ensures body.Keys == {"light-level"} && body["light-level"] == GetLightLevel(hour)
  {
    map["light-level" := GetLightLevel(hour)]
  }

  /** Every hour maps to exactly one of three levels, all fractions in [0, 1]. */
  lemma LightLevelRange(hour: int)
    ensures GetLightLevel(hour) in {0.1, 0.5, 1.0}
    ensures 0.0 <= GetLightLevel(hour) <= 1.0
  {
  }

  /** Full light only ever falls in the ordinance's DAY period, and every
      lit hour (full or half) lies in DAY. */
  lemma FullLightIsDayPeriod(hour: int)
    ensures GetLightLevel(hour) == 1.0 ==> SE.GetNoisePeriod(hour) == SE.DAY
    ensures GetLightLevel(hour) != 0.1 <==> SE.GetNoisePeriod(hour) == SE.DAY
  {
  }

  /** When the weather request is answered (this service has no route for
      it) and the light request gets this service's level, the server cycle
      completes and stores a light level in [0, 1]. */
  lemma CycleLightLevelInRange(inp: SE.CycleInputs, hour: int)
    requires inp.weatherReply.Some?
    requires inp.lightReply == Some(GetLightLevel(hour))
    ensures SE.RunCycle(inp).Completed?
    ensures 0.0 <= SE.RunCycle(inp).state.environment.lightLevel <= 1.0
  {
  }
}
