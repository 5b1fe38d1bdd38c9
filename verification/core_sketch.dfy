/** The render loop of the Vite front end (src/core/sketch.js): merging the
    backend's reply into the local mirror of the state record, the
    emotion-to-behaviour table of `draw`, and the text `updateDOM` shows.
    The fetch result, the frame counter and the draws are parameters;
    drawing and the DOM are not modelled. */
module CoreSketch {
  import opened Common
  import opened Emotions

  // ---------------------------------------------------------------------
  // State mirror and merge
  // ---------------------------------------------------------------------

  /** A JSON field value as the sketch sees it. */
  datatype Field = Num(n: real) | Text(s: string)

  type Section = map<string, Field>

  datatype State = State(meta: Section, weather: Section, environment: Section, transport: Section)

  /** The mirror's defaults before the first reply. */
  const INITIAL_STATE: State := State(
    map["period" := Text("Ld"), "timestamp" := Num(0.0), "mode" := Text("INIT"), "emotion" := Text(NEUTRAL)],
    map["temp" := Num(20.0), "humidity" := Num(50.0), "windSpeed" := Num(10.0), "windDir" := Num(0.0), "rain" := Num(0.0)],
    map["noiseDb" := Num(45.0), "airQuality" := Num(10.0), "co2" := Num(400.0), "lightLevel" := Num(0.5)],
    map["congestion" := Num(5.0), "flowRhythm" := Num(0.5)])

  /** `Object.assign(target, source)`: the source's fields overwrite, the
      others stay; an absent source (`undefined`) changes nothing. */
  function Assign(target: Section, source: Option<Section>): (r: Section)
    ensures source.None? ==> r == target
    ensures source.Some? ==> r.Keys == target.Keys + source.value.Keys
    ensures source.Some? ==> forall k :: k in source.value ==> r[k] == source.value[k]
    ensures source.Some? ==> forall k :: k in target && k !in source.value ==> r[k] == target[k]
  {
    if source.None? then target else target + source.value
  }

  /** The reply body: each section may be missing. */
  datatype Body = Body(meta: Option<Section>, weather: Option<Section>, environment: Option<Section>,
                       transport: Option<Section>)

  /** The outcome of `fetch`: it threw (network error or unparsable body),
      the status was not ok, or a body arrived. */
  datatype Reply = Threw | NotOk | Ok(body: Body)

  /** `getWeatherData`: each section merged separately; a failed or non-ok
      request leaves the mirror as it was. */
  function GetWeatherData(s: State, reply: Reply): (s': State)
    ensures !reply.Ok? ==> s' == s
    ensures reply.Ok? ==>
      && s'.meta == Assign(s.meta, reply.body.meta)
      && s'.weather == Assign(s.weather, reply.body.weather)
      && s'.environment == Assign(s.environment, reply.body.environment)
      && s'.transport == Assign(s.transport, reply.body.transport)
  {
    match reply
    case Ok(b) => State(Assign(s.meta, b.meta), Assign(s.weather, b.weather),
                        Assign(s.environment, b.environment), Assign(s.transport, b.transport))
    case _ => s
  }

  /** A merge never loses a field: every key the mirror had is still there,
      and a field the reply omits keeps its value. */
  lemma MergeKeepsAbsentFields(s: State, b: Body, key: string)
    requires b.weather.Some? && key in s.weather && key !in b.weather.value
    ensures key in GetWeatherData(s, Ok(b)).weather
    ensures GetWeatherData(s, Ok(b)).weather[key] == s.weather[key]
    ensures s.meta.Keys <= GetWeatherData(s, Ok(b)).meta.Keys
  {
  }

  /** Receiving the same reply twice is the same as receiving it once. */
  lemma MergeIdempotent(s: State, r: Reply)
    ensures GetWeatherData(GetWeatherData(s, r), r) == GetWeatherData(s, r)
  {
    if r.Ok? {
      var b := r.body;
      var once := GetWeatherData(s, r);
      assert Assign(once.meta, b.meta) == once.meta;
      assert Assign(once.weather, b.weather) == once.weather;
      assert Assign(once.environment, b.environment) == once.environment;
      assert Assign(once.transport, b.transport) == once.transport;
    }
  }

  // ---------------------------------------------------------------------
  // `draw`
  // ---------------------------------------------------------------------

  /** The emotion field as a string label, when it is one. */
  function EmotionOf(meta: Section): (e: Option<string>)
    ensures e.Some? <==> "emotion" in meta && meta["emotion"].Text?
    ensures e.Some? ==> meta["emotion"] == Text(e.value)
  {
    if "emotion" in meta && meta["emotion"].Text? then Some(meta["emotion"].s) else None
  }

  /** `state.meta.emotion || "ACTIVE_HOPE"`: a missing, non-string or empty
      emotion draws as ACTIVE_HOPE, any other string as itself. */
  function DrawMode(s: State): (mode: string)
    ensures EmotionOf(s.meta).None? ==> mode == ACTIVE_HOPE
    ensures "emotion" in s.meta && s.meta["emotion"] == Text("") ==> mode == ACTIVE_HOPE
    ensures "emotion" in s.meta && s.meta["emotion"].Text? && s.meta["emotion"].s != "" ==>
      mode == s.meta["emotion"].s
  {
    LabelOr(EmotionOf(s.meta), ACTIVE_HOPE)
  }

  /** What one frame applies for a mode: the grid colour, the agents' speed
      multiplier, the jitter each agent gets (anxiety), the downward drift
      per frame (solastalgia), and whether the blur filter runs. */
  datatype Behaviour = Behaviour(baseColour: string, speedMult: real, jitter: real, drift: real, blur: bool)

  function BehaviourFor(mode: string): (b: Behaviour)
    ensures b.blur <==> mode == SOLASTALGIA || mode == ECO_ANXIETY
    ensures b.jitter > 0.0 <==> mode == ECO_ANXIETY
    ensures b.drift > 0.0 <==> mode == SOLASTALGIA
  {
    match MoodOf(mode)
    case Anger => Behaviour("#ff0000", 3.0, 0.0, 0.0, false)
    case Anxiety => Behaviour("#ccff00", 1.0, 1.5, 0.0, true)
    case Grief => Behaviour("#4a6b8a", 0.5, 0.0, 0.5, true)
    case Hope => Behaviour("#00f0ff", 1.2, 0.0, 0.0, false)
  }

  /** The speed table: 3 under anger, 1 under anxiety, 0.5 under
      solastalgia, 1.2 for every other label; a record without an emotion
      behaves as ACTIVE_HOPE. */
  lemma SpeedTable(s: State)
    ensures var m := BehaviourFor(DrawMode(s)).speedMult;
            && (m == 3.0 <==> DrawMode(s) == URBAN_ANGER)
            && (m == 1.0 <==> DrawMode(s) == ECO_ANXIETY)
            && (m == 0.5 <==> DrawMode(s) == SOLASTALGIA)
            && (m == 1.2 <==> MoodOf(DrawMode(s)) == Hope)
    ensures EmotionOf(s.meta).None? ==> BehaviourFor(DrawMode(s)).speedMult == 1.2
  {
  }

  /** The red channel of the anger background: it flashes (50 brighter) on
      every tenth frame while the noise is above 75 dB. */
  function AngerBackgroundRed(noiseDb: real, frameCount: nat): (red: int)
    ensures red == 70 <==> noiseDb > 75.0 && frameCount % 10 == 0
    ensures red == 20 <==> !(noiseDb > 75.0 && frameCount % 10 == 0)
  {
    20 + (if noiseDb > 75.0 && frameCount % 10 == 0 then 50 else 0)
  }

  // ---------------------------------------------------------------------
  // `updateDOM`
  // ---------------------------------------------------------------------

  /** The position of the first `c` in `s`, or `|s|` when there is none. */
  function FirstIndexOf(s: string, c: char): (i: nat)
    ensures i <= |s|
    ensures i < |s| ==> s[i] == c
    ensures c !in s[..i]
    decreases |s|
  {
    if |s| == 0 then 0
    else if s[0] == c then 0
    else
      var j := FirstIndexOf(s[1..], c);
      assert s[..j + 1] == [s[0]] + s[1..][..j];
      1 + j
  }

  /** `String.prototype.replace` with a one-character pattern: only the first
      occurrence is replaced, and a string without one is returned as is. */
  function ReplaceFirst(s: string, c: char, sub: char): (r: string)
    ensures |r| == |s|
    ensures FirstIndexOf(s, c) == |s| ==> r == s
    ensures FirstIndexOf(s, c) < |s| ==> r == s[..FirstIndexOf(s, c)] + [sub] + s[FirstIndexOf(s, c) + 1..]
    decreases |s|
  {
    if |s| == 0 then s
    else if s[0] == c then [sub] + s[1..]
    else
      var rest := ReplaceFirst(s[1..], c, sub);
      var j := FirstIndexOf(s[1..], c);
      if j < |s[1..]| then
        assert s[..j + 1] == [s[0]] + s[1..][..j];
        assert s[j + 2..] == s[1..][j + 1..];
        [s[0]] + rest
      else
        [s[0]] + rest
  }

  /** The footer label: the emotion with its first underscore turned into a
      space, or "STANDBY" when the emotion is missing or empty. */
  function EmotionLabel(emotion: Option<string>): (text: string)
    ensures emotion.None? || emotion.value == "" ==> text == "STANDBY"
    ensures emotion.Some? && emotion.value != "" ==> text == ReplaceFirst(emotion.value, '_', ' ')
  {
    if emotion.Some? && emotion.value != "" then ReplaceFirst(emotion.value, '_', ' ') else "STANDBY"
  }

  /** Replacing in a string whose first `c` follows a prefix free of `c`
      changes exactly that character. */
  lemma {:induction false} ReplaceFirstAfterPrefix(a: string, c: char, b: string, sub: char)
    requires c !in a
    ensures FirstIndexOf(a + [c] + b, c) == |a|
    ensures ReplaceFirst(a + [c] + b, c, sub) == a + [sub] + b
    decreases |a|
  {
    var s := a + [c] + b;
    if |a| > 0 {
      assert s[0] == a[0] && a[0] in a;
      assert s[1..] == a[1..] + [c] + b;
      ReplaceFirstAfterPrefix(a[1..], c, b, sub);
      assert a == [a[0]] + a[1..];
    }
  }

  /** A string without `c` is left as it is. */
  lemma {:induction false} ReplaceFirstAbsent(s: string, c: char, sub: char)
    requires c !in s
    ensures FirstIndexOf(s, c) == |s|
    ensures ReplaceFirst(s, c, sub) == s
    decreases |s|
  {
    if |s| > 0 {
      assert s[0] in s;
      ReplaceFirstAbsent(s[1..], c, sub);
    }
  }

  /** Each two-word label has one underscore, which becomes a space. */
  lemma UrbanAngerLabel()
    ensures EmotionLabel(Some(URBAN_ANGER)) == "URBAN ANGER"
  {
    assert URBAN_ANGER == "URBAN" + ['_'] + "ANGER";
    ReplaceFirstAfterPrefix("URBAN", '_', "ANGER", ' ');
  }

  lemma EcoAnxietyLabel()
    ensures EmotionLabel(Some(ECO_ANXIETY)) == "ECO ANXIETY"
  {
    assert ECO_ANXIETY == "ECO" + ['_'] + "ANXIETY";
    ReplaceFirstAfterPrefix("ECO", '_', "ANXIETY", ' ');
  }

  lemma ActiveHopeLabel()
    ensures EmotionLabel(Some(ACTIVE_HOPE)) == "ACTIVE HOPE"
  {
    assert ACTIVE_HOPE == "ACTIVE" + ['_'] + "HOPE";
    ReplaceFirstAfterPrefix("ACTIVE", '_', "HOPE", ' ');
  }

  /** A label without an underscore is shown as is. */
  lemma SolastalgiaLabel()
    ensures EmotionLabel(Some(SOLASTALGIA)) == SOLASTALGIA
  {
    ReplaceFirstAbsent(SOLASTALGIA, '_', ' ');
  }

  /** Only the first of two underscores is replaced. */
  lemma SecondUnderscoreSurvives()
    ensures EmotionLabel(Some("A_B_C")) == "A B_C"
  {
    assert "A_B_C" == "A" + ['_'] + "B_C";
    ReplaceFirstAfterPrefix("A", '_', "B_C", ' ');
  }

  /** The CO2 shown: a missing or zero reading (falsy) shows 400 ppm. */
  function DisplayedCo2(environment: Section): (ppm: real)
    ensures "co2" in environment && environment["co2"].Num? && environment["co2"].n != 0.0 ==>
      ppm == environment["co2"].n
    ensures !("co2" in environment && environment["co2"].Num? && environment["co2"].n != 0.0) ==> ppm == 400.0
  {
    if "co2" in environment && environment["co2"].Num? && environment["co2"].n != 0.0 then environment["co2"].n
    else 400.0
  }

  /** The engine never writes `co2`, so the panel shows the mirror's 400 ppm
      default for as long as the replies omit it. */
  lemma Co2DefaultSurvivesReplies(b: Body)
    requires b.environment.None? || "co2" !in b.environment.value
    ensures DisplayedCo2(GetWeatherData(INITIAL_STATE, Ok(b)).environment) == 400.0
  {
  }
}
