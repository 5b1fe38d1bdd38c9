# Emotions in Transit — a Dafny model of its data and reaction logic

Emotions in Transit is an art installation. It turns readings of
Barcelona into a "biometric" state record:
- weather;
- simulated noise and air quality, following the city's noise-ordinance periods;
- metro congestion;
- a light level.

Several front ends and audio engines turn that record, and its emotion label,
into visuals and sound.

This project models the decision logic of those parts as pure Dafny functions
over immutable records, and proves what each part promises.

Everything outside the logic becomes a parameter of the function that
uses it:
- the clock;
- every `Math.random()` / p5 `random()` draw, a real in [0, 1);
- every HTTP reply, an `Option` or a small reply datatype;
- `Math.sin`.

JavaScript numbers are Dafny `real`s.

One module per source file:

| module | file | what it covers |
|---|---|---|
| `Common` | — | `Option`, `Math.max`/`min`, the clamp idiom, p5's `map`, ceiling and truncation |
| `Emotions` | — | the four emotion labels and the fall-through every consumer shares |
| `ServerEngine` | server/utils/dataNormalizer.js | normalisation, noise periods, simulated environment, congestion, one fetch cycle |
| `Polling` | server/utils/dataNormalizer.js | the polling life cycle with one pending timer and cycles in flight |
| `BackendEngine` | backend/services/dataNormalizer.js | the older four-index engine |
| `TmbRoute` | server/routes/tmb.js | the `/metro` handler with its 60-second cache |
| `LightApp` | server/data_app.py | the Flask light-level table and root route |
| `BiometricAudio` | src/systems/AudioEngine.js | `map` with clamp, chords, `updateFromState` |
| `AmbientAudio` | public/js/audio/AudioEngine.js | bus cooldown, glitch switch, data reaction, chord cycle, `mapRange` |
| `ProtoAudio` | _archive/prototypes/in-transit-000/audioEngine.js | scale/tempo selection and the loop beat |
| `FlowSketch` | _archive/prototypes/in-transit-000/sketch.js | presets, particle count, edge wrap |
| `GridAgents` | src/visual/Particle.js | grid agents and CO2 particles |
| `EmotionPulse` | src/visual/Pulse.js | the fading ring of the Vite front end |
| `PublicPulse` | public/js/visual/Pulse.js | the fading ring of the static front end |
| `PublicSketch` | public/js/sketch.js | particle resizing, pulse pruning, weather copy |
| `CoreSketch` | src/core/sketch.js | state merge, emotion behaviour table, footer text |
| `FaceProto` | _archive/prototypes/in-transit-000/in-transit/js/app.js | ASCII face, particle cap, bounding box |
| `CityApi` | _archive/prototypes/in-transit/js/api.js | simulated temperature and traffic, bars and alert |

Facts about the code that shape the model:
- No file computes the emotion label. No classifier is modelled, only the
  label's consumers.
- Congestion comes from the clock and the metro line count alone. There is no
  noise/CO2 blend and no rate-limit back-off.
- Congestion is documented as a 0–10 scale, but the code assumes eight metro
  lines and never bounds the count. `ServerEngine.CongestionLeavesScale`
  shows it passing 10 once more lines are reported.
- After `stopPolling`, a cycle already in flight still replaces the state
  record; stopping only prevents the next cycle from being scheduled.
  `Polling.NoCycleAfterStop` states exactly this.
- The code never retries. A cycle whose weather or light request rejects
  ends in a rejected promise that nothing catches. No next cycle is
  scheduled, and `isPolling` stays set, so `startPolling` does nothing.
  `Polling.AbortStallsPolling` states this.

## Model

| member | source | states |
|---|---|---|
| ServerEngine.Normalize | server/utils/dataNormalizer.js:64-68 | a non-number gives mid-scale 0.5; for min < max every number lands in [0, 1], 0 at or below min and 1 at or above max |
| ServerEngine.NormalizeMonotone | server/utils/dataNormalizer.js:64-68 | normalisation never decreases as the value grows |
| ServerEngine.NormalizeInterior | server/utils/dataNormalizer.js:66-67 | strictly between the bounds the clamp is inactive and the result is the linear map sending min to 0 and max to 1 |
| ServerEngine.GetNoisePeriod | server/utils/dataNormalizer.js:70-75 | every hour falls in one of the three ordinance periods |
| ServerEngine.NoisePeriodPartition | server/utils/dataNormalizer.js:21-25 | hours 7–20 are DAY, 21–22 EVENING, 23 and 0–6 NIGHT, in both directions |
| ServerEngine.FrequencyBand | server/utils/dataNormalizer.js:94 | HIGH iff above 70 dB, MID iff in (50, 70], LOW otherwise |
| ServerEngine.CalculateEnvironmentalMetrics | server/utils/dataNormalizer.js:82-98 | for any traffic and draws, noise lies in [30, 95] dB, its band matches it, air quality is at least 5, and the period tag is the hour's |
| ServerEngine.NoiseClampInactive | server/utils/dataNormalizer.js:86-90 | for traffic on the 0–10 scale the clamp never acts: noise is period base + traffic ± half the variance |
| ServerEngine.Peak | server/utils/dataNormalizer.js:114-115 | a rush-hour peak lies in [0, 1] and is 1 exactly at its centre |
| ServerEngine.WeekdayBase | server/utils/dataNormalizer.js:113-116 | the weekday base congestion lies in [0.2, 0.9] |
| ServerEngine.CalculateTransportMetrics | server/utils/dataNormalizer.js:103-130 | congestion is always ten times the flow rhythm; without line data the flow is the clock's base, and with lines it is the midpoint between that base and lines/8 |
| ServerEngine.WeekdayCongestionBounds | server/utils/dataNormalizer.js:113-116 | on a weekday without line data congestion lies in [2, 9] |
| ServerEngine.WeekdayCongestionPeaks | server/utils/dataNormalizer.js:113-116 | weekday congestion reaches 9 exactly at 8:30 and 18:30 |
| ServerEngine.CongestionBounds | server/utils/dataNormalizer.js:108-127 | for any line count congestion is at least 1 and, with lines, at most 4.5 + 5·lines/8; with at most 8 lines it stays in [1, 9.5] |
| ServerEngine.CongestionLeavesScale | server/utils/dataNormalizer.js:120-127 | at a weekday 8:30 peak congestion stays within 10 iff at most 8 lines are reported; from 16 lines on it exceeds 10 at every hour |
| ServerEngine.InitialState | server/utils/dataNormalizer.js:28-56 | the constructor's record: mode INIT, period "Ld", light 0.5, congestion 5 with 5 lines |
| ServerEngine.RunCycle | server/utils/dataNormalizer.js:140-217 | a rejected weather or light request aborts the cycle; otherwise the whole record is rebuilt from the replies: transport is the transport metrics of the cycle's line count, noise, band and air are the environmental metrics of that congestion, REAL/SIMULATED follows the key, the line count is 0 without an app id or features, and the next cycle is asked for in 10 minutes |
| ServerEngine.CycleNoiseUnclamped | server/utils/dataNormalizer.js:189-193 | in every completed cycle the stored noise is period base + congestion + random spread, cut at 95 dB; with at most 28 lines it is exactly that sum |
| ServerEngine.GetCurrentState | server/utils/dataNormalizer.js:255-257 | the copy has the same four sections as the engine's record |
| Polling.NewEngine | server/utils/dataNormalizer.js:58-59 | a new engine is not polling and has nothing pending or in flight |
| Polling.ScheduleNextUpdate | server/utils/dataNormalizer.js:237-241 | ignored when not polling; otherwise the single pending callback is replaced by the new delay |
| Polling.StartPolling | server/utils/dataNormalizer.js:243-248 | a no-op while polling; otherwise sets the flag and starts exactly one cycle |
| Polling.StopPolling | server/utils/dataNormalizer.js:250-253 | clears the flag and the pending callback and leaves cycles in flight alone |
| Polling.TimerFires | server/utils/dataNormalizer.js:240 | a pending callback starts one cycle and is consumed |
| Polling.CycleSettles | server/utils/dataNormalizer.js:196-216 | an aborted cycle changes nothing else; a completed one replaces the record and reschedules only if still polling |
| Polling.RunPreservesInv | server/utils/dataNormalizer.js:237-253 | over any event sequence a callback is pending only while polling |
| Polling.StartIdempotent | server/utils/dataNormalizer.js:243-245 | starting twice equals starting once |
| Polling.ScheduleReplaces | server/utils/dataNormalizer.js:239-240 | of two schedule requests only the second stays pending |
| Polling.NoCycleAfterStop | server/utils/dataNormalizer.js:250-253 | after a stop and no later start, nothing is ever pending and no new cycle starts, whatever settles |
| Polling.GetCurrentState | server/utils/dataNormalizer.js:255-257 | the copy handed out has the engine record's four sections |
| Polling.IdleStaysIdle | server/utils/dataNormalizer.js:237-253 | with nothing pending or in flight and no start, no cycle ever starts, the record is kept, and polling stays on iff no stop came |
| Polling.AbortStallsPolling | server/utils/dataNormalizer.js:150-151 | when a polling engine's only cycle rejects, no cycle ever starts again, the flag stays set, and `startPolling` is a no-op |
| Polling.AbortedCycleChangesNothing | server/utils/dataNormalizer.js:150 | a cycle rejecting before the assignment neither replaces the record nor reschedules |
| BackendEngine.InitialState | backend/services/dataNormalizer.js:13-18 | indices 0.5, 0.1, 0.0, 0.5, stamped now |
| BackendEngine.Normalize | backend/services/dataNormalizer.js:29-33 | for min < max the result lies in [0, 1], 0 at or below min, 1 at or above max |
| BackendEngine.NormalizeInterior | backend/services/dataNormalizer.js:30-32 | strictly between the bounds the result is the unclamped linear map |
| BackendEngine.BaseMobility | backend/services/dataNormalizer.js:39-48 | 0.9 in rush hour, else 0.1 late at night, else 0.5 |
| BackendEngine.MobilityTable | backend/services/dataNormalizer.js:42-48 | 0.9 exactly for hours 7–9 and 17–19, 0.1 exactly for 23 and 0–5, 0.5 for the rest |
| BackendEngine.CalculateMobilityFactor | backend/services/dataNormalizer.js:51 | the factor lies in [f/1.1, (f+0.1)/1.1), hence strictly between 0 and 1 |
| BackendEngine.RainIndex | backend/services/dataNormalizer.js:74 | 0.8 iff the weather group is Rain, Drizzle or Thunderstorm, else 0 |
| BackendEngine.FetchWeatherData | backend/services/dataNormalizer.js:55-86 | without a key or on a failed request nothing changes; a reply sets normalised temperature and wind in [0, 1]; a reply without a weather group throws after those two writes; otherwise rain follows its group, mobility is the hour's mobility factor for the draw, and the timestamp is now |
| BackendEngine.FetchKeepsIndicesInRange | backend/services/dataNormalizer.js:69-77 | every index stays in [0, 1] across any fetch |
| TmbRoute.HandleMetro | server/routes/tmb.js:11-56 | the upstream is called iff the cache is stale and both credentials are set; a fresh cache is served as is; 500 iff stale and credentials missing; success caches and serves the line count with status OK; failure serves 5 lines ERROR_FALLBACK and keeps the cache |
| TmbRoute.HandlePreservesCacheInv | server/routes/tmb.js:41-43 | only genuine upstream payloads (status OK, source TMB API) are ever cached |
| TmbRoute.CachedResponseIsOk | server/routes/tmb.js:15-17 | a response served from the cache always carries status OK |
| TmbRoute.CacheBeforeCredentials | server/routes/tmb.js:15-24 | with a fresh cache the reply does not depend on credentials or upstream |
| TmbRoute.SuccessIsServedForOneMinute | server/routes/tmb.js:15-43 | after a success, every request within the next 60 s is served that payload without calling upstream |
| LightApp.HelloWorld | server/data_app.py:10-12 | the root route's object is exactly {"hello": "world"} |
| LightApp.GetLightLevel | server/data_app.py:15-22 | 1.0 exactly for hours 7–18, 0.5 exactly for 19–20, 0.1 exactly otherwise |
| LightApp.LightLevelBody | server/data_app.py:14-22 | the light route's object has the single key "light-level" holding the hour's level |
| LightApp.LightLevelRange | server/data_app.py:16-22 | every hour gives one of 0.1, 0.5, 1.0, all in [0, 1] |
| LightApp.FullLightIsDayPeriod | server/data_app.py:18-21 | full light implies the DAY noise period, and the lit hours are exactly the DAY hours |
| LightApp.CycleLightLevelInRange | server/utils/dataNormalizer.js:207 | when the weather request is answered and the light request gets this service's level, a cycle completes and stores a light level in [0, 1] |
| BiometricAudio.Map | src/systems/AudioEngine.js:163-169 | with clamp and an ordered range the result is in range; with clamp and an inverted range it is always outMin |
| BiometricAudio.MapEndpoints | src/systems/AudioEngine.js:164 | unclamped, inMin maps to outMin and inMax to outMax |
| BiometricAudio.MapMidpoint | src/systems/AudioEngine.js:164 | unclamped, the map is affine (midpoints go to midpoints) |
| BiometricAudio.MapSlope | src/systems/AudioEngine.js:164 | unclamped, the map is offset times slope plus outMin |
| BiometricAudio.MapClampTransparent | src/systems/AudioEngine.js:165-167 | the clamp leaves an in-range image unchanged |
| BiometricAudio.BitDepthIsAlwaysEight | src/systems/AudioEngine.js:142 | the bit-crusher depth is 8 for every CO2 level |
| BiometricAudio.Start | src/systems/AudioEngine.js:52-62 | a no-op once started; otherwise started iff the audio context resumed; the emotion is kept |
| BiometricAudio.StartIdempotent | src/systems/AudioEngine.js:53 | a second start after a successful one changes nothing |
| BiometricAudio.ChordFor | src/systems/AudioEngine.js:81-106 | each of the three named labels has its chord; every other label gets C3 E3 G3 B3 |
| BiometricAudio.ChordsDistinguishMoods | src/systems/AudioEngine.js:81-106 | two labels share a chord iff the engine treats them alike |
| BiometricAudio.PlayGenerativeChord | src/systems/AudioEngine.js:74-114 | nothing plays before start; the pad plays the emotion's chord; the pulse fires iff anger and draw > 0.3; the drone iff solastalgia |
| BiometricAudio.UpdateFromState | src/systems/AudioEngine.js:119-161 | a no-op when stopped or without a state; otherwise the emotion becomes the record's label or NEUTRAL, and the clamped targets lie in their ranges with bits 8 |
| BiometricAudio.MissingEmotionPlaysHope | src/systems/AudioEngine.js:125 | a missing or empty label resets to NEUTRAL, which plays the hope chord |
| AmbientAudio.Start | public/js/audio/AudioEngine.js:44-55 | a no-op once started; otherwise started iff the audio context resumed |
| AmbientAudio.TriggerBusArrival | public/js/audio/AudioEngine.js:77-85 | fires iff started and at least 2 s after the last accepted trigger; only a firing trigger moves the timestamp |
| AmbientAudio.FiredTimesSpaced | public/js/audio/AudioEngine.js:40-41 | over any sequence of attempts, accepted triggers are at least 2000 ms apart |
| AmbientAudio.NothingFiresBeforeStart | public/js/audio/AudioEngine.js:78 | a stopped engine never fires |
| AmbientAudio.SetGlitchMode | public/js/audio/AudioEngine.js:87-97 | ignored when stopped or unchanged; otherwise switches and ramps the crusher to 0.7 or 0 |
| AmbientAudio.SetGlitchModeIdempotent | public/js/audio/AudioEngine.js:88 | asking for the same mode twice acts once |
| AmbientAudio.UpdateFromData | public/js/audio/AudioEngine.js:103-122 | a no-op when stopped or without data; glitch follows humidity > 80, ramps only on a change, and the pad volume changes only for a numeric bike activity |
| AmbientAudio.OneSideTogglesAtMostOnce | public/js/audio/AudioEngine.js:114-115 | readings on one side of 80 % humidity toggle the glitch at most once |
| AmbientAudio.AmbienceStep | public/js/audio/AudioEngine.js:69-74 | a tick plays the current chord and keeps the index in 0..3; a stopped engine plays nothing |
| AmbientAudio.ChordCycle | public/js/audio/AudioEngine.js:61-73 | tick j plays chord (start + j) mod 4 |
| AmbientAudio.MapRange | public/js/audio/AudioEngine.js:125-127 | the result is the linear image with (r − outMin)·(inMax − inMin) = (outMax − outMin)·(value − inMin); an in-range input of an ordered range lands in the output range |
| AmbientAudio.MapRangeAgreesWithMap | public/js/audio/AudioEngine.js:125-127 | `mapRange` sends the bounds to the bounds and equals the biometric engine's unclamped `map` |
| ProtoAudio.InitAudio | _archive/prototypes/in-transit-000/audioEngine.js:22-56 | a no-op once started; the notes are kept |
| ProtoAudio.InitAudioIdempotent | _archive/prototypes/in-transit-000/audioEngine.js:23 | after a successful start further calls change nothing |
| ProtoAudio.UpdateAudioParams | _archive/prototypes/in-transit-000/audioEngine.js:59-91 | nothing before start; rain > 0.5 gives MELANCHOLY 60 bpm wet 0.8; else chaos > 0.6 gives ANGER 140 bpm wet 0.1 with detune under 50; else HOPE 90 bpm wet 0.3 detune 0 |
| ProtoAudio.ScaleSelectionPriority | _archive/prototypes/in-transit-000/audioEngine.js:62-83 | each scale is selected by exactly one region, rain winning over chaos |
| ProtoAudio.FilterFollowsTemperature | _archive/prototypes/in-transit-000/audioEngine.js:86 | for an in-range index the filter lies in [200, 5000] Hz and grows with temperature |
| ProtoAudio.PresetsSelectTheirModes | _archive/prototypes/in-transit-000/audioEngine.js:63-83 | keys 1, 2, 3 of the sketch select HOPE, MELANCHOLY, ANGER |
| ProtoAudio.LoopBeat | _archive/prototypes/in-transit-000/audioEngine.js:42-52 | a note plays iff the draw is below density + 0.2, it comes from the scale, and the membrane sounds iff a note played with density > 0.6 |
| ProtoAudio.BeatUsesChosenScale | _archive/prototypes/in-transit-000/audioEngine.js:44-50 | a beat after an update plays from the chosen scale; the membrane needs density > 0.6 |
| FlowSketch.KeyPressed | _archive/prototypes/in-transit-000/sketch.js:178-191 | keys 1, 2, 3 install their presets; any other key keeps the data |
| FlowSketch.KeyPressedKeepsRange | _archive/prototypes/in-transit-000/sketch.js:15-20 | the initial data and all presets keep every index in [0, 1] |
| FlowSketch.ActiveParticles | _archive/prototypes/in-transit-000/sketch.js:67-69 | the loop moves the least whole count reaching map(density, 0, 1, 500, 2000) |
| FlowSketch.ActiveParticlesWithinPool | _archive/prototypes/in-transit-000/sketch.js:34-36 | for in-range density the loop stays within the pool of 2000 and moves at least 500 |
| FlowSketch.Edges | _archive/prototypes/in-transit-000/sketch.js:165-170 | after the edge checks the position is on the canvas |
| FlowSketch.EdgesWrapResetsTrail | _archive/prototypes/in-transit-000/sketch.js:166-169 | an inside particle is untouched; a wrapped one restarts its trail at its new position |
| GridAgents.AgentColour | src/visual/Particle.js:33-41 | red, green, grey-blue for the three named labels, cyan for every other |
| GridAgents.ChangeRate | src/visual/Particle.js:45 | 10 frames under anger, 60 otherwise |
| GridAgents.ActiveThreshold | src/visual/Particle.js:55-58 | 0.8 under anger, 0.1 under solastalgia, 0.3 otherwise |
| GridAgents.Evolve | src/visual/Particle.js:52-74 | active iff the draw is below the threshold; type 3 with a glyph from ?!#%&@ under anxiety, 1 under anger, 2 otherwise, 0 when inactive |
| GridAgents.Update | src/visual/Particle.js:20-50 | the colour follows the label; the shape changes only on frames divisible by the change rate |
| GridAgents.Display | src/visual/Particle.js:76-106 | type 0 draws nothing; the other types draw their shape |
| GridAgents.UpdateKeepsKind | src/visual/Particle.js:60-73 | the type stays in 0..3 and the agent is drawn iff it is not 0 |
| GridAgents.AngerEvolvesOnEveryCalmFrame | src/visual/Particle.js:45-47 | every frame on which a calm grid evolves, an angry grid evolves too |
| GridAgents.ColoursDistinguishMoods | src/visual/Particle.js:33-41 | two labels share a colour iff they are treated alike |
| GridAgents.Co2Update | src/visual/Particle.js:120-139 | the position ends on the canvas; green iff eco-anxiety, else a grey in [50, 150] |
| GridAgents.Co2WrapOnlyWhenLeaving | src/visual/Particle.js:131-138 | the speed factor is in [0.5, 2]; on each axis a step that stays on the canvas is not wrapped, one that leaves below 0 lands on the far edge and one that leaves past the far edge lands on 0 |
| EmotionPulse.NewPulse | src/visual/Pulse.js:3-13 | a fresh pulse is alive with alpha 255 and size 0 |
| EmotionPulse.Update | src/visual/Pulse.js:15-22 | size grows by the speed (at least 2); alpha falls by 4, never below 0; dead iff it was or alpha is 0 or size exceeds the maximum |
| EmotionPulse.UpdateNShape | src/visual/Pulse.js:16-21 | after k frames alpha is max(0, alpha − 4k), size grew by k speeds, and death is never undone |
| EmotionPulse.DeadWithin64Frames | src/visual/Pulse.js:9-20 | a fresh pulse is dead after 64 frames |
| EmotionPulse.Display | src/visual/Pulse.js:24-38 | nothing is drawn iff the pulse is dead; otherwise a ring of its size and alpha |
| PublicPulse.NewPulse | public/js/visual/Pulse.js:4-13 | a fresh pulse is alive with alpha 255 and size 0 |
| PublicPulse.Update | public/js/visual/Pulse.js:15-22 | size grows by the speed, alpha falls by 3, dead iff it was or alpha reached 0 |
| PublicPulse.FreshPulseAfter | public/js/visual/Pulse.js:9-21 | after k frames a fresh pulse has alpha 255 − 3k and is dead exactly from frame 85 on |
| PublicPulse.Shape | public/js/visual/Pulse.js:15-22 | after k frames alpha fell by 3k, size grew by k speeds, and death is never undone |
| PublicPulse.MaxSizeNeverKills | public/js/visual/Pulse.js:8-21 | two pulses differing only in maximum size die at the same frame |
| PublicSketch.TargetCount | public/js/sketch.js:90 | for mobility in [0, 1] the target lies in [50, 200] |
| PublicSketch.SpliceDeleteCount | public/js/sketch.js:94 | `splice` truncates its count and removes between 0 and the whole list |
| PublicSketch.UpdateParticleCount | public/js/sketch.js:89-96 | growing keeps the old list as prefix and appends fresh particles up to the least whole count reaching the target; shrinking keeps the newest particles in order |
| PublicSketch.SpliceLeavesSettled | public/js/sketch.js:93-94 | shrinking leaves the same count as growing would reach |
| PublicSketch.IntegerTargetIsExact | public/js/sketch.js:89-95 | an integer target leaves exactly that many particles |
| PublicSketch.PrunePulses | public/js/sketch.js:56-60 | the backward loop leaves every pulse updated once, the dead ones removed, the rest in order |
| PublicSketch.PruneKeepsExactlyTheLiving | public/js/sketch.js:56-60 | after pruning no pulse is dead, each survivor is an updated original, and every living update survives |
| PublicSketch.CopyWeather | public/js/sketch.js:98-118 | a failure or empty body keeps the state; otherwise each index field is copied, absent ones becoming undefined |
| PublicSketch.CopyWeatherReadsOnlyIndices | public/js/sketch.js:104-108 | replies agreeing on the four index keys give the same state |
| CoreSketch.Assign | src/core/sketch.js:137-140 | the reply's fields overwrite, the others stay, and a missing section changes nothing |
| CoreSketch.GetWeatherData | src/core/sketch.js:130-147 | a thrown or non-ok fetch keeps the mirror; otherwise each section is merged on its own |
| CoreSketch.MergeKeepsAbsentFields | src/core/sketch.js:137-140 | a field the reply omits keeps its value and no key is lost |
| CoreSketch.MergeIdempotent | src/core/sketch.js:137-140 | receiving the same reply twice equals receiving it once |
| CoreSketch.EmotionOf | src/core/sketch.js:59 | the label is present iff the record's emotion is a string |
| CoreSketch.DrawMode | src/core/sketch.js:59 | a missing, non-string or empty emotion draws as ACTIVE_HOPE; any other string draws as itself |
| CoreSketch.BehaviourFor | src/core/sketch.js:62-121 | blur iff solastalgia or eco-anxiety; jitter iff eco-anxiety; downward drift iff solastalgia |
| CoreSketch.SpeedTable | src/core/sketch.js:98-114 | speed 3 iff anger, 1 iff anxiety, 0.5 iff solastalgia, 1.2 for every other label and for a missing one |
| CoreSketch.AngerBackgroundRed | src/core/sketch.js:64-65 | the red channel flashes to 70 iff noise is above 75 dB on every tenth frame, else stays 20 |
| CoreSketch.FirstIndexOf | src/core/sketch.js:167 | the first position of the character, or the length when absent |
| CoreSketch.ReplaceFirst | src/core/sketch.js:167 | only the first occurrence is replaced; a string without one is returned unchanged |
| CoreSketch.ReplaceFirstAfterPrefix | src/core/sketch.js:167 | in a string whose first underscore follows an underscore-free prefix, exactly that underscore is replaced |
| CoreSketch.ReplaceFirstAbsent | src/core/sketch.js:167 | a string without the character is returned unchanged |
| CoreSketch.EmotionLabel | src/core/sketch.js:167 | a missing or empty emotion shows STANDBY; otherwise its first underscore becomes a space |
| CoreSketch.UrbanAngerLabel | src/core/sketch.js:167 | URBAN_ANGER shows as "URBAN ANGER" |
| CoreSketch.EcoAnxietyLabel | src/core/sketch.js:167 | ECO_ANXIETY shows as "ECO ANXIETY" |
| CoreSketch.ActiveHopeLabel | src/core/sketch.js:167 | ACTIVE_HOPE shows as "ACTIVE HOPE" |
| CoreSketch.SolastalgiaLabel | src/core/sketch.js:167 | a label without an underscore is shown as is |
| CoreSketch.SecondUnderscoreSurvives | src/core/sketch.js:167 | of two underscores only the first is replaced |
| CoreSketch.DisplayedCo2 | src/core/sketch.js:158 | a missing or zero CO2 shows 400 ppm; any other number is shown |
| CoreSketch.Co2DefaultSurvivesReplies | src/core/sketch.js:16-21 | while replies omit CO2, the panel shows the mirror's 400 ppm |
| FaceProto.FaceText | _archive/prototypes/in-transit-000/in-transit/js/app.js:33-41 | each face of the table has a text of at least five characters |
| FaceProto.FaceTextsDistinct | _archive/prototypes/in-transit-000/in-transit/js/app.js:33-41 | two faces share a text iff they are the same face |
| FaceProto.GetAsciiFace | _archive/prototypes/in-transit-000/in-transit/js/app.js:168-175 | first match wins: cold below 10 °C, hot above 30, polluted above 800 ppm, noisy above 75 dB, stressed above 7, else neutral, each in both directions |
| FaceProto.WarmIsUnreachable | _archive/prototypes/in-transit-000/in-transit/js/app.js:33-41 | the warm face is never shown, and the default data show the neutral face |
| FaceProto.TemperatureTakesPriority | _archive/prototypes/in-transit-000/in-transit/js/app.js:169-170 | a cold or hot reading decides the face whatever the other readings |
| FaceProto.SpawnCount | _archive/prototypes/in-transit-000/in-transit/js/app.js:187 | a frame spawns floor(noise − 30) particles, none when that is not positive |
| FaceProto.SpawnParticles | _archive/prototypes/in-transit-000/in-transit/js/app.js:186-204 | the list keeps the newest min(total, 800) particles, in order |
| FaceProto.CapHolds | _archive/prototypes/in-transit-000/in-transit/js/app.js:201-203 | over any frames the list never exceeds 800 and ends with the latest spawn |
| FaceProto.SpawnAllSnoc | _archive/prototypes/in-transit-000/in-transit/js/app.js:186-204 | one more frame applies one more spawn step to the list |
| FaceProto.GetBoundingBox | _archive/prototypes/in-transit-000/in-transit/js/app.js:275-290 | every point lies inside the box with 50 padding on each side; each edge touches a point or the canvas default, and touches a point whenever all points are on the canvas |
| CityApi.TargetTraffic | _archive/prototypes/in-transit/js/api.js:31-35 | 85 iff rush hour (8–10, 18–20), else 40 |
| CityApi.FetchCityData | _archive/prototypes/in-transit/js/api.js:10-43 | with a key and a reply the temperature is read; otherwise it drifts by a delta in [−0.5, 0.5); traffic lies in [target − 10, target + 10) |
| CityApi.UpdateDom | _archive/prototypes/in-transit/js/api.js:46-62 | the temperature bar is min(2·temp, 100) ≤ 100; the alert colour shows iff traffic exceeds 75 |
| CityApi.AlertOnlyInRushHour | _archive/prototypes/in-transit/js/api.js:35-57 | off-peak traffic stays below 50, so the alert shows only in rush hour, and there for every positive draw |
| CityApi.SimulatedDriftBounded | _archive/prototypes/in-transit/js/api.js:22-26 | after k failed cycles the temperature is within k/2 of where it started |

## Left out

- Network I/O everywhere. Each reply is a parameter: an `Option`, a reply datatype, or a `Reply` of thrown / not ok / ok.
- Timers (`setTimeout`/`setInterval`). They become explicit events (`Polling`) or single steps the caller repeats.
- The clock, `Math.random()` and p5 `random()`. They are parameters, with draws in [0, 1).
- IEEE rounding, infinities and NaN arithmetic. The only NaN guard in the code, in the server's `normalize`, is modelled with `JsValue`.
- Division by a zero range is excluded by `requires min != max` and `inMin != inMax`. Every call site in the code passes distinct bounds.
- ServerEngine.WeekendBase: `Math.sin((hour - 14) / 4)` is a parameter `weekendSine`, bounded in [−1, 1] where a lemma needs it, because the sine is not computed.
- ServerEngine.RunCycle models only the branch the code runs (`usePythonDataSource` is the constant `true`). The OpenWeatherMap branch and `getSimulatedWeather` are dead code.
- The `/weather-data` route that the server cycle requests does not exist in server/data_app.py. The reply is a parameter; against that service as written, every cycle aborts.
- Process termination. An aborted cycle is an unhandled promise rejection: the awaits at server/utils/dataNormalizer.js:150 and :207 have no `try`, the calls at :240 and :247 have no `.catch`, and server/app.js installs no handler. On Node 15 and later this ends the server. The model follows a runtime that keeps going, where polling stalls (`Polling.AbortStallsPolling`).
- ServerEngine.GetCurrentState: `{...this.currentState}` is a shallow copy whose four sections are shared with the engine's record. Records here are values, so that aliasing is not modelled.
- The `BOUNDS` table of the server engine is not used by any modelled operation.
- Console logging.
- The backend engine's `startPolling` and `getCurrentState` are a bare interval timer and a getter, with no decisions to model.
- Tone.js synthesis, effect wiring, ramps and the transport. Only the values handed to them are computed.
- The ambient engine's `dispose`, for the same reason.
- p5 rendering: colours via `lerpColor`, rotation from Perlin noise, text and shapes. The values that decide what is drawn are modelled.
- The flow field, optical-flow motion detection, particle physics and the `windowResized` handlers of the prototypes.
- Camera and face-mesh tracking, and the drawing systems that use the face (filters, waves, transport lines, orbital drawing).
- The pulse-spawn probability in the static sketch's `draw`, and the static `Pulse.display`.
- The Vite front end's `initGrid`, `initAudioEngine`, `updateClock` and the numeric panel texts other than CO2.
- The static sketch's call wiring. It spawns pulses with a constructor named `EmotionPulse`, which the static page does not define (its class is `Pulse`). `updateParticleCount` pushes `new Particle()`, but public/js/visual/Particle.js defines only `DataParticle`, so the first growth from `setup`'s empty list throws; `PublicSketch.UpdateParticleCount` models the intended push. It also hands `weatherState`, which holds the index fields, to `updateFromData`, which reads `temp`/`humidity`. Finally, `fetchWeatherData` copies `tempIndex`, `windIndex`, `rainIndex` and `mobilityIndex` from `/api/weather`, but server/app.js serves the `ServerEngine` record there (server/routes/weather.js), which has none of those keys; against this server `PublicSketch.CopyWeather` always stores undefined and `updateParticleCount` never resizes.
- CoreSketch.EmotionLabel: an emotion that is truthy but not a string would make `replace` throw. Only string labels are modelled.
- CoreSketch.DisplayedCo2: a non-empty string `co2` is truthy, so `co2.toFixed` would throw; the model shows 400 ppm for it instead.
- BiometricAudio.Start: `isStarted` is set only after `await Tone.start()` resolves, so two clicks before that start two loops. The model treats start as one atomic step.
- AmbientAudio.Start: the same race; `isStarted` is set after `await Tone.start()`, so two early clicks start two ambience loops. Start is atomic in the model.
- ProtoAudio.InitAudio: `isAudioStarted` is set only at the end, after `await Tone.start()`, so two early calls start two loops. Start is atomic in the model.
- FaceProto.GetBoundingBox: points are pairs of reals. A face mesh with fewer coordinates is not modelled.
- Express routing and the other servers and routes, which hold no logic of their own.
