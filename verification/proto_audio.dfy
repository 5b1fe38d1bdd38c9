/** The audio engine of the flow-field prototype
    (_archive/prototypes/in-transit-000/audioEngine.js): the choice of scale,
    tempo and reverb from the current indices, and one beat of the generative
    loop. Random draws are parameters; Tone.js is not modelled. */
module ProtoAudio {
  import opened Common
  import FS = FlowSketch

  datatype Scale = HOPE | MELANCHOLY | ANGER

  function Notes(s: Scale): (notes: seq<string>)
    ensures |notes| > 0
  {
    match s
    case HOPE => ["C4", "E4", "G4", "B4", "C5"]
    case MELANCHOLY => ["C3", "Eb3", "G3", "Bb3"]
    case ANGER => ["C4", "C#4", "F#4", "G#4"]
  }

  /** The audio state `initAudio` and `updateAudioParams` share: whether the
      engine started and the notes the loop draws from. */
  datatype Engine = Engine(isAudioStarted: bool, currentNotes: Scale)

  const INITIAL: Engine := Engine(false, HOPE)

  /** `initAudio`: a no-op once started; otherwise starts (the loop and the
      transport) when `Tone.start()` resolves, keeping the current notes. */
  function InitAudio(e: Engine, toneStarted: bool): (e': Engine)
    ensures e.isAudioStarted ==> e' == e
    ensures !e.isAudioStarted ==> e'.isAudioStarted == toneStarted
    ensures e'.currentNotes == e.currentNotes
  {
    if e.isAudioStarted then e else e.(isAudioStarted := toneStarted)
  }

  /** Every key press and click calls `initAudio`; after the first success
      further calls change nothing. */
  lemma InitAudioIdempotent(e: Engine, t: bool)
    ensures InitAudio(InitAudio(e, true), t) == InitAudio(e, true)
    ensures InitAudio(e, true).isAudioStarted
  {
  }

  /** What `updateAudioParams` sets: the scale, the tempo target, the reverb
      wet level, the reverb decay (only the melancholy mode sets it), the
      synth detune (the melancholy mode leaves it alone) and the filter
      frequency. */
  datatype Params = Params(scale: Scale, bpm: real, reverbWet: real, reverbDecay: Option<real>,
                           detune: Option<real>, filterFreq: real)

  /** `updateAudioParams`. `rDetune` is the random draw of the anger mode.
      The filter frequency is p5's unclamped `map(tempIndex, 0, 1, 200, 5000)`. */
  function UpdateAudioParams(started: bool, d: FS.Indices, rDetune: real): (p: Option<Params>)
    requires IsRandom(rDetune)
    ensures !started <==> p.None?
    ensures p.Some? && d.rainIndex > 0.5 ==>
      p.value.scale == MELANCHOLY && p.value.bpm == 60.0 && p.value.reverbWet == 0.8
      && p.value.reverbDecay == Some(6.0) && p.value.detune.None?
    ensures p.Some? && d.rainIndex <= 0.5 && d.chaosIndex > 0.6 ==>
      p.value.scale == ANGER && p.value.bpm == 140.0 && p.value.reverbWet == 0.1
      && p.value.detune.Some? && 0.0 <= p.value.detune.value < 50.0
    ensures p.Some? && d.rainIndex <= 0.5 && d.chaosIndex <= 0.6 ==>
      p.value.scale == HOPE && p.value.bpm == 90.0 && p.value.reverbWet == 0.3
      && p.value.detune == Some(0.0)
  {
    if !started then None
    else
      var filterFreq := 200.0 + d.tempIndex * 4800.0;
      if d.rainIndex > 0.5 then Some(Params(MELANCHOLY, 60.0, 0.8, Some(6.0), None, filterFreq))
      else if d.chaosIndex > 0.6 then Some(Params(ANGER, 140.0, 0.1, None, Some(rDetune * 50.0), filterFreq))
      else Some(Params(HOPE, 90.0, 0.3, None, Some(0.0), filterFreq))
  }

  /** The mode order is a priority order: rain wins over chaos, and each
      scale is selected by exactly one region of the (rain, chaos) plane. */
  lemma ScaleSelectionPriority(d: FS.Indices, rDetune: real)
    requires IsRandom(rDetune)
    ensures var s := UpdateAudioParams(true, d, rDetune).value.scale;
            && (s == MELANCHOLY <==> d.rainIndex > 0.5)
            && (s == ANGER <==> d.rainIndex <= 0.5 && d.chaosIndex > 0.6)
            && (s == HOPE <==> d.rainIndex <= 0.5 && d.chaosIndex <= 0.6)
  {
  }

  /** For an in-range temperature index the filter sweeps [200, 5000] Hz,
      monotonically in the index. */
  lemma FilterFollowsTemperature(d: FS.Indices, d2: FS.Indices, rDetune: real)
    requires IsRandom(rDetune)
    requires FS.InUnitRange(d)
    ensures 200.0 <= UpdateAudioParams(true, d, rDetune).value.filterFreq <= 5000.0
    ensures d.tempIndex <= d2.tempIndex ==>
      UpdateAudioParams(true, d, rDetune).value.filterFreq <= UpdateAudioParams(true, d2, rDetune).value.filterFreq
  {
  }

  /** Each keyboard preset of the sketch selects the mode it is named after. */
  lemma PresetsSelectTheirModes(rDetune: real)
    requires IsRandom(rDetune)
    ensures UpdateAudioParams(true, FS.KeyPressed(FS.INITIAL_DATA, '1'), rDetune).value.scale == HOPE
    ensures UpdateAudioParams(true, FS.KeyPressed(FS.INITIAL_DATA, '2'), rDetune).value.scale == MELANCHOLY
    ensures UpdateAudioParams(true, FS.KeyPressed(FS.INITIAL_DATA, '3'), rDetune).value.scale == ANGER
  {
  }

  /** One beat of the loop: the note played (if any) and whether the membrane
      hit sounds. */
  datatype Beat = Beat(note: Option<string>, membrane: bool)

  /** A beat plays a note with probability `densityIndex + 0.2` (draw
      `rFire`), picks it with draw `rNote`, and adds the membrane hit only on
      a beat that played a note while the density exceeds 0.6. */
  function LoopBeat(d: FS.Indices, notes: seq<string>, rFire: real, rNote: real): (b: Beat)
    requires |notes| > 0 && IsRandom(rNote)
    ensures b.membrane ==> b.note.Some? && d.densityIndex > 0.6
    ensures b.note.Some? <==> rFire < d.densityIndex + 0.2
    ensures b.note.Some? ==> b.note.value in notes
    ensures b.note.Some? && d.densityIndex > 0.6 ==> b.membrane
  {
    if rFire < d.densityIndex + 0.2 then
      Beat(Some(notes[DrawIndex(rNote, |notes|)]), d.densityIndex > 0.6)
    else
      Beat(None, false)
  }

  /** A beat of a started engine after an update plays from the scale the
      update chose; the membrane only sounds in dense traffic. */
  lemma BeatUsesChosenScale(d: FS.Indices, rDetune: real, rFire: real, rNote: real)
    requires IsRandom(rDetune) && IsRandom(rNote)
    ensures var p := UpdateAudioParams(true, d, rDetune).value;
            var b := LoopBeat(d, Notes(p.scale), rFire, rNote);
            && (b.note.Some? ==> b.note.value in Notes(p.scale))
            && (d.rainIndex > 0.5 && b.note.Some? ==> b.note.value in Notes(MELANCHOLY))
            && (b.membrane ==> d.densityIndex > 0.6)
  {
  }
}
