/** The visual agents of the Vite front end (src/visual/Particle.js): a grid
    agent's colour, evolution rate, evolution step and drawing guard, and a
    CO2 particle's step with wrap-around. p5's `random()` draws, the frame
    counter and the canvas size are parameters; rotation (Perlin noise) and
    the drawing calls themselves are not modelled. */
module GridAgents {
  import opened Common
  import opened Emotions

  // ---------------------------------------------------------------------
  // Grid agents
  // ---------------------------------------------------------------------

  const ANGER_RED: string := "#ff3333"
  const TOXIC_GREEN: string := "#ccff00"
  const MUTED_BLUE: string := "#8899aa"
  const HOPE_CYAN: string := "#00f0ff"

  /** The glyphs a type-3 agent draws from. */
  const GLYPHS: string := "?!#%&@"

  /** An agent's shape (0 empty, 1 line, 2 block, 3 glyph), its glyph and its
      colour. */
  datatype Agent = Agent(kind: int, character: string, colour: string)

  const NEW_AGENT: Agent := Agent(0, "", "#ffffff")

  /** The colour `update` gives for the record's emotion (`|| "NEUTRAL"`). */
  function AgentColour(emotion: Option<string>): (c: string)
    ensures c == ANGER_RED <==> LabelOr(emotion, NEUTRAL) == URBAN_ANGER
    ensures c == TOXIC_GREEN <==> LabelOr(emotion, NEUTRAL) == ECO_ANXIETY
    ensures c == MUTED_BLUE <==> LabelOr(emotion, NEUTRAL) == SOLASTALGIA
    ensures c == HOPE_CYAN <==> MoodOf(LabelOr(emotion, NEUTRAL)) == Hope
  {
    match MoodOf(LabelOr(emotion, NEUTRAL))
    case Anger => ANGER_RED
    case Anxiety => TOXIC_GREEN
    case Grief => MUTED_BLUE
    case Hope => HOPE_CYAN
  }

  /** Frames between evolution steps: stress makes the grid change faster. */
  function ChangeRate(emotion: Option<string>): (rate: nat)
    ensures rate == 10 <==> LabelOr(emotion, NEUTRAL) == URBAN_ANGER
    ensures rate == 60 <==> LabelOr(emotion, NEUTRAL) != URBAN_ANGER
  {
    if LabelOr(emotion, NEUTRAL) == URBAN_ANGER then 10 else 60
  }

  /** `evolve` reads the raw emotion; the activation threshold is 0.8 under
      anger, 0.1 under solastalgia and 0.3 otherwise (a missing label included). */
  function ActiveThreshold(emotion: Option<string>): (t: real)
    ensures emotion == Some(URBAN_ANGER) ==> t == 0.8
    ensures emotion == Some(SOLASTALGIA) ==> t == 0.1
    ensures emotion !in {Some(URBAN_ANGER), Some(SOLASTALGIA)} ==> t == 0.3
  {
    var t0 := 0.3;
    var t1 := if emotion == Some(URBAN_ANGER) then 0.8 else t0;
    if emotion == Some(SOLASTALGIA) then 0.1 else t1
  }

  /** `evolve` with draws `r` (activity) and `rChar` (which glyph). */
  function Evolve(a: Agent, emotion: Option<string>, r: real, rChar: real): (a': Agent)
    requires IsRandom(rChar)
    ensures 0 <= a'.kind <= 3
    ensures a'.kind != 0 <==> r < ActiveThreshold(emotion)
    ensures a'.kind == 3 <==> r < ActiveThreshold(emotion) && emotion == Some(ECO_ANXIETY)
    ensures a'.kind == 1 <==> r < ActiveThreshold(emotion) && emotion == Some(URBAN_ANGER)
    ensures a'.kind == 3 ==> |a'.character| == 1 && a'.character[0] in GLYPHS
    ensures a'.kind != 3 ==> a'.character == a.character
    ensures a'.colour == a.colour
  {
    if r < ActiveThreshold(emotion) then
      if emotion == Some(ECO_ANXIETY) then
        a.(kind := 3, character := [GLYPHS[DrawIndex(rChar, |GLYPHS|)]])
      else if emotion == Some(URBAN_ANGER) then a.(kind := 1)
      else a.(kind := 2)
    else
      a.(kind := 0)
  }

  /** `update` at frame `frameCount`: recolour, then evolve on frames that are
      a multiple of the change rate. */
  function Update(a: Agent, emotion: Option<string>, frameCount: nat, r: real, rChar: real): (a': Agent)
    requires IsRandom(rChar)
    ensures a'.colour == AgentColour(emotion)
    ensures frameCount % ChangeRate(emotion) != 0 ==> a'.kind == a.kind && a'.character == a.character
    ensures frameCount % ChangeRate(emotion) == 0 ==> (a'.kind != 0 <==> r < ActiveThreshold(emotion))
  {
    var coloured := a.(colour := AgentColour(emotion));
    if frameCount % ChangeRate(emotion) == 0 then Evolve(coloured, emotion, r, rChar) else coloured
  }

  /** A type-0 agent draws nothing; the others draw their shape. */
  datatype Shape = Line | Block | Glyph(character: string)

  function Display(a: Agent): (s: Option<Shape>)
    ensures s.None? <==> a.kind !in {1, 2, 3}
    ensures a.kind == 3 ==> s == Some(Glyph(a.character))
  {
    if a.kind == 0 then None
    else if a.kind == 1 then Some(Line)
    else if a.kind == 2 then Some(Block)
    else if a.kind == 3 then Some(Glyph(a.character))
    else None
  }

  /** Whatever the frame and the draws, an updated agent has a shape kind in
      0..3 (starting from one that has), and it is drawn exactly when the
      kind is not 0. */
  lemma UpdateKeepsKind(a: Agent, emotion: Option<string>, frameCount: nat, r: real, rChar: real)
    requires IsRandom(rChar)
    requires 0 <= a.kind <= 3
    ensures 0 <= Update(a, emotion, frameCount, r, rChar).kind <= 3
    ensures Display(Update(a, emotion, frameCount, r, rChar)).None? <==> Update(a, emotion, frameCount, r, rChar).kind == 0
  {
  }

  /** Every frame at which a calm grid evolves, an angry grid evolves too:
      the anger rate divides the calm rate. */
  lemma AngerEvolvesOnEveryCalmFrame(frameCount: nat, calm: Option<string>)
    requires frameCount % ChangeRate(calm) == 0
    ensures frameCount % ChangeRate(Some(URBAN_ANGER)) == 0
  {
    if ChangeRate(calm) == 60 {
      var k := frameCount / 60;
      assert frameCount == 10 * (6 * k);
    }
  }

  /** The colour identifies the mood: two labels get the same colour exactly
      when a consumer treats them alike. */
  lemma ColoursDistinguishMoods(a: Option<string>, b: Option<string>)
    ensures AgentColour(a) == AgentColour(b) <==> MoodOf(LabelOr(a, NEUTRAL)) == MoodOf(LabelOr(b, NEUTRAL))
  {
    assert ANGER_RED[1] != TOXIC_GREEN[1] && ANGER_RED[1] != MUTED_BLUE[1] && ANGER_RED[1] != HOPE_CYAN[1];
    assert TOXIC_GREEN[1] != MUTED_BLUE[1] && TOXIC_GREEN[1] != HOPE_CYAN[1];
    assert MUTED_BLUE[1] != HOPE_CYAN[1];
  }

  // ---------------------------------------------------------------------
  // CO2 particles
  // ---------------------------------------------------------------------

  /** A CO2 particle: position, velocity and fill. */
  datatype Colour = Toxic | Grey(level: real)
  datatype Co2Particle = Co2Particle(x: real, y: real, vx: real, vy: real, colour: Colour)

  /** `Co2Particle.update`: green under eco-anxiety, otherwise a grey that
      darkens from 150 to 50 as CO2 rises from 400 to 1200 ppm; the step is
      scaled by 0.5..2 with CO2 and wraps at each edge. */
  function Co2Update(p: Co2Particle, co2Level: real, emotion: string, width: real, height: real): (q: Co2Particle)
    requires width >= 0.0 && height >= 0.0
    ensures 0.0 <= q.x <= width && 0.0 <= q.y <= height
    ensures q.vx == p.vx && q.vy == p.vy
    ensures q.colour == Toxic <==> emotion == ECO_ANXIETY
    ensures q.colour.Grey? ==> 50.0 <= q.colour.level <= 150.0
  {
    var colour := if emotion == ECO_ANXIETY then Toxic else Grey(P5Map(co2Level, 400.0, 1200.0, 150.0, 50.0, true));
    var speedMult := P5Map(co2Level, 400.0, 1200.0, 0.5, 2.0, true);
    Co2Particle(Wrap(p.x + p.vx * speedMult, width), Wrap(p.y + p.vy * speedMult, height), p.vx, p.vy, colour)
  }

  /** The two edge checks of one axis: below 0 jumps to the far edge, then
      beyond the far edge jumps to 0. */
  function Wrap(v: real, limit: real): (w: real)
    requires limit >= 0.0
    ensures 0.0 <= w <= limit
    ensures 0.0 <= v <= limit ==> w == v
    ensures v < 0.0 ==> w == limit
    ensures v > limit ==> w == 0.0
  {
    var a := if v < 0.0 then limit else v;
    if a > limit then 0.0 else a
  }

  /** A particle that stays on the canvas after its step is not wrapped, and
      one that leaves it through any edge reappears on the opposite edge of
      that axis. */
  lemma Co2WrapOnlyWhenLeaving(p: Co2Particle, co2Level: real, emotion: string, width: real, height: real)
    requires width >= 0.0 && height >= 0.0
    ensures var s := P5Map(co2Level, 400.0, 1200.0, 0.5, 2.0, true);
            var q := Co2Update(p, co2Level, emotion, width, height);
            && 0.5 <= s <= 2.0
            && (0.0 <= p.x + p.vx * s <= width ==> q.x == p.x + p.vx * s)
            && (p.x + p.vx * s < 0.0 ==> q.x == width)
            && (p.x + p.vx * s > width ==> q.x == 0.0)
            && (0.0 <= p.y + p.vy * s <= height ==> q.y == p.y + p.vy * s)
            && (p.y + p.vy * s < 0.0 ==> q.y == height)
            && (p.y + p.vy * s > height ==> q.y == 0.0)
  {
    var s := P5Map(co2Level, 400.0, 1200.0, 0.5, 2.0, true);
    var q := Co2Update(p, co2Level, emotion, width, height);
    assert q.x == Wrap(p.x + p.vx * s, width);
    assert q.y == Wrap(p.y + p.vy * s, height);
  }
}
