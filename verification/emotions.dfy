/** The emotion labels the front ends and audio engines react to. No file of
    the system computes the label; every consumer reads `meta.emotion` and
    compares it against the same four strings, treating every other string
    (including "NEUTRAL") like the last one. */
module Emotions {
  import opened Common

  const URBAN_ANGER: string := "URBAN_ANGER"
  const ECO_ANXIETY: string := "ECO_ANXIETY"
  const SOLASTALGIA: string := "SOLASTALGIA"
  const ACTIVE_HOPE: string := "ACTIVE_HOPE"
  const NEUTRAL: string := "NEUTRAL"

  /** The four behaviours a consumer distinguishes. `Hope` is the fall-through
      of every `switch`/`if` chain: ACTIVE_HOPE and any unknown label. */
  datatype Mood = Anger | Anxiety | Grief | Hope

  function MoodOf(name: string): (m: Mood)
    ensures m == Anger <==> name == URBAN_ANGER
    ensures m == Anxiety <==> name == ECO_ANXIETY
    ensures m == Grief <==> name == SOLASTALGIA
    ensures m == Hope <==> name !in {URBAN_ANGER, ECO_ANXIETY, SOLASTALGIA}
  {
    if name == URBAN_ANGER then Anger
    else if name == ECO_ANXIETY then Anxiety
    else if name == SOLASTALGIA then Grief
    else Hope
  }

  /** JavaScript's `emotion || fallback` on a string field: a missing or empty
      name is falsy and yields the fallback. */
  function LabelOr(name: Option<string>, fallback: string): (r: string)
    ensures name.Some? && name.value != "" ==> r == name.value
    ensures name.None? || name.value == "" ==> r == fallback
  {
    if name.Some? && name.value != "" then name.value else fallback
  }
}
