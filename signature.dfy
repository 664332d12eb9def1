/**
 * The animated signature drawn on the home and about pages: the stroke
 * width chosen on each animation frame from the timeline's progress.
 */
module Signature {

  /** The `onUpdate` banding: thicker in the middle of the stroke, "3" outside the open bands. */
  function StrokeWidth(progress: real): (r: string)
    ensures r == "3.5" <==> 0.2 < progress < 0.6
    ensures r == "3.2" <==> 0.6 < progress < 0.9
    ensures r == "3" <==> progress <= 0.2 || progress == 0.6 || 0.9 <= progress
  {
    if 0.2 < progress < 0.6 then "3.5"
    else if 0.6 < progress < 0.9 then "3.2"
    else "3"
  }

  /** Every frame uses one of the three widths. */
  lemma WidthChoices(progress: real)
    ensures StrokeWidth(progress) in {"3", "3.2", "3.5"}
  {
  }
}
