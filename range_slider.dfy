/**
 * The RangeSlider component's two range buttons (src/App.tsx:316-321): one
 * narrows the slider's maximum and is disabled at the stepper's minimum, the
 * other widens it and is disabled at 1000. The widen button's bound is the same
 * for every slider, but the subject-height stepper goes up to 2000.
 */
module RangeSlider {
  import opened AppState

  /** The narrow button is disabled once the maximum is at (or below) the stepper's minimum. */
  function DecreaseDisabled(max: int, minRange: int): bool { max <= minRange }

  /** The widen button as written: disabled from 1000 on, whatever the stepper's range. */
  function IncreaseDisabledAsWritten(max: int): bool { max >= 1000 }

  /** The widen button as intended: disabled once the maximum reaches the stepper's own upper bound. */
  function IncreaseDisabled(max: int, range: StepRange): bool { max >= range.max }

  /*
   * The narrow button's `minRange` prop (src/App.tsx:464, 477, 490) is 100, 10
   * and 100, which is the `min` of the matching stepper (src/App.tsx:383-385);
   * the clicks below therefore pass `range.min` for it.
   */

  /**
   * A click on a range button as written: a disabled button does nothing, an
   * enabled one steps. On a well-formed range the maximum stays on the grid, and
   * it stays put exactly when the button is disabled or the stepper is already
   * at its bound, so the as-written widen button can be enabled without effect.
   */
  function ClickAsWritten(max: int, range: StepRange, increase: bool): (next: int)
    ensures increase && IncreaseDisabledAsWritten(max) ==> next == max
    ensures !increase && DecreaseDisabled(max, range.min) ==> next == max
    ensures WellFormed(range) && OnGrid(max, range) ==>
      OnGrid(next, range) &&
      (next == max <==>
        (increase && (IncreaseDisabledAsWritten(max) || IncreaseDisabled(max, range))) ||
        (!increase && DecreaseDisabled(max, range.min)))
  {
    if increase && IncreaseDisabledAsWritten(max) then max
    else if !increase && DecreaseDisabled(max, range.min) then max
    else
      var next := Step(max, range, increase);
      assert WellFormed(range) && OnGrid(max, range) ==> OnGrid(next, range) by {
        if WellFormed(range) && OnGrid(max, range) {
          StepKeepsGrid(max, range, increase);
        }
      }
      next
  }

  /**
   * A click with the widen button bounded by the stepper's own maximum. On a
   * well-formed range the maximum stays on the grid, and it stays put exactly
   * when the pressed button is disabled.
   */
  function Click(max: int, range: StepRange, increase: bool): (next: int)
    ensures increase && IncreaseDisabled(max, range) ==> next == max
    ensures !increase && DecreaseDisabled(max, range.min) ==> next == max
    ensures WellFormed(range) && OnGrid(max, range) ==>
      OnGrid(next, range) &&
      (next == max <==>
        (increase && IncreaseDisabled(max, range)) || (!increase && DecreaseDisabled(max, range.min)))
  {
    if increase && IncreaseDisabled(max, range) then max
    else if !increase && DecreaseDisabled(max, range.min) then max
    else
      var next := Step(max, range, increase);
      assert WellFormed(range) && OnGrid(max, range) ==> OnGrid(next, range) by {
        if WellFormed(range) && OnGrid(max, range) {
          StepKeepsGrid(max, range, increase);
        }
      }
      next
  }

  /**
   * As written, the subject-height slider's maximum stops at 1000: the widen
   * button is disabled there although the stepper would move it to 1100.
   */
  lemma SubjectHeightStopsAtThousand()
    ensures OnGrid(1000, SubjectHeightRange)
    ensures IncreaseDisabledAsWritten(1000)
    ensures Step(1000, SubjectHeightRange, true) == 1100
    ensures ClickAsWritten(1000, SubjectHeightRange, true) == 1000
  {
  }

  /** As written, no click sequence starting at or below 1000 ever gets the subject-height maximum above 1000. */
  lemma {:induction false} SubjectHeightNeverAboveThousand(start: int, clicks: seq<bool>)
    requires OnGrid(start, SubjectHeightRange) && start <= 1000
    ensures ClicksAsWritten(start, SubjectHeightRange, clicks) <= 1000
    decreases |clicks|
  {
    if |clicks| > 0 {
      var next := ClickAsWritten(start, SubjectHeightRange, clicks[0]);
      StepKeepsGrid(start, SubjectHeightRange, clicks[0]);
      SubjectHeightNeverAboveThousand(next, clicks[1..]);
    }
  }

  /** A sequence of clicks, as written. */
  function ClicksAsWritten(start: int, range: StepRange, clicks: seq<bool>): int
    decreases |clicks|
  {
    if |clicks| == 0 then start else ClicksAsWritten(ClickAsWritten(start, range, clicks[0]), range, clicks[1..])
  }

  /**
   * With the bound taken from the stepper, each button is disabled exactly when
   * a press would not change the maximum.
   */
  lemma ButtonsDisabledIffNoOp(max: int, range: StepRange)
    requires range.step > 0 && range.min <= max <= range.max
    ensures IncreaseDisabled(max, range) <==> Step(max, range, true) == max
    ensures DecreaseDisabled(max, range.min) <==> Step(max, range, false) == max
  {
  }

  /** With the bound taken from the stepper, every on-grid maximum below the top can still be widened by one step. */
  lemma ClickWidensBelowTop(max: int, range: StepRange)
    requires WellFormed(range) && OnGrid(max, range) && max < range.max
    ensures Click(max, range, true) == max + range.step
  {
    var q := (max - range.min) / range.step;
    var top := (range.max - range.min) / range.step;
    assert max - range.min == q * range.step;
    assert range.max - range.min == top * range.step;
    if top <= q {
      ScaleMonotone(top, q, range.step);
      assert false;
    }
    ScaleMonotone(q + 1, top, range.step);
  }

  lemma ScaleMonotone(a: int, b: int, s: int)
    requires a <= b && s >= 0
    ensures a * s <= b * s
  {
    assert b * s - a * s == (b - a) * s;
  }

  /** For the focal-length and distance sliders, whose steppers end at 1000, the written bound is the intended one. */
  lemma AsWrittenMatchesUpToThousand(max: int)
    ensures IncreaseDisabledAsWritten(max) == IncreaseDisabled(max, FocalLengthRange)
    ensures IncreaseDisabledAsWritten(max) == IncreaseDisabled(max, SubjectDistanceRange)
  {
  }
}
