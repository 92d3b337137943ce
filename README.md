# wlsib framing calculator: a Dafny model

"レンズ何持ってく？" (which lens should I bring?) is a single-page React app. From
a camera sensor size, a lens focal length and a subject distance it computes the
real-world area the camera captures. It then draws that area as a frame on a
square canvas, with an optional cinema letterbox and a human silhouette of the
chosen height, to scale. This project models the arithmetic behind that
drawing, and the App state that feeds it, in `src/App.tsx`:

- `geometry.dfy` (module `Geometry`): sizes and rectangles, and
  `calculateShootingArea`, with its linearity and monotonicity in distance and
  focal length.
- `layout.dfy` (module `Layout`), the arithmetic of the `ShootingArea`
  component:
  - the orientation-matched mm-to-px scale;
  - the fit-and-centre pass for the frame;
  - `adjustLetterboxSize`, the letterbox re-fit and its centring;
  - the silhouette's placement;
  - the whole layout (`ComputeLayout`);
  - what holds once the scale in state is fresh and the canvas is square, as
    the page lays it out.
- `view.dfy` (module `View`): the component's `boxSize` / `mmToPxScale` state
  and the effect that updates it. The effect computes the scale from the box
  size the render saw, so it lags one run behind a new measurement.
- `app_state.dfy` (module `AppState`):
  - the sensor preset table and `sensorSizes.find`;
  - the clamped range stepper `createRangeHandler`;
  - the `App` component's state as a class whose methods are the select,
    text-field and range-button handlers.
- `range_slider.dfy` (module `RangeSlider`): the enabled and disabled state of
  the range buttons (see Findings).
- `wrappers.dfy`: `Option`.

Lengths are exact reals. The layout functions take the canvas box size and the
mm-to-px scale as parameters, because the component keeps both as state that
can lag behind the inputs. A stale box changes the whole drawing, but a stale
scale changes only the silhouette: its size, and with it its vertical placement
and whether it overflows the frame. The frame and the letterbox are the same at
every positive scale (`Layout.LayoutIgnoresScale`).

Three behaviours of the code that are easy to get wrong:

- A letterbox does not always have the target ratio. When the pixel frame is
  already at least as long as the ratio along the sensor's long axis,
  `adjustLetterboxSize` returns the frame unchanged (`Layout.AdjustLetterboxSizeCases`,
  `Layout.LetterboxIsFrame`).
- A silhouette taller than the letterbox is not centred on the frame. It is
  top-aligned at the letterbox's top edge (`Layout.PlaceSubject`).
- The letterbox ratios are those of the ratio table (src/App.tsx:59-65): 1.77 and
  2.39. The menu labels say 1.78:1 and 2.35:1 (src/App.tsx:553, 556).

## Model

| member | source | states |
|---|---|---|
| Geometry.ShootingArea | src/App.tsx:78-92 | the shooting area has the sensor's aspect ratio, and both sides are positive for a positive sensor and distance |
| Geometry.ShootingAreaMagnifiesSensor | src/App.tsx:85-91 | the area is the sensor magnified by distance x 1000 / focal length; each side times the focal length is the sensor side times the distance in mm |
| Geometry.ShootingAreaLinearInDistance | src/App.tsx:85-91 | multiplying the distance by k multiplies the area by k |
| Geometry.ShootingAreaInverseInFocalLength | src/App.tsx:85-91 | multiplying the focal length by k divides the area by k |
| Geometry.ShootingAreaMonotoneInDistance | src/App.tsx:85-91 | a farther subject never gives a smaller area |
| Geometry.ShootingAreaAntitoneInFocalLength | src/App.tsx:85-91 | a longer lens never gives a larger area |
| Geometry.FullFrameExample | src/App.tsx:78-92 | 36 x 24 mm, 50 mm and 2 m give 1440 x 960 mm |
| Layout.OrientedScale | src/App.tsx:119-126 | the scale makes the area span the box width for a landscape sensor (ties count as landscape) and the box height for a portrait one; it is non-negative |
| Layout.FramePxLikeSensor | src/App.tsx:145-150 | the pixel frame is positive, has the sensor's aspect ratio and has the sensor's orientation |
| Layout.FramePxMagnifiesSensor | src/App.tsx:145-150 | the pixel frame is the sensor magnified by one positive factor |
| Layout.FramePx | src/App.tsx:147-150 | no ensures; its properties are stated by FramePxLikeSensor and FramePxMagnifiesSensor |
| Layout.FitScale | src/App.tsx:167 | no ensures; its properties are stated by FitScaleFits and FitScaleIsLargest |
| Layout.FitScaleFits | src/App.tsx:167-169 | content scaled by the fit factor fits the box on both axes and meets it on at least one; the factor is non-negative for a measured box |
| Layout.FitScaleIsLargest | src/App.tsx:167 | every factor that fits is at most the fit factor |
| Layout.FrameRect | src/App.tsx:166-174 | no ensures; its properties are stated by FrameRectCentredInBox and FrameRectIgnoresScale |
| Layout.FrameRectCentredInBox | src/App.tsx:166-174 | the frame lies inside the box, is centred in it, keeps the pixel frame's aspect ratio and touches the box on one axis |
| Layout.LetterboxRatio | src/App.tsx:59-65 | every ratio is at least 1; it is exactly 1 if and only if no letterbox is selected |
| Layout.AdjustLetterboxSize | src/App.tsx:152-164 | no ensures; its properties are stated by AdjustLetterboxSizeCases and AdjustIsHomogeneous |
| Layout.AdjustLetterboxSizeCases | src/App.tsx:152-164 | landscape: the frame when it is already at least the ratio wide, otherwise (height x ratio, height); portrait: the mirror image; never smaller than the frame |
| Layout.AdjustWithoutLetterboxIsFrame | src/App.tsx:152-164 | with ratio 1 the adjusted size is the pixel frame |
| Layout.LetterboxSize | src/App.tsx:180-185 | the re-fitted letterbox fits the box and meets it on at least one axis |
| Layout.FittedSizeFits | src/App.tsx:183-185 | any positive size re-fitted with the fit factor fits the box and meets it on at least one axis |
| Layout.RefitWidensToRatio | src/App.tsx:155-157 | a landscape frame narrower than the ratio gets a letterbox with width = height x ratio after the re-fit |
| Layout.RefitHeightensToRatio | src/App.tsx:159-161 | a portrait frame flatter than the ratio gets a letterbox with height = width x ratio after the re-fit |
| Layout.RefitKeepsFrame | src/App.tsx:152-185 | a frame already as long as the ratio gets a letterbox the size of the fitted frame |
| Layout.LetterboxHasRatio | src/App.tsx:152-185 | for any scale and box, a sensor shorter than the ratio along its long axis gets a letterbox of exactly that ratio |
| Layout.LetterboxIsFrame | src/App.tsx:152-185 | for any scale and box, a sensor at least as long as the ratio (so any sensor without a letterbox) gets a letterbox the size of the frame |
| Layout.LetterboxRect | src/App.tsx:229-234 | the letterbox rectangle has the re-fitted size and the frame's centre |
| Layout.CentredSmallerIsWithin | src/App.tsx:229-234 | a size no larger than the frame, centred on it, lies inside it |
| Layout.SubjectHeightPx | src/App.tsx:171 | the silhouette height (cm x 10 x the scale in state) is non-negative |
| Layout.ImageAspect | src/App.tsx:213 | the aspect times the loaded image's height is its width; before the image loads it is 1 |
| Layout.PlaceSubject | src/App.tsx:187-214 | horizontally centred on the frame; with a letterbox, top-aligned at its top edge on overflow, otherwise centred on letterbox and frame and inside the letterbox; without one, top-aligned at the frame on overflow, otherwise centred and inside the frame; width = height x image aspect |
| Layout.ComputeLayout | src/App.tsx:145-234 | the frame is inside the box, centred, and has the sensor's aspect ratio; a letterbox is drawn if and only if one is selected, lies inside the box and shares the frame's centre; the silhouette is horizontally centred on the frame and has the state-scale height; the letterbox is LetterboxRect of LetterboxSize on the frame and the silhouette is PlaceSubject on the frame, so the lemmas about those reach the drawn layout |
| Layout.FreshSquareIsOrientedScale | src/App.tsx:119-126 | on a square box, a scale is fresh (the area's long side times the scale equals the box side) if and only if it is the scale the effect computes |
| Layout.FreshSquareSpansBox | src/App.tsx:119-126 | with a fresh scale and a square box, the pixel frame spans the box along the sensor's orientation axis and fits along the other |
| Layout.SpanningFrameIsUnfitted | src/App.tsx:166-174 | when the pixel frame spans the box, the fit factor is 1 and the frame is the pixel frame, centred |
| Layout.FreshSquareFrameIsPixelFrame | src/App.tsx:145-174 | with a fresh scale and a square box, the fit pass changes nothing, and the frame's width (landscape) or height (portrait) equals the box's |
| Layout.SpanningLetterboxWithinFrame | src/App.tsx:180-185 | when the pixel frame spans the box, the re-fitted, centred letterbox lies inside the frame |
| Layout.FreshSquareLetterboxWithinFrame | src/App.tsx:408-419 | on the square canvas the page lays out, with a fresh scale, the drawn letterbox lies inside the drawn frame |
| Layout.SpanningSubjectToScale | src/App.tsx:171 | when the pixel frame spans the box, a length drawn at the state scale relates to the frame's height as the length to the area's height, and exceeds it if and only if the length exceeds the area's height |
| Layout.FreshSquareSubjectToScale | src/App.tsx:171 | with a fresh scale and a square box, the silhouette relates to the frame as the subject's height to the area's height; it overflows the frame if and only if the subject is taller than the area |
| Layout.FitIgnoresScale | src/App.tsx:167-169 | re-fitting a size magnified by any positive factor gives the same fitted size as re-fitting the size itself |
| Layout.FrameRectIgnoresScale | src/App.tsx:166-174 | the frame of a pixel frame magnified by any positive factor is the same frame |
| Layout.AdjustIsHomogeneous | src/App.tsx:152-164 | adjusting a magnified pixel frame gives the adjusted frame magnified by the same factor |
| Layout.RefitIgnoresScale | src/App.tsx:180-185 | the re-fitted letterbox of a magnified pixel frame is the re-fitted letterbox of the frame itself |
| Layout.FrameAndLetterboxIgnoreScale | src/App.tsx:145-185 | any two positive mm-to-px scales give the same frame and the same letterbox size |
| Layout.LayoutIgnoresScale | src/App.tsx:145-234 | ComputeLayout's frame and letterbox are the same at any two positive scales; only the silhouette depends on the scale |
| Layout.SquareLetterboxWithinFrame | src/App.tsx:180-185 | on a square canvas the drawn letterbox lies inside the drawn frame at every positive scale, fresh or stale |
| Layout.FullFrameCinescopeExample | src/App.tsx:145-214 | full frame, 50 mm, 2 m, 500 px box, cinescope: frame (0, 83 1/3, 500, 333 1/3), letterbox 500 x 500/2.39 centred on it, a 300 cm subject top-aligned with the letterbox |
| Layout.FullFrameOverflowExample | src/App.tsx:203-206 | the same shot without a letterbox: the 300 cm subject overflows and is top-aligned with the frame |
| View.ShootingAreaView.constructor | src/App.tsx:104-105 | the box starts at 0 x 0 and the scale at 1 |
| View.ShootingAreaView.RunEffect | src/App.tsx:108-128 | unmounted: nothing changes; mounted: the box becomes the measurement, and the scale is the oriented scale for the box the render saw |
| View.ShootingAreaView.Resize | src/App.tsx:130-135 | the resize listener stores the new measurement |
| View.ShootingAreaView.Settle | src/App.tsx:108-143 | once the effect has re-run for a changed box, the box is the measurement and the scale is fresh for it |
| View.FirstRenders | src/App.tsx:104-128 | mounting a 500 x 500 canvas for full frame, 50 mm and 2 m: the first effect run leaves the scale at 0, the settled scale is 500/1440, and the settled frame is 500 px wide |
| AppState.SensorPresets | src/App.tsx:37-54 | the sixteen presets, name, width and height, in the source's order; their properties are stated by the lemmas below |
| AppState.FindPreset | src/App.tsx:353 | the index of the first preset with the given name, or None exactly when no preset has it |
| AppState.PresetsArePositive | src/App.tsx:37-54 | every preset has positive width and height |
| AppState.PortraitPresetsAreRotations | src/App.tsx:37-54 | the first eight presets are landscape; each of the last eight is the one eight places earlier turned on its side, named with " - 縦" |
| AppState.PresetNamesAreNonEmpty | src/App.tsx:37-54 | no preset has an empty name |
| AppState.EmptyNameFindsNothing | src/App.tsx:361-369 | the empty name, which the manual fields set, finds no preset |
| AppState.DefaultNameFindsFullFrame | src/App.tsx:329-331 | the initial selection finds the full-frame preset |
| AppState.Step | src/App.tsx:376-381 | the stepped value never exceeds the maximum, is at least the minimum, and moves in the pressed button's direction |
| AppState.StepAtBoundIsNoOp | src/App.tsx:376-381 | increasing at the maximum and decreasing at the minimum change nothing |
| AppState.StepUpThenDown | src/App.tsx:376-381 | away from the bounds, one step up then one down returns to the start |
| AppState.StepKeepsGrid | src/App.tsx:376-381 | stepping keeps a value on its range's grid of steps |
| AppState.FocalLengthRange | src/App.tsx:383 | the focal-length stepper: 100..1000 by 100 |
| AppState.SubjectDistanceRange | src/App.tsx:384 | the distance stepper: 10..1000 by 10 |
| AppState.SubjectHeightRange | src/App.tsx:385 | the subject-height stepper: 100..2000 by 100 |
| AppState.RangesAreWellFormed | src/App.tsx:383-385 | the three steppers (100..1000 by 100, 10..1000 by 10, 100..2000 by 100) have a whole number of steps between their bounds |
| AppState.App.constructor | src/App.tsx:329-339 | the initial state: full frame 36 x 24, 50 mm, 2 m, 160 cm, no letterbox, slider maxima 100, 10 and 200 |
| AppState.App.RecomputeShootingArea | src/App.tsx:344-349 | the stored shooting area is recomputed from the current inputs and has the sensor's aspect ratio |
| AppState.App.HandleSensorSizeChange | src/App.tsx:351-359 | the chosen name is stored; a found preset's width and height become the sensor size; otherwise the size is unchanged |
| AppState.App.HandleWidthChange | src/App.tsx:361-364 | the width is stored and the selection cleared |
| AppState.App.HandleHeightChange | src/App.tsx:366-369 | the height is stored and the selection cleared |
| AppState.App.HandleLetterboxChange | src/App.tsx:371-374 | the chosen letterbox is stored |
| AppState.App.HandleMaxFocalLengthChange | src/App.tsx:383 | the maximum steps by 100 within 100..1000 and stays on the grid |
| AppState.App.HandleMaxSubjectDistanceChange | src/App.tsx:384 | the maximum steps by 10 within 10..1000 and stays on the grid |
| AppState.App.HandleMaxSubjectHeightChange | src/App.tsx:385 | the maximum steps by 100 within 100..2000 and stays on the grid |
| RangeSlider.DecreaseDisabled | src/App.tsx:316 | no ensures; the narrow button's guard, whose meaning is stated by ButtonsDisabledIffNoOp |
| RangeSlider.IncreaseDisabledAsWritten | src/App.tsx:319 | no ensures; the widen button's guard as written, whose effect is stated by SubjectHeightNeverAboveThousand and AsWrittenMatchesUpToThousand |
| RangeSlider.IncreaseDisabled | src/App.tsx:319 | no ensures; the widen button as intended, disabled at the stepper's own maximum, whose meaning is stated by ButtonsDisabledIffNoOp and Click |
| RangeSlider.ClickAsWritten | src/App.tsx:316-321 | a disabled button (narrow at the stepper's minimum, widen from 1000 on) changes nothing; on a well-formed range the maximum stays on the grid, and it stays put if and only if the button is disabled or the stepper is already at its bound |
| RangeSlider.ClicksAsWritten | src/App.tsx:316-321 | no ensures; a sequence of clicks as written, about which SubjectHeightNeverAboveThousand is stated |
| RangeSlider.SubjectHeightStopsAtThousand | src/App.tsx:319 | at 1000 the widen button is disabled, although the subject-height stepper would move to 1100 |
| RangeSlider.SubjectHeightNeverAboveThousand | src/App.tsx:319 | no sequence of clicks takes the subject-height maximum above 1000 |
| RangeSlider.AsWrittenMatchesUpToThousand | src/App.tsx:319 | for the focal-length and distance steppers, which end at 1000, the written bound is the stepper's own |
| RangeSlider.Click | src/App.tsx:316-321 | with the widen bound taken from the stepper: on a well-formed range the maximum stays on the grid, and it stays put if and only if the pressed button is disabled |
| RangeSlider.ButtonsDisabledIffNoOp | src/App.tsx:316-321 | with the stepper's own bound, each button is disabled if and only if pressing it would not change the maximum |
| RangeSlider.ClickWidensBelowTop | src/App.tsx:316-321 | with the stepper's own bound, every on-grid maximum below the top widens by one step |

## Left out

- `calculateFieldOfView` (src/App.tsx:95-99): it needs the arctangent and pi, which the model's arithmetic does not have.
- IEEE-754 arithmetic. Lengths are exact reals, and the model has no rounding, NaN or Infinity. The layout functions require a positive sensor, focal length and distance, and those that draw the frame and the letterbox also a positive mm-to-px scale (see the next line). The sliders allow a focal length or distance of 0, where the source divides by zero.
- Layout.ComputeLayout, Layout.LetterboxSize: they require a positive mm-to-px scale. The render right after mount is not modelled: the effect's first run computes the scale from the unmeasured 0 x 0 box (src/App.tsx:104, 122), so the next render divides by a zero pixel frame (src/App.tsx:167) and draws the frame at NaN coordinates, which exact reals cannot express. `View.FirstRenders` states the zero scale itself.
- Layout.LetterboxRatio: the `|| 1` fallback at src/App.tsx:177 is not modelled, because no table entry is falsy.
- React, Konva and MUI rendering, the JSX, and the registration and removal of the resize listener. `useImage` loading is an input: the image's size, or None before it loads.
- The sliders' and number fields' value setters (`setFocalLength`, `setSubjectDistance`, `setSubjectHeight`) store the value as given. `Number(...)` parsing and `toFixed` display are not modelled.
- `imageOffsetY` is declared but never assigned. The silhouette therefore has no vertical offset.
- Capacitor platform detection, the store badges, the license modal, `src/mui_theme.tsx` and `capacitor.config.ts` are not part of this model.
- View.ShootingAreaView.RunEffect: React's scheduling is not modelled. The caller decides when the effect runs, and `Settle` states the re-run that a changed box triggers.

## Findings

| source | as written | input that shows it | evidently intended | confidence | as-written member | corrected member |
|---|---|---|---|---|---|---|
| src/App.tsx:319 | the widen button of every range slider is disabled when `max >= 1000` | subject-height maximum 1000: the button is disabled, while `handleMaxSubjectHeightChange(true)` would step to 1100 within its 100..2000 range (src/App.tsx:385), so 1100..2000 is unreachable | disable the button at the stepper's own upper bound, so that it is disabled exactly when a press would change nothing | not executed | RangeSlider.SubjectHeightNeverAboveThousand | RangeSlider.ButtonsDisabledIffNoOp |
