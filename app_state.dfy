/**
 * The App component's state and the handlers that update it (src/App.tsx:328-385):
 * the sensor preset select box and the manual width/height fields, the letterbox
 * select box, and the buttons that widen or narrow each slider's range.
 */
module AppState {
  import opened Wrappers
  import opened Geometry
  import Layout

  // ---------------------------------------------------------------------------
  // Sensor presets

  /** A named sensor size, in millimetres. */
  datatype SensorPreset = SensorPreset(name: string, width: real, height: real) {
    function Dimensions(): Size { Size(width, height) }
  }

  /** The preset table: eight landscape sensors, then the same eight in portrait. */
  const SensorPresets: seq<SensorPreset> := [
    SensorPreset("中判", 43.8, 32.9),
    SensorPreset("35mm フルサイズ", 36.0, 24.0),
    SensorPreset("APS-C (SONY, Nikon)", 23.6, 15.8),
    SensorPreset("APS-C (Canon)", 22.3, 14.9),
    SensorPreset("マイクロフォーサーズ", 17.3, 13.0),
    SensorPreset("1型", 13.2, 8.8),
    SensorPreset("2/3型", 8.8, 6.8),
    SensorPreset("1/2.3型", 6.2, 4.6),
    SensorPreset("中判 - 縦", 32.9, 43.8),
    SensorPreset("35mm フルサイズ - 縦", 24.0, 36.0),
    SensorPreset("APS-C (SONY, Nikon) - 縦", 15.8, 23.6),
    SensorPreset("APS-C (Canon) - 縦", 14.9, 22.3),
    SensorPreset("マイクロフォーサーズ - 縦", 13.0, 17.3),
    SensorPreset("1型 - 縦", 8.8, 13.2),
    SensorPreset("2/3型 - 縦", 6.8, 8.8),
    SensorPreset("1/2.3型 - 縦", 4.6, 6.2)
  ]

  /**
   * The index of the first preset with the given label, or None when no preset
   * has it (Array.prototype.find).
   */
  function FindPreset(presets: seq<SensorPreset>, name: string): (r: Option<nat>)
    ensures r.Some? ==>
      r.value < |presets| && presets[r.value].name == name &&
      forall j :: 0 <= j < r.value ==> presets[j].name != name
    ensures r.None? ==> forall j :: 0 <= j < |presets| ==> presets[j].name != name
  {
    if |presets| == 0 then None
    else if presets[0].name == name then Some(0)
    else match FindPreset(presets[1..], name)
      case None => None
      case Some(i) => Some(i + 1)
  }

  /** Every preset is a proper sensor: both sides positive. */
  lemma PresetsArePositive()
    ensures forall i :: 0 <= i < |SensorPresets| ==> SensorPresets[i].width > 0.0 && SensorPresets[i].height > 0.0
  {
  }

  /**
   * The first eight presets are landscape; each of the last eight is the preset
   * eight places earlier turned on its side, with " - 縦" (portrait) after its name.
   */
  lemma PortraitPresetsAreRotations()
    ensures |SensorPresets| == 16
    ensures forall i :: 0 <= i < 8 ==> IsLandscape(SensorPresets[i].Dimensions())
    ensures forall i :: 8 <= i < 16 ==> IsRotationOf(SensorPresets[i], SensorPresets[i - 8])
  {
    forall i | 8 <= i < 16
      ensures IsRotationOf(SensorPresets[i], SensorPresets[i - 8])
    {
      var p, q := SensorPresets[i], SensorPresets[i - 8];
      assert p.name == q.name + " - 縦" by {
        assert |p.name| == |q.name| + 4;
        forall k | 0 <= k < |p.name|
          ensures p.name[k] == (q.name + " - 縦")[k]
        {
        }
      }
    }
  }

  /** `portrait` is `landscape` turned on its side, with " - 縦" (portrait) after its name. */
  predicate IsRotationOf(portrait: SensorPreset, landscape: SensorPreset) {
    !IsLandscape(portrait.Dimensions()) &&
    portrait.width == landscape.height && portrait.height == landscape.width &&
    portrait.name == landscape.name + " - 縦"
  }

  /** Every preset has a non-empty name. */
  lemma PresetNamesAreNonEmpty()
    ensures forall i :: 0 <= i < |SensorPresets| ==> |SensorPresets[i].name| > 0
  {
  }

  /** Clearing the name, as the manual width and height fields do, selects no preset. */
  lemma EmptyNameFindsNothing()
    ensures FindPreset(SensorPresets, "") == None
  {
    PresetNamesAreNonEmpty();
    NonEmptyNamesMissEmpty(SensorPresets);
  }

  lemma NonEmptyNamesMissEmpty(presets: seq<SensorPreset>)
    requires forall i :: 0 <= i < |presets| ==> |presets[i].name| > 0
    ensures FindPreset(presets, "") == None
  {
  }

  /** The preset selected at start-up is the full-frame one, at index 1. */
  lemma DefaultNameFindsFullFrame()
    ensures FindPreset(SensorPresets, "35mm フルサイズ") == Some(1)
  {
    assert SensorPresets[0].name != "35mm フルサイズ" by {
      assert |SensorPresets[0].name| != |"35mm フルサイズ"|;
    }
  }

  // ---------------------------------------------------------------------------
  // Slider range steppers (createRangeHandler)

  /** The bounds and step of one range stepper. */
  datatype StepRange = StepRange(min: int, max: int, step: int)

  const FocalLengthRange := StepRange(100, 1000, 100)
  const SubjectDistanceRange := StepRange(10, 1000, 10)
  const SubjectHeightRange := StepRange(100, 2000, 100)

  /** A range whose bounds are a whole number of positive steps apart. */
  predicate WellFormed(range: StepRange) {
    range.step > 0 && range.min <= range.max && (range.max - range.min) % range.step == 0
  }

  /** A value inside the range and on its grid of steps. */
  predicate OnGrid(v: int, range: StepRange) {
    range.step > 0 && range.min <= v <= range.max && (v - range.min) % range.step == 0
  }

  /**
   * One press of a range button: the previous value moved one step up or down,
   * then clamped to [min, max] (Math.max first, then Math.min).
   */
  function Step(prev: int, range: StepRange, increase: bool): (next: int)
    ensures next <= range.max
    ensures range.min <= range.max ==> range.min <= next
    ensures increase && range.step >= 0 && prev <= range.max ==> prev <= next
    ensures !increase && range.step >= 0 && range.min <= prev ==> next <= prev
  {
    var moved := prev + (if increase then range.step else -range.step);
    var atLeastMin := if moved > range.min then moved else range.min;
    if atLeastMin < range.max then atLeastMin else range.max
  }

  /** Pressing "increase" at the maximum, or "decrease" at the minimum, changes nothing. */
  lemma StepAtBoundIsNoOp(range: StepRange)
    requires range.step >= 0 && range.min <= range.max
    ensures Step(range.max, range, true) == range.max
    ensures Step(range.min, range, false) == range.min
  {
  }

  /** Away from the bounds the two buttons undo each other. */
  lemma {:induction false} StepUpThenDown(v: int, range: StepRange)
    requires range.step >= 0 && range.min <= v && v + range.step <= range.max
    ensures Step(v, range, true) == v + range.step
    ensures Step(Step(v, range, true), range, false) == v
  {
  }

  /** Steps keep a value of a well-formed range on its grid. */
  lemma StepKeepsGrid(v: int, range: StepRange, increase: bool)
    requires WellFormed(range) && OnGrid(v, range)
    ensures OnGrid(Step(v, range, increase), range)
  {
    var next := Step(v, range, increase);
    var s := range.step;
    var q := (v - range.min) / s;
    assert v - range.min == q * s;
    if next == range.max || next == range.min {
    } else if increase {
      assert next - range.min == (q + 1) * s;
      ModUnique(next - range.min, s, q + 1, 0);
    } else {
      assert next - range.min == (q - 1) * s;
      ModUnique(next - range.min, s, q - 1, 0);
    }
  }

  /** Euclidean division has one remainder: whatever q and r write a as q * s + r with 0 <= r < s, r is a % s. */
  lemma ModUnique(a: int, s: int, q: int, r: int)
    requires s > 0 && a == q * s + r && 0 <= r < s
    ensures a % s == r
  {
    var q', r' := a / s, a % s;
    assert (q - q') * s == r' - r;
    if q - q' >= 1 {
      ProductAtLeastFactor(q - q', s);
    } else if q' - q >= 1 {
      ProductAtLeastFactor(q' - q, s);
    }
  }

  lemma ProductAtLeastFactor(m: int, s: int)
    requires m >= 1 && s > 0
    ensures m * s >= s
  {
    assert m * s - s == (m - 1) * s;
  }

  /** The three range steppers of the page are well formed. */
  lemma RangesAreWellFormed()
    ensures WellFormed(FocalLengthRange) && WellFormed(SubjectDistanceRange) && WellFormed(SubjectHeightRange)
  {
  }

  // ---------------------------------------------------------------------------
  // App state

  class App {
    var sensorSize: string
    var sensorWidth: real
    var sensorHeight: real
    var focalLength: real
    var subjectDistance: real
    var subjectHeight: real
    var letterbox: Layout.LetterboxKind
    var maxFocalLength: int
    var maxSubjectDistance: int
    var maxSubjectHeight: int
    var shootingAreaSize: Size

    /** The slider maxima stay inside their stepper ranges and on their grids. */
    ghost predicate Valid()
      reads this
    {
      OnGrid(maxFocalLength, FocalLengthRange) &&
      OnGrid(maxSubjectDistance, SubjectDistanceRange) &&
      OnGrid(maxSubjectHeight, SubjectHeightRange)
    }

    /** The initial state: the full-frame preset, a 50 mm lens, a 160 cm subject at 2 m, no letterbox. */
    constructor ()
      ensures Valid()
      ensures sensorSize == "35mm フルサイズ" && sensorWidth == 36.0 && sensorHeight == 24.0
      ensures focalLength == 50.0 && subjectDistance == 2.0 && subjectHeight == 160.0
      ensures letterbox == Layout.NoLetterbox
      ensures maxFocalLength == 100 && maxSubjectDistance == 10 && maxSubjectHeight == 200
      ensures shootingAreaSize == Size(0.0, 0.0)
    {
      sensorSize := "35mm フルサイズ";
      sensorWidth := 36.0;
      sensorHeight := 24.0;
      focalLength := 50.0;
      subjectDistance := 2.0;
      subjectHeight := 160.0;
      letterbox := Layout.NoLetterbox;
      maxFocalLength := 100;
      maxSubjectDistance := 10;
      maxSubjectHeight := 200;
      shootingAreaSize := Size(0.0, 0.0);
    }

    /**
     * The effect that runs when the sensor, lens or distance changes: the shooting
     * area is recomputed from the current inputs.
     */
    method RecomputeShootingArea()
      requires focalLength > 0.0
      modifies this`shootingAreaSize
      ensures shootingAreaSize == ShootingArea(Size(sensorWidth, sensorHeight), focalLength, subjectDistance)
      ensures SameAspect(shootingAreaSize, Size(sensorWidth, sensorHeight))
    {
      shootingAreaSize := ShootingArea(Size(sensorWidth, sensorHeight), focalLength, subjectDistance);
    }

    /**
     * Choosing a label in the preset select box: the label is stored, and when a
     * preset has that label its width and height become the sensor size.
     */
    method HandleSensorSizeChange(value: string)
      modifies this`sensorSize, this`sensorWidth, this`sensorHeight
      ensures sensorSize == value
      ensures match FindPreset(SensorPresets, value)
        case Some(i) => sensorWidth == SensorPresets[i].width && sensorHeight == SensorPresets[i].height
        case None => sensorWidth == old(sensorWidth) && sensorHeight == old(sensorHeight)
    {
      var selected := FindPreset(SensorPresets, value);
      sensorSize := value;
      if selected.Some? {
        sensorWidth := SensorPresets[selected.value].width;
        sensorHeight := SensorPresets[selected.value].height;
      }
    }

    /** Typing a sensor width: the width is stored and the preset selection is cleared. */
    method HandleWidthChange(width: real)
      modifies this`sensorWidth, this`sensorSize
      ensures sensorWidth == width && sensorSize == ""
    {
      sensorWidth := width;
      sensorSize := "";
    }

    /** Typing a sensor height: the height is stored and the preset selection is cleared. */
    method HandleHeightChange(height: real)
      modifies this`sensorHeight, this`sensorSize
      ensures sensorHeight == height && sensorSize == ""
    {
      sensorHeight := height;
      sensorSize := "";
    }

    /** Choosing a letterbox. */
    method HandleLetterboxChange(kind: Layout.LetterboxKind)
      modifies this`letterbox
      ensures letterbox == kind
    {
      letterbox := kind;
    }

    /** The focal-length slider's range buttons (100 to 1000 mm in steps of 100). */
    method HandleMaxFocalLengthChange(increase: bool)
      requires Valid()
      modifies this`maxFocalLength
      ensures Valid()
      ensures maxFocalLength == Step(old(maxFocalLength), FocalLengthRange, increase)
    {
      StepKeepsGrid(maxFocalLength, FocalLengthRange, increase);
      maxFocalLength := Step(maxFocalLength, FocalLengthRange, increase);
    }

    /** The distance slider's range buttons (10 to 1000 m in steps of 10). */
    method HandleMaxSubjectDistanceChange(increase: bool)
      requires Valid()
      modifies this`maxSubjectDistance
      ensures Valid()
      ensures maxSubjectDistance == Step(old(maxSubjectDistance), SubjectDistanceRange, increase)
    {
      StepKeepsGrid(maxSubjectDistance, SubjectDistanceRange, increase);
      maxSubjectDistance := Step(maxSubjectDistance, SubjectDistanceRange, increase);
    }

    /** The subject-height slider's range buttons (100 to 2000 cm in steps of 100). */
    method HandleMaxSubjectHeightChange(increase: bool)
      requires Valid()
      modifies this`maxSubjectHeight
      ensures Valid()
      ensures maxSubjectHeight == Step(old(maxSubjectHeight), SubjectHeightRange, increase)
    {
      StepKeepsGrid(maxSubjectHeight, SubjectHeightRange, increase);
      maxSubjectHeight := Step(maxSubjectHeight, SubjectHeightRange, increase);
    }
  }
}
