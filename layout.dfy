/**
 * The canvas side of the framing calculator (src/App.tsx, component ShootingArea):
 * the millimetre-to-pixel scale, the frame rectangle fitted and centred in the
 * canvas box, the letterbox rectangle, and the placement of the human silhouette.
 *
 * The component keeps the canvas box size and the mm-to-px scale as state that an
 * effect updates after rendering; here both are explicit parameters, and the
 * class View.ShootingAreaView models how the effect updates them.
 */
module Layout {
  import opened Wrappers
  import opened Geometry

  /** Sensor, lens and distance for which the layout arithmetic has no division by zero. */
  predicate ValidShot(sensor: Size, focalLength: real, distance: real) {
    sensor.width > 0.0 && sensor.height > 0.0 && focalLength > 0.0 && distance > 0.0
  }

  /** A measured canvas box (a bounding client rectangle is never negative). */
  predicate ValidBox(box: Size) { box.width >= 0.0 && box.height >= 0.0 }

  // ---------------------------------------------------------------------------
  // Scale selection

  /**
   * The mm-to-px scale the effect computes: from the box width for a landscape
   * sensor, from the box height for a portrait one, so that the shooting area
   * exactly spans the box along the sensor's orientation axis.
   */
  function OrientedScale(sensor: Size, focalLength: real, distance: real, box: Size): (scale: real)
    requires ValidShot(sensor, focalLength, distance)
    ensures IsLandscape(sensor) ==> ShootingArea(sensor, focalLength, distance).width * scale == box.width
    ensures !IsLandscape(sensor) ==> ShootingArea(sensor, focalLength, distance).height * scale == box.height
    ensures ValidBox(box) ==> scale >= 0.0
  {
    var area := ShootingArea(sensor, focalLength, distance);
    if IsLandscape(sensor) then box.width / area.width else box.height / area.height
  }

  /** The shooting area in pixels, at the scale the component holds in its state. */
  function FramePx(sensor: Size, focalLength: real, distance: real, mmToPxScale: real): Size
    requires ValidShot(sensor, focalLength, distance)
  {
    Scaled(ShootingArea(sensor, focalLength, distance), mmToPxScale)
  }

  /** The pixel frame has the sensor's aspect ratio and, at a positive scale, the sensor's orientation. */
  lemma FramePxLikeSensor(sensor: Size, focalLength: real, distance: real, mmToPxScale: real)
    requires ValidShot(sensor, focalLength, distance) && mmToPxScale > 0.0
    ensures var px := FramePx(sensor, focalLength, distance, mmToPxScale);
      px.width > 0.0 && px.height > 0.0 && SameAspect(px, sensor) &&
      (IsLandscape(sensor) <==> px.width >= px.height)
  {
    var m := distance * 1000.0 / focalLength * mmToPxScale;
    ShootingAreaMagnifiesSensor(sensor, focalLength, distance);
    var px := FramePx(sensor, focalLength, distance, mmToPxScale);
    assert m > 0.0;
    assert px.width == sensor.width * m && px.height == sensor.height * m;
    if IsLandscape(sensor) {
      MultiplyMonotone(m, sensor.height, sensor.width);
    } else {
      MultiplyMonotone(m, sensor.width, sensor.height);
      assert px.width != px.height by {
        if px.width == px.height {
          CancelPositiveFactor(sensor.height, sensor.width, m);
        }
      }
    }
  }

  // ---------------------------------------------------------------------------
  // Fitting a size into the box

  /** The uniform factor that re-fits `content` into `box`: the smaller of the two axis ratios. */
  function FitScale(content: Size, box: Size): real
    requires content.width > 0.0 && content.height > 0.0
  {
    Min(box.width / content.width, box.height / content.height)
  }

  /** Content scaled by FitScale fits the box on both axes and meets it on at least one. */
  lemma FitScaleFits(content: Size, box: Size)
    requires content.width > 0.0 && content.height > 0.0
    ensures var k := FitScale(content, box);
      content.width * k <= box.width && content.height * k <= box.height &&
      (content.width * k == box.width || content.height * k == box.height) &&
      (ValidBox(box) ==> k >= 0.0)
  {
    var kw := box.width / content.width;
    var kh := box.height / content.height;
    assert content.width * kw == box.width && content.height * kh == box.height;
    if kw <= kh {
      MultiplyMonotone(content.height, kw, kh);
    } else {
      MultiplyMonotone(content.width, kh, kw);
    }
  }

  /** No larger factor fits: FitScale is the best fit, not just a fit. */
  lemma FitScaleIsLargest(content: Size, box: Size, k: real)
    requires content.width > 0.0 && content.height > 0.0
    requires content.width * k <= box.width && content.height * k <= box.height
    ensures k <= FitScale(content, box)
  {
    var f := FitScale(content, box);
    FitScaleFits(content, box);
    if content.width * f == box.width {
      CancelPositiveFactor(k, f, content.width);
    } else {
      CancelPositiveFactor(k, f, content.height);
    }
  }

  /**
   * The frame rectangle: the pixel frame re-fitted into the box by FitScale and
   * centred in it.
   */
  function FrameRect(px: Size, box: Size): Rect
    requires px.width > 0.0 && px.height > 0.0
  {
    var scale := FitScale(px, box);
    var scaledWidth := px.width * scale;
    var scaledHeight := px.height * scale;
    Rect((box.width - scaledWidth) / 2.0, (box.height - scaledHeight) / 2.0, scaledWidth, scaledHeight)
  }

  /**
   * The frame lies inside the box, is centred in it, keeps the pixel frame's
   * aspect ratio and touches the box on at least one axis.
   */
  lemma FrameRectCentredInBox(px: Size, box: Size)
    requires px.width > 0.0 && px.height > 0.0 && ValidBox(box)
    ensures var r := FrameRect(px, box);
      r.Within(BoxRect(box)) &&
      r.CentreX() == box.width / 2.0 && r.CentreY() == box.height / 2.0 &&
      SameAspect(Size(r.width, r.height), px) &&
      (r.width == box.width || r.height == box.height)
  {
    FitScaleFits(px, box);
  }

  // ---------------------------------------------------------------------------
  // Letterbox

  /** The letterbox choices of the select box; the source's keys are 'cinescope', 'europianvista', 'americanvista', 'fullhd' and ''. */
  datatype LetterboxKind = NoLetterbox | Cinescope | EuropeanVista | AmericanVista | FullHd

  /**
   * The ratio table. The source falls back to 1 when the table entry is falsy,
   * which no entry is, so the fallback never changes the result.
   */
  function LetterboxRatio(kind: LetterboxKind): (ratio: real)
    ensures ratio >= 1.0
    ensures ratio == 1.0 <==> kind == NoLetterbox
  {
    match kind
    case Cinescope => 2.39
    case EuropeanVista => 1.66
    case AmericanVista => 1.85
    case FullHd => 1.77
    case NoLetterbox => 1.0
  }

  /**
   * The ideal letterbox size, before it is re-fitted into the box: along the
   * sensor's long axis it widens (or heightens) the pixel frame to the target
   * ratio when the frame is narrower than that ratio, and otherwise keeps the
   * frame unchanged.
   */
  function AdjustLetterboxSize(sensor: Size, px: Size, ratio: real): Size
    requires ratio > 0.0
  {
    if IsLandscape(sensor) then
      var adjustedWidth := Max(px.width, px.height * ratio);
      Size(adjustedWidth, Min(adjustedWidth / ratio, px.height))
    else
      var adjustedHeight := Max(px.height, px.width * ratio);
      Size(Min(adjustedHeight / ratio, px.width), adjustedHeight)
  }

  /**
   * The cases of AdjustLetterboxSize: along the sensor's long axis, a frame at
   * least as long as the ratio is kept, and a shorter one is lengthened to exactly
   * the ratio; the result is never smaller than the frame.
   */
  lemma AdjustLetterboxSizeCases(sensor: Size, px: Size, ratio: real)
    requires ratio > 0.0
    ensures var r := AdjustLetterboxSize(sensor, px, ratio);
      (IsLandscape(sensor) ==>
        if px.width >= px.height * ratio then r == px else r == Size(px.height * ratio, px.height)) &&
      (!IsLandscape(sensor) ==>
        if px.height >= px.width * ratio then r == px else r == Size(px.width, px.width * ratio)) &&
      r.width >= px.width && r.height >= px.height
  {
    if IsLandscape(sensor) {
      if px.width >= px.height * ratio {
        assert px.width / ratio * ratio == px.width;
        CancelPositiveFactor(px.height, px.width / ratio, ratio);
      }
    } else {
      if px.height >= px.width * ratio {
        assert px.height / ratio * ratio == px.height;
        CancelPositiveFactor(px.width, px.height / ratio, ratio);
      }
    }
  }

  /** With no letterbox selected (ratio 1) the adjusted size is the pixel frame itself. */
  lemma AdjustWithoutLetterboxIsFrame(sensor: Size, focalLength: real, distance: real, mmToPxScale: real)
    requires ValidShot(sensor, focalLength, distance) && mmToPxScale > 0.0
    ensures var px := FramePx(sensor, focalLength, distance, mmToPxScale);
      AdjustLetterboxSize(sensor, px, 1.0) == px
  {
    FramePxLikeSensor(sensor, focalLength, distance, mmToPxScale);
  }

  /** The letterbox rectangle: a size centred on the frame rectangle. */
  function LetterboxRect(frame: Rect, size: Size): (r: Rect)
    ensures r.width == size.width && r.height == size.height
    ensures r.CentreX() == frame.CentreX() && r.CentreY() == frame.CentreY()
  {
    Rect(frame.x + (frame.width - size.width) / 2.0, frame.y + (frame.height - size.height) / 2.0, size.width, size.height)
  }

  /** A size no larger than the frame, centred on it, lies inside it. */
  lemma CentredSmallerIsWithin(frame: Rect, size: Size)
    requires size.width <= frame.width && size.height <= frame.height
    ensures LetterboxRect(frame, size).Within(frame)
  {
  }

  // ---------------------------------------------------------------------------
  // Subject silhouette

  /**
   * The silhouette as the canvas draws it: Konva subtracts offsetX from x, so the
   * left edge is x - offsetX. The source passes no vertical offset, so the top edge is y.
   */
  datatype Subject = Subject(x: real, y: real, width: real, height: real, offsetX: real) {
    function Left(): real { x - offsetX }

    function CentreX(): real { Left() + width / 2.0 }

    function CentreY(): real { y + height / 2.0 }
  }

  /** Subject height in pixels: centimetres to millimetres, times the scale held in state (not the fit scale). */
  function SubjectHeightPx(subjectHeightCm: real, mmToPxScale: real): (h: real)
    ensures subjectHeightCm >= 0.0 && mmToPxScale >= 0.0 ==> h >= 0.0
  {
    subjectHeightCm * 10.0 * mmToPxScale
  }

  /** The silhouette image: its width/height, or 1 while the image has not loaded. */
  predicate ValidImage(image: Option<Size>) { image.Some? ==> image.value.height != 0.0 }

  /** The silhouette's width-to-height ratio: the loaded image's own, or 1 before it loads. */
  function ImageAspect(image: Option<Size>): (aspect: real)
    requires ValidImage(image)
    ensures image.Some? ==> aspect * image.value.height == image.value.width
    ensures image.None? ==> aspect == 1.0
  {
    match image
    case Some(s) => s.width / s.height
    case None => 1.0
  }

  /**
   * Placement of the silhouette of height `heightPx`. Horizontally it is centred
   * on the frame. Vertically, with a letterbox (of drawn size `letterbox`) it is
   * top-aligned at the letterbox's top edge when taller than the letterbox and
   * centred otherwise; without one it is top-aligned at the frame's top edge when
   * taller than the frame and centred otherwise.
   */
  function PlaceSubject(frame: Rect, letterbox: Option<Size>, heightPx: real, aspect: real): (r: Subject)
    ensures r.height == heightPx && r.width == heightPx * aspect
    ensures r.CentreX() == frame.CentreX()
    ensures letterbox.Some? && heightPx > letterbox.value.height ==>
      r.y == LetterboxRect(frame, letterbox.value).y
    ensures letterbox.Some? && heightPx <= letterbox.value.height ==>
      r.CentreY() == frame.CentreY() && r.CentreY() == LetterboxRect(frame, letterbox.value).CentreY()
    ensures letterbox.Some? && 0.0 <= heightPx <= letterbox.value.height ==>
      var lb := LetterboxRect(frame, letterbox.value);
      lb.y <= r.y && r.y + r.height <= lb.y + lb.height
    ensures letterbox.None? && heightPx > frame.height ==> r.y == frame.y
    ensures letterbox.None? && heightPx <= frame.height ==> r.CentreY() == frame.CentreY()
    ensures letterbox.None? && 0.0 <= heightPx <= frame.height ==>
      frame.y <= r.y && r.y + r.height <= frame.y + frame.height
  {
    var imageX := frame.x + frame.width / 2.0;
    var imageY :=
      match letterbox
      case Some(lb) =>
        if heightPx > lb.height then frame.y + (frame.height - lb.height) / 2.0
        else frame.y + (lb.height - heightPx) / 2.0 + (frame.height - lb.height) / 2.0
      case None =>
        if heightPx > frame.height then frame.y
        else frame.y + (frame.height - heightPx) / 2.0;
    var imageWidth := heightPx * aspect;
    Subject(imageX, imageY, imageWidth, heightPx, imageWidth / 2.0)
  }

  // ---------------------------------------------------------------------------
  // The whole layout

  /** What the canvas draws: the frame, the letterbox when one is selected, and the silhouette. */
  datatype LayoutResult = LayoutResult(frame: Rect, letterbox: Option<Rect>, subject: Subject)

  /** The drawn size of the letterbox: the ideal letterbox size re-fitted uniformly into the box. */
  function LetterboxSize(sensor: Size, focalLength: real, distance: real, kind: LetterboxKind, box: Size, mmToPxScale: real): (s: Size)
    requires ValidShot(sensor, focalLength, distance) && ValidBox(box) && mmToPxScale > 0.0
    ensures s.width <= box.width && s.height <= box.height
    ensures s.width == box.width || s.height == box.height
  {
    FramePxLikeSensor(sensor, focalLength, distance, mmToPxScale);
    var px := FramePx(sensor, focalLength, distance, mmToPxScale);
    var adjusted := AdjustLetterboxSize(sensor, px, LetterboxRatio(kind));
    assert adjusted.width >= px.width > 0.0 && adjusted.height >= px.height > 0.0;
    FittedSizeFits(adjusted, box);
    Scaled(adjusted, FitScale(adjusted, box))
  }

  /** A size scaled by its fit factor fits the box and meets it on at least one axis. */
  lemma FittedSizeFits(content: Size, box: Size)
    requires content.width > 0.0 && content.height > 0.0
    ensures var s := Scaled(content, FitScale(content, box));
      s.width <= box.width && s.height <= box.height && (s.width == box.width || s.height == box.height)
  {
    FitScaleFits(content, box);
  }

  /**
   * The layout the component renders for the given inputs and the given state
   * (box size and mm-to-px scale).
   */
  function ComputeLayout(sensor: Size, focalLength: real, distance: real, subjectHeightCm: real,
                         kind: LetterboxKind, box: Size, mmToPxScale: real, image: Option<Size>): (r: LayoutResult)
    requires ValidShot(sensor, focalLength, distance) && ValidBox(box) && mmToPxScale > 0.0 && ValidImage(image)
    ensures r.frame.Within(BoxRect(box))
    ensures r.frame.CentreX() == box.width / 2.0 && r.frame.CentreY() == box.height / 2.0
    ensures SameAspect(Size(r.frame.width, r.frame.height), sensor)
    ensures r.frame == FrameRect(FramePx(sensor, focalLength, distance, mmToPxScale), box)
    ensures r.letterbox.Some? <==> kind != NoLetterbox
    ensures r.letterbox.Some? ==>
      r.letterbox.value.Within(BoxRect(box)) &&
      r.letterbox.value.CentreX() == r.frame.CentreX() && r.letterbox.value.CentreY() == r.frame.CentreY()
    ensures r.subject.CentreX() == r.frame.CentreX()
    ensures r.subject.height == SubjectHeightPx(subjectHeightCm, mmToPxScale)
    ensures var lbSize := LetterboxSize(sensor, focalLength, distance, kind, box, mmToPxScale);
      r.letterbox == (if kind == NoLetterbox then None else Some(LetterboxRect(r.frame, lbSize))) &&
      r.subject == PlaceSubject(r.frame, if kind == NoLetterbox then None else Some(lbSize),
                                SubjectHeightPx(subjectHeightCm, mmToPxScale), ImageAspect(image))
  {
    FramePxLikeSensor(sensor, focalLength, distance, mmToPxScale);
    var px := FramePx(sensor, focalLength, distance, mmToPxScale);
    var frame := FrameRect(px, box);
    FrameRectCentredInBox(px, box);
    var lbSize := LetterboxSize(sensor, focalLength, distance, kind, box, mmToPxScale);
    var letterbox := if kind == NoLetterbox then None else Some(LetterboxRect(frame, lbSize));
    var subject := PlaceSubject(frame, if kind == NoLetterbox then None else Some(lbSize),
                                SubjectHeightPx(subjectHeightCm, mmToPxScale), ImageAspect(image));
    assert SameAspect(Size(frame.width, frame.height), sensor) by {
      AspectTransitive(Size(frame.width, frame.height), px, sensor);
    }
    LayoutResult(frame, letterbox, subject)
  }

  // ---------------------------------------------------------------------------
  // Properties of the layout when the scale in state is fresh

  /**
   * The state the layout is designed for: the canvas box is square (the page
   * gives the canvas container equal width and height) and the mm-to-px scale
   * has been recomputed by the effect for the current inputs and box, so that
   * the shooting area spans the box along the sensor's orientation axis.
   */
  predicate FreshSquare(sensor: Size, focalLength: real, distance: real, box: Size, mmToPxScale: real)
    requires ValidShot(sensor, focalLength, distance)
  {
    var area := ShootingArea(sensor, focalLength, distance);
    box.width > 0.0 && box.width == box.height &&
    (IsLandscape(sensor) ==> area.width * mmToPxScale == box.width) &&
    (!IsLandscape(sensor) ==> area.height * mmToPxScale == box.height)
  }

  /** A square box is fresh for exactly one scale: the one the effect computes. */
  lemma FreshSquareIsOrientedScale(sensor: Size, focalLength: real, distance: real, box: Size, mmToPxScale: real)
    requires ValidShot(sensor, focalLength, distance) && box.width > 0.0 && box.width == box.height
    ensures FreshSquare(sensor, focalLength, distance, box, mmToPxScale) <==>
      mmToPxScale == OrientedScale(sensor, focalLength, distance, box)
  {
    var area := ShootingArea(sensor, focalLength, distance);
    var oriented := OrientedScale(sensor, focalLength, distance, box);
    if IsLandscape(sensor) {
      if area.width * mmToPxScale == box.width {
        CancelNonZeroFactor(mmToPxScale, oriented, area.width);
      }
    } else {
      if area.height * mmToPxScale == box.height {
        CancelNonZeroFactor(mmToPxScale, oriented, area.height);
      }
    }
  }

  /**
   * A pixel frame that spans the box along the sensor's orientation axis and fits
   * along the other one.
   */
  predicate SpansBox(sensor: Size, px: Size, box: Size) {
    px.width > 0.0 && px.height > 0.0 &&
    (IsLandscape(sensor) ==> px.width == box.width && px.height <= box.height) &&
    (!IsLandscape(sensor) ==> px.height == box.height && px.width <= box.width)
  }

  /** In a fresh square state the pixel frame spans the box. */
  lemma FreshSquareSpansBox(sensor: Size, focalLength: real, distance: real, box: Size, mmToPxScale: real)
    requires ValidShot(sensor, focalLength, distance) && FreshSquare(sensor, focalLength, distance, box, mmToPxScale)
    ensures mmToPxScale > 0.0
    ensures SpansBox(sensor, FramePx(sensor, focalLength, distance, mmToPxScale), box)
  {
    var area := ShootingArea(sensor, focalLength, distance);
    assert mmToPxScale > 0.0 by {
      if IsLandscape(sensor) {
        assert area.width * mmToPxScale == box.width;
      } else {
        assert area.height * mmToPxScale == box.height;
      }
    }
    FramePxLikeSensor(sensor, focalLength, distance, mmToPxScale);
  }

  /** When the pixel frame spans the box, the fit pass changes nothing. */
  lemma SpanningFrameIsUnfitted(sensor: Size, px: Size, box: Size)
    requires SpansBox(sensor, px, box)
    ensures FitScale(px, box) == 1.0
    ensures FrameRect(px, box) == Rect((box.width - px.width) / 2.0, (box.height - px.height) / 2.0, px.width, px.height)
  {
    var k := FitScale(px, box);
    FitScaleFits(px, box);
    if IsLandscape(sensor) {
      CancelPositiveFactor(k, 1.0, px.width);
    } else {
      CancelPositiveFactor(k, 1.0, px.height);
    }
    FitScaleIsLargest(px, box, 1.0);
  }

  /**
   * In a fresh square state the fit pass changes nothing: the frame is the pixel
   * frame, and it spans the whole box along the sensor's orientation axis.
   */
  lemma FreshSquareFrameIsPixelFrame(sensor: Size, focalLength: real, distance: real, box: Size, mmToPxScale: real)
    requires ValidShot(sensor, focalLength, distance) && FreshSquare(sensor, focalLength, distance, box, mmToPxScale)
    ensures var px := FramePx(sensor, focalLength, distance, mmToPxScale);
      var frame := FrameRect(px, box);
      FitScale(px, box) == 1.0 && frame.width == px.width && frame.height == px.height &&
      (IsLandscape(sensor) ==> frame.x == 0.0 && frame.width == box.width) &&
      (!IsLandscape(sensor) ==> frame.y == 0.0 && frame.height == box.height)
  {
    FreshSquareSpansBox(sensor, focalLength, distance, box, mmToPxScale);
    SpanningFrameIsUnfitted(sensor, FramePx(sensor, focalLength, distance, mmToPxScale), box);
  }

  /** When the pixel frame spans the box, the re-fitted letterbox is no larger than the frame. */
  lemma SpanningLetterboxWithinFrame(sensor: Size, px: Size, ratio: real, box: Size)
    requires SpansBox(sensor, px, box) && ratio > 0.0
    ensures var adjusted := AdjustLetterboxSize(sensor, px, ratio);
      var frame := FrameRect(px, box);
      LetterboxRect(frame, Scaled(adjusted, FitScale(adjusted, box))).Within(frame)
  {
    SpanningFrameIsUnfitted(sensor, px, box);
    var adjusted := AdjustLetterboxSize(sensor, px, ratio);
    AdjustKeepsShortSide(sensor, px, ratio);
    assert adjusted.width > 0.0 && adjusted.height > 0.0;
    var k := FitScale(adjusted, box);
    FitScaleFits(adjusted, box);
    SpanningRefitShrinks(sensor, px, adjusted, box, k);
    CentredSmallerIsWithin(FrameRect(px, box), Scaled(adjusted, k));
  }

  /** The adjusted letterbox keeps the frame's short side and is at least as long along the long side. */
  lemma AdjustKeepsShortSide(sensor: Size, px: Size, ratio: real)
    requires px.width > 0.0 && px.height > 0.0 && ratio > 0.0
    ensures var adjusted := AdjustLetterboxSize(sensor, px, ratio);
      (IsLandscape(sensor) ==> adjusted.height == px.height && adjusted.width >= px.width) &&
      (!IsLandscape(sensor) ==> adjusted.width == px.width && adjusted.height >= px.height)
  {
  }

  /**
   * Re-fitting a size that keeps the spanning frame's short side and is at least
   * as long along the long side yields a size no larger than the frame: the long
   * side already spans the box, so a factor that fits can only shrink the short side.
   */
  lemma SpanningRefitShrinks(sensor: Size, px: Size, adjusted: Size, box: Size, k: real)
    requires SpansBox(sensor, px, box)
    requires IsLandscape(sensor) ==> adjusted.height == px.height && adjusted.width >= px.width
    requires !IsLandscape(sensor) ==> adjusted.width == px.width && adjusted.height >= px.height
    requires adjusted.width * k <= box.width && adjusted.height * k <= box.height
    ensures Scaled(adjusted, k).width <= px.width && Scaled(adjusted, k).height <= px.height
  {
    if IsLandscape(sensor) {
      FactorAtMostOne(k, adjusted.width, box.width);
      ShrinkByFactor(px.height, k);
    } else {
      FactorAtMostOne(k, adjusted.height, box.height);
      ShrinkByFactor(px.width, k);
    }
  }

  lemma ShrinkByFactor(length: real, k: real)
    requires length >= 0.0 && k <= 1.0
    ensures length * k <= length
  {
    MultiplyMonotone(length, k, 1.0);
  }

  /** A factor that scales a positive length to no more than a bound below that length is at most one. */
  lemma FactorAtMostOne(k: real, length: real, bound: real)
    requires length > 0.0 && length * k <= bound <= length
    ensures k <= 1.0
  {
    CancelPositiveFactor(k, 1.0, length);
  }

  /** In a fresh square state the letterbox lies inside the frame. */
  lemma FreshSquareLetterboxWithinFrame(sensor: Size, focalLength: real, distance: real, subjectHeightCm: real,
                                        kind: LetterboxKind, box: Size, mmToPxScale: real, image: Option<Size>)
    requires ValidShot(sensor, focalLength, distance) && ValidImage(image)
    requires FreshSquare(sensor, focalLength, distance, box, mmToPxScale)
    ensures var r := ComputeLayout(sensor, focalLength, distance, subjectHeightCm, kind, box, mmToPxScale, image);
      r.letterbox.Some? ==> r.letterbox.value.Within(r.frame)
  {
    FreshSquareSpansBox(sensor, focalLength, distance, box, mmToPxScale);
    SpanningLetterboxWithinFrame(sensor, FramePx(sensor, focalLength, distance, mmToPxScale), LetterboxRatio(kind), box);
  }

  // ---------------------------------------------------------------------------
  // Independence of the mm-to-px scale

  /** Re-fitting a size into the box undoes any positive magnification of it. */
  lemma FitIgnoresScale(content: Size, box: Size, k: real)
    requires content.width > 0.0 && content.height > 0.0 && k > 0.0
    ensures Scaled(content, k).width > 0.0 && Scaled(content, k).height > 0.0
    ensures Scaled(Scaled(content, k), FitScale(Scaled(content, k), box)) == Scaled(content, FitScale(content, box))
  {
    var magnified := Scaled(content, k);
    var kw, kh := box.width / content.width, box.height / content.height;
    QuotientOfMagnified(box.width, content.width, k);
    QuotientOfMagnified(box.height, content.height, k);
    var f := FitScale(content, box);
    assert FitScale(magnified, box) == f / k by {
      if kw <= kh {
        DivideMonotone(kw, kh, k);
      } else {
        DivideMonotone(kh, kw, k);
      }
    }
    MagnifiedTimesQuotient(content.width, k, f);
    MagnifiedTimesQuotient(content.height, k, f);
  }

  lemma QuotientOfMagnified(a: real, b: real, k: real)
    requires b > 0.0 && k > 0.0
    ensures b * k > 0.0 && a / (b * k) == (a / b) / k
  {
  }

  lemma DivideMonotone(a: real, b: real, k: real)
    requires a <= b && k > 0.0
    ensures a / k <= b / k
  {
    MultiplyMonotone(1.0 / k, a, b);
  }

  lemma MagnifiedTimesQuotient(a: real, k: real, f: real)
    requires k > 0.0
    ensures a * k * (f / k) == a * f
  {
  }

  /** AdjustLetterboxSize commutes with magnifying the pixel frame: adjusting px magnified by k gives the adjusted px magnified by k. */
  lemma AdjustIsHomogeneous(sensor: Size, px: Size, ratio: real, k: real, magnified: Size)
    requires ratio > 0.0 && k > 0.0 && magnified == Scaled(px, k)
    ensures AdjustLetterboxSize(sensor, magnified, ratio) == Scaled(AdjustLetterboxSize(sensor, px, ratio), k)
  {
    if IsLandscape(sensor) {
      LandscapeAdjustIsHomogeneous(sensor, px, ratio, k, magnified);
    } else {
      PortraitAdjustIsHomogeneous(sensor, px, ratio, k, magnified);
    }
  }

  lemma LandscapeAdjustIsHomogeneous(sensor: Size, px: Size, ratio: real, k: real, magnified: Size)
    requires ratio > 0.0 && k > 0.0 && magnified == Scaled(px, k) && IsLandscape(sensor)
    ensures AdjustLetterboxSize(sensor, magnified, ratio) == Scaled(AdjustLetterboxSize(sensor, px, ratio), k)
  {
    var adjusted := AdjustLetterboxSize(sensor, px, ratio);
    var adjustedMagnified := AdjustLetterboxSize(sensor, magnified, ratio);
    AdjustLetterboxSizeCases(sensor, px, ratio);
    AdjustLetterboxSizeCases(sensor, magnified, ratio);
    LengthenedIsHomogeneous(px.width, px.height, ratio, k, adjusted.width, adjusted.height,
                            adjustedMagnified.width, adjustedMagnified.height);
  }

  lemma PortraitAdjustIsHomogeneous(sensor: Size, px: Size, ratio: real, k: real, magnified: Size)
    requires ratio > 0.0 && k > 0.0 && magnified == Scaled(px, k) && !IsLandscape(sensor)
    ensures AdjustLetterboxSize(sensor, magnified, ratio) == Scaled(AdjustLetterboxSize(sensor, px, ratio), k)
  {
    var adjusted := AdjustLetterboxSize(sensor, px, ratio);
    var adjustedMagnified := AdjustLetterboxSize(sensor, magnified, ratio);
    AdjustLetterboxSizeCases(sensor, px, ratio);
    AdjustLetterboxSizeCases(sensor, magnified, ratio);
    LengthenedIsHomogeneous(px.height, px.width, ratio, k, adjusted.height, adjusted.width,
                            adjustedMagnified.height, adjustedMagnified.width);
  }

  /**
   * The closed form of AdjustLetterboxSizeCases along the long axis, for a frame
   * (long x short) and its magnification by k, commutes with the magnification:
   * a kept frame stays kept, and a lengthened one is lengthened to the magnified
   * short side times the ratio.
   */
  lemma LengthenedIsHomogeneous(long: real, short: real, ratio: real, k: real,
                                adjustedLong: real, adjustedShort: real, magnifiedLong: real, magnifiedShort: real)
    requires ratio > 0.0 && k > 0.0
    requires if long >= short * ratio then adjustedLong == long && adjustedShort == short
             else adjustedLong == short * ratio && adjustedShort == short
    requires if long * k >= (short * k) * ratio then magnifiedLong == long * k && magnifiedShort == short * k
             else magnifiedLong == (short * k) * ratio && magnifiedShort == short * k
    ensures magnifiedLong == adjustedLong * k && magnifiedShort == adjustedShort * k
  {
    RatioSurvivesScaling(short, ratio, k);
    MultiplyOrderIff(long, short * ratio, k);
  }

  lemma MultiplyOrderIff(a: real, b: real, k: real)
    requires k > 0.0
    ensures a * k >= b * k <==> a >= b
  {
    if a >= b {
      MultiplyMonotone(k, b, a);
    } else {
      MultiplyMonotone(k, a, b);
      assert a * k != b * k by {
        if a * k == b * k {
          CancelPositiveFactor(a, b, k);
        }
      }
    }
  }

  /**
   * The frame and the letterbox do not depend on the mm-to-px scale: any two
   * positive scales give the same drawn frame and letterbox size. Only the
   * silhouette's height is drawn at the scale held in state.
   */
  lemma FrameAndLetterboxIgnoreScale(sensor: Size, focalLength: real, distance: real, kind: LetterboxKind,
                                     box: Size, scale1: real, scale2: real)
    requires ValidShot(sensor, focalLength, distance) && ValidBox(box) && scale1 > 0.0 && scale2 > 0.0
    ensures FrameRect(FramePx(sensor, focalLength, distance, scale1), box) ==
            FrameRect(FramePx(sensor, focalLength, distance, scale2), box)
    ensures LetterboxSize(sensor, focalLength, distance, kind, box, scale1) ==
            LetterboxSize(sensor, focalLength, distance, kind, box, scale2)
  {
    var area := ShootingArea(sensor, focalLength, distance);
    var ratio := LetterboxRatio(kind);
    FrameRectIgnoresScale(area, box, scale1);
    FrameRectIgnoresScale(area, box, scale2);
    RefitIgnoresScale(sensor, area, ratio, box, scale1);
    RefitIgnoresScale(sensor, area, ratio, box, scale2);
  }

  lemma FrameRectIgnoresScale(px: Size, box: Size, k: real)
    requires px.width > 0.0 && px.height > 0.0 && k > 0.0
    ensures Scaled(px, k).width > 0.0 && Scaled(px, k).height > 0.0
    ensures FrameRect(Scaled(px, k), box) == FrameRect(px, box)
  {
    FitIgnoresScale(px, box, k);
  }

  lemma RefitIgnoresScale(sensor: Size, px: Size, ratio: real, box: Size, k: real)
    requires px.width > 0.0 && px.height > 0.0 && ratio > 0.0 && k > 0.0
    ensures var adjusted := AdjustLetterboxSize(sensor, px, ratio);
      var magnified := AdjustLetterboxSize(sensor, Scaled(px, k), ratio);
      adjusted.width > 0.0 && adjusted.height > 0.0 && magnified.width > 0.0 && magnified.height > 0.0 &&
      Scaled(magnified, FitScale(magnified, box)) == Scaled(adjusted, FitScale(adjusted, box))
  {
    var adjusted := AdjustLetterboxSize(sensor, px, ratio);
    AdjustLetterboxSizeCases(sensor, px, ratio);
    AdjustIsHomogeneous(sensor, px, ratio, k, Scaled(px, k));
    FitIgnoresScale(adjusted, box, k);
  }

  /** ComputeLayout's frame and letterbox are the same at every positive scale. */
  lemma LayoutIgnoresScale(sensor: Size, focalLength: real, distance: real, subjectHeightCm: real,
                           kind: LetterboxKind, box: Size, scale1: real, scale2: real, image: Option<Size>)
    requires ValidShot(sensor, focalLength, distance) && ValidBox(box) && ValidImage(image)
    requires scale1 > 0.0 && scale2 > 0.0
    ensures var r1 := ComputeLayout(sensor, focalLength, distance, subjectHeightCm, kind, box, scale1, image);
      var r2 := ComputeLayout(sensor, focalLength, distance, subjectHeightCm, kind, box, scale2, image);
      r1.frame == r2.frame && r1.letterbox == r2.letterbox
  {
    FrameAndLetterboxIgnoreScale(sensor, focalLength, distance, kind, box, scale1, scale2);
  }

  /**
   * On a square canvas the letterbox lies inside the frame at any positive scale,
   * fresh or stale: the frame and letterbox are those of the fresh scale.
   */
  lemma SquareLetterboxWithinFrame(sensor: Size, focalLength: real, distance: real, subjectHeightCm: real,
                                   kind: LetterboxKind, box: Size, mmToPxScale: real, image: Option<Size>)
    requires ValidShot(sensor, focalLength, distance) && ValidImage(image)
    requires box.width > 0.0 && box.width == box.height && mmToPxScale > 0.0
    ensures var r := ComputeLayout(sensor, focalLength, distance, subjectHeightCm, kind, box, mmToPxScale, image);
      r.letterbox.Some? ==> r.letterbox.value.Within(r.frame)
  {
    var freshScale := OrientedScale(sensor, focalLength, distance, box);
    FreshSquareIsOrientedScale(sensor, focalLength, distance, box, freshScale);
    FreshSquareSpansBox(sensor, focalLength, distance, box, freshScale);
    FreshSquareLetterboxWithinFrame(sensor, focalLength, distance, subjectHeightCm, kind, box, freshScale, image);
    LayoutIgnoresScale(sensor, focalLength, distance, subjectHeightCm, kind, box, freshScale, mmToPxScale, image);
  }

  /** Unfolding helper: the pixel frame's height is the shooting area's height at the scale held in state. */
  lemma FramePxHeight(sensor: Size, focalLength: real, distance: real, mmToPxScale: real)
    requires ValidShot(sensor, focalLength, distance)
    ensures FramePx(sensor, focalLength, distance, mmToPxScale).height == ShootingArea(sensor, focalLength, distance).height * mmToPxScale
  {
  }

  /**
   * In a fresh square state the silhouette is to scale with the frame (the frame
   * ComputeLayout draws): its height relates to the frame height as the subject's
   * height relates to the shooting area's height, so it overflows the frame exactly
   * when the subject is taller than the area the camera captures.
   */
  lemma FreshSquareSubjectToScale(sensor: Size, focalLength: real, distance: real, subjectHeightCm: real,
                                  box: Size, mmToPxScale: real)
    requires ValidShot(sensor, focalLength, distance)
    requires FreshSquare(sensor, focalLength, distance, box, mmToPxScale)
    ensures var frame := FrameRect(FramePx(sensor, focalLength, distance, mmToPxScale), box);
      var area := ShootingArea(sensor, focalLength, distance);
      var h := SubjectHeightPx(subjectHeightCm, mmToPxScale);
      h * area.height == subjectHeightCm * 10.0 * frame.height &&
      (h > frame.height <==> subjectHeightCm * 10.0 > area.height)
  {
    FramePxHeight(sensor, focalLength, distance, mmToPxScale);
    FreshSquareSpansBox(sensor, focalLength, distance, box, mmToPxScale);
    var px := FramePx(sensor, focalLength, distance, mmToPxScale);
    var areaHeight := ShootingArea(sensor, focalLength, distance).height;
    var length := subjectHeightCm * 10.0;
    SpanningSubjectToScale(sensor, px, box, areaHeight, mmToPxScale, length);
    assert SubjectHeightPx(subjectHeightCm, mmToPxScale) == length * mmToPxScale;
  }

  /**
   * When the pixel frame spans the box, a length drawn at the frame's scale relates
   * to the drawn frame as it does to the shooting area in millimetres.
   */
  lemma SpanningSubjectToScale(sensor: Size, px: Size, box: Size, areaHeight: real, scale: real, length: real)
    requires SpansBox(sensor, px, box) && scale > 0.0 && px.height == areaHeight * scale
    ensures (length * scale) * areaHeight == length * FrameRect(px, box).height
    ensures length * scale > FrameRect(px, box).height <==> length > areaHeight
  {
    SpanningFrameIsUnfitted(sensor, px, box);
    SameScaleProportion(length, areaHeight, scale);
  }

  /** Two lengths drawn at the same positive scale keep their proportion and their order. */
  lemma SameScaleProportion(a: real, b: real, s: real)
    requires s > 0.0
    ensures (a * s) * b == a * (b * s)
    ensures a * s > b * s <==> a > b
  {
    if a * s > b * s {
      if a <= b {
        MultiplyMonotone(s, a, b);
      }
    } else {
      CancelPositiveFactor(a, b, s);
    }
  }

  /**
   * A landscape pixel frame narrower than the ratio gets a letterbox with exactly
   * that width/height ratio, whatever the re-fit factor.
   */
  lemma RefitWidensToRatio(sensor: Size, px: Size, ratio: real, box: Size)
    requires px.width > 0.0 && px.height > 0.0 && ratio > 0.0
    requires IsLandscape(sensor) && px.width < px.height * ratio
    ensures var adjusted := AdjustLetterboxSize(sensor, px, ratio);
      var s := Scaled(adjusted, FitScale(adjusted, box));
      s.width == s.height * ratio
  {
    var adjusted := AdjustLetterboxSize(sensor, px, ratio);
    AdjustLetterboxSizeCases(sensor, px, ratio);
    RatioSurvivesScaling(px.height, ratio, FitScale(adjusted, box));
  }

  /** The portrait mirror: a frame flatter than the ratio gets a letterbox whose height/width is the ratio. */
  lemma RefitHeightensToRatio(sensor: Size, px: Size, ratio: real, box: Size)
    requires px.width > 0.0 && px.height > 0.0 && ratio > 0.0
    requires !IsLandscape(sensor) && px.height < px.width * ratio
    ensures var adjusted := AdjustLetterboxSize(sensor, px, ratio);
      var s := Scaled(adjusted, FitScale(adjusted, box));
      s.height == s.width * ratio
  {
    var adjusted := AdjustLetterboxSize(sensor, px, ratio);
    AdjustLetterboxSizeCases(sensor, px, ratio);
    RatioSurvivesScaling(px.width, ratio, FitScale(adjusted, box));
  }

  /** A pixel frame already at least as long as the ratio along its long axis gets the frame itself as letterbox. */
  lemma RefitKeepsFrame(sensor: Size, px: Size, ratio: real, box: Size)
    requires px.width > 0.0 && px.height > 0.0 && ratio > 0.0 && ValidBox(box)
    requires IsLandscape(sensor) ==> px.width >= px.height * ratio
    requires !IsLandscape(sensor) ==> px.height >= px.width * ratio
    ensures var adjusted := AdjustLetterboxSize(sensor, px, ratio);
      var frame := FrameRect(px, box);
      Scaled(adjusted, FitScale(adjusted, box)) == Size(frame.width, frame.height)
  {
    AdjustLetterboxSizeCases(sensor, px, ratio);
    FrameRectIsFittedFrame(px, box);
  }

  /** Unfolding helper: the frame rectangle's size is the pixel frame scaled by its fit factor. */
  lemma FrameRectIsFittedFrame(px: Size, box: Size)
    requires px.width > 0.0 && px.height > 0.0
    ensures var frame := FrameRect(px, box);
      Scaled(px, FitScale(px, box)) == Size(frame.width, frame.height)
  {
  }

  lemma RatioSurvivesScaling(side: real, ratio: real, k: real)
    ensures (side * ratio) * k == (side * k) * ratio
  {
  }

  /** Magnifying both sides by the same positive factor keeps how they compare against a ratio. */
  lemma MagnifiedComparesAlike(sensor: Size, m: real, ratio: real)
    requires m > 0.0
    ensures var px := Scaled(sensor, m);
      (px.width < px.height * ratio <==> sensor.width < sensor.height * ratio) &&
      (px.height < px.width * ratio <==> sensor.height < sensor.width * ratio)
  {
    var px := Scaled(sensor, m);
    assert px.height * ratio == (sensor.height * ratio) * m;
    assert px.width * ratio == (sensor.width * ratio) * m;
    SameScaleProportion(sensor.height * ratio, sensor.width, m);
    SameScaleProportion(sensor.width * ratio, sensor.height, m);
  }

  /** The pixel frame is the sensor magnified by one positive factor. */
  lemma FramePxMagnifiesSensor(sensor: Size, focalLength: real, distance: real, mmToPxScale: real)
    requires ValidShot(sensor, focalLength, distance) && mmToPxScale > 0.0
    ensures var m := distance * 1000.0 / focalLength * mmToPxScale;
      m > 0.0 && FramePx(sensor, focalLength, distance, mmToPxScale) == Scaled(sensor, m)
  {
    ShootingAreaMagnifiesSensor(sensor, focalLength, distance);
  }

  /**
   * For any scale and box, a sensor narrower (landscape) or flatter (portrait)
   * than the letterbox ratio gets a drawn letterbox with exactly that ratio along
   * the sensor's long axis.
   */
  lemma LetterboxHasRatio(sensor: Size, focalLength: real, distance: real, kind: LetterboxKind, box: Size, mmToPxScale: real)
    requires ValidShot(sensor, focalLength, distance) && ValidBox(box) && mmToPxScale > 0.0
    ensures var s := LetterboxSize(sensor, focalLength, distance, kind, box, mmToPxScale);
      var ratio := LetterboxRatio(kind);
      (IsLandscape(sensor) && sensor.width < sensor.height * ratio ==> s.width == s.height * ratio) &&
      (!IsLandscape(sensor) && sensor.height < sensor.width * ratio ==> s.height == s.width * ratio)
  {
    FramePxMagnifiesSensor(sensor, focalLength, distance, mmToPxScale);
    MagnifiedLetterboxHasRatio(sensor, distance * 1000.0 / focalLength * mmToPxScale, LetterboxRatio(kind), box);
  }

  /** LetterboxHasRatio for a pixel frame given as the sensor magnified by m. */
  lemma MagnifiedLetterboxHasRatio(sensor: Size, m: real, ratio: real, box: Size)
    requires sensor.width > 0.0 && sensor.height > 0.0 && m > 0.0 && ratio > 0.0
    ensures var px := Scaled(sensor, m);
      var adjusted := AdjustLetterboxSize(sensor, px, ratio);
      var s := Scaled(adjusted, FitScale(adjusted, box));
      (IsLandscape(sensor) && sensor.width < sensor.height * ratio ==> s.width == s.height * ratio) &&
      (!IsLandscape(sensor) && sensor.height < sensor.width * ratio ==> s.height == s.width * ratio)
  {
    var px := Scaled(sensor, m);
    assert px.width > 0.0 && px.height > 0.0;
    MagnifiedComparesAlike(sensor, m, ratio);
    if IsLandscape(sensor) && sensor.width < sensor.height * ratio {
      RefitWidensToRatio(sensor, px, ratio, box);
    }
    if !IsLandscape(sensor) && sensor.height < sensor.width * ratio {
      RefitHeightensToRatio(sensor, px, ratio, box);
    }
  }

  /**
   * For any scale and box, a sensor already at least as long as the letterbox
   * ratio along its long axis gets a drawn letterbox the size of the frame; in
   * particular NoLetterbox (ratio 1) always yields the frame size.
   */
  lemma LetterboxIsFrame(sensor: Size, focalLength: real, distance: real, kind: LetterboxKind, box: Size, mmToPxScale: real)
    requires ValidShot(sensor, focalLength, distance) && ValidBox(box) && mmToPxScale > 0.0
    requires IsLandscape(sensor) ==> sensor.width >= sensor.height * LetterboxRatio(kind)
    requires !IsLandscape(sensor) ==> sensor.height >= sensor.width * LetterboxRatio(kind)
    ensures var frame := FrameRect(FramePx(sensor, focalLength, distance, mmToPxScale), box);
      LetterboxSize(sensor, focalLength, distance, kind, box, mmToPxScale) == Size(frame.width, frame.height)
  {
    FramePxMagnifiesSensor(sensor, focalLength, distance, mmToPxScale);
    MagnifiedLetterboxIsFrame(sensor, distance * 1000.0 / focalLength * mmToPxScale, LetterboxRatio(kind), box);
  }

  /** LetterboxIsFrame for a pixel frame given as the sensor magnified by m. */
  lemma MagnifiedLetterboxIsFrame(sensor: Size, m: real, ratio: real, box: Size)
    requires sensor.width > 0.0 && sensor.height > 0.0 && m > 0.0 && ratio > 0.0 && ValidBox(box)
    requires IsLandscape(sensor) ==> sensor.width >= sensor.height * ratio
    requires !IsLandscape(sensor) ==> sensor.height >= sensor.width * ratio
    ensures var px := Scaled(sensor, m);
      var adjusted := AdjustLetterboxSize(sensor, px, ratio);
      var frame := FrameRect(px, box);
      Scaled(adjusted, FitScale(adjusted, box)) == Size(frame.width, frame.height)
  {
    var px := Scaled(sensor, m);
    assert px.width > 0.0 && px.height > 0.0;
    MagnifiedComparesAlike(sensor, m, ratio);
    RefitKeepsFrame(sensor, px, ratio, box);
  }

  /**
   * Full-frame sensor (36 x 24 mm), 50 mm lens, subject at 2 m, a 500 x 500 px
   * canvas with a fresh scale and the cinescope letterbox: the frame is 500 px by
   * 333 1/3 px, the letterbox 500 px by 500 / 2.39 px, and a 300 cm subject, taller
   * than the letterbox, is top-aligned with it.
   */
  lemma FullFrameCinescopeExample()
    ensures var sensor := Size(36.0, 24.0);
      var box := Size(500.0, 500.0);
      var scale := OrientedScale(sensor, 50.0, 2.0, box);
      scale == 500.0 / 1440.0 &&
      var r := ComputeLayout(sensor, 50.0, 2.0, 300.0, Cinescope, box, scale, None);
      r.frame == Rect(0.0, 250.0 / 3.0, 500.0, 1000.0 / 3.0) &&
      r.letterbox == Some(Rect(0.0, 250.0 - 250.0 / 2.39, 500.0, 500.0 / 2.39)) &&
      r.subject.y == r.letterbox.value.y
  {
    var sensor := Size(36.0, 24.0);
    var box := Size(500.0, 500.0);
    assert ShootingArea(sensor, 50.0, 2.0) == Size(1440.0, 960.0);
    var scale := OrientedScale(sensor, 50.0, 2.0, box);
    assert scale == 500.0 / 1440.0;
    var px := FramePx(sensor, 50.0, 2.0, scale);
    assert px == Size(500.0, 1000.0 / 3.0);
    assert FitScale(px, box) == 1.0;
    var frame := FrameRect(px, box);
    assert frame == Rect(0.0, 250.0 / 3.0, 500.0, 1000.0 / 3.0);
    var adjusted := AdjustLetterboxSize(sensor, px, 2.39);
    assert adjusted == Size(1000.0 / 3.0 * 2.39, 1000.0 / 3.0);
    assert FitScale(adjusted, box) == 1.5 / 2.39;
    var lbSize := LetterboxSize(sensor, 50.0, 2.0, Cinescope, box, scale);
    assert lbSize == Size(500.0, 500.0 / 2.39);
    var lb := LetterboxRect(frame, lbSize);
    assert lb == Rect(0.0, 250.0 - 250.0 / 2.39, 500.0, 500.0 / 2.39);
    assert SubjectHeightPx(300.0, scale) > lbSize.height;
  }

  /** The same shot without a letterbox: the 300 cm subject overflows the frame and is top-aligned with it. */
  lemma FullFrameOverflowExample()
    ensures var sensor := Size(36.0, 24.0);
      var box := Size(500.0, 500.0);
      var r := ComputeLayout(sensor, 50.0, 2.0, 300.0, NoLetterbox, box, 500.0 / 1440.0, None);
      r.letterbox == None && r.subject.height > r.frame.height && r.subject.y == r.frame.y
  {
  }

  /** Same aspect ratio is transitive through a size with no zero side. */
  lemma AspectTransitive(a: Size, b: Size, c: Size)
    requires b.width > 0.0 && b.height > 0.0
    requires SameAspect(a, b) && SameAspect(b, c)
    ensures SameAspect(a, c)
  {
    assert a.width * b.height * c.height == a.height * b.width * c.height;
    assert b.width * c.height == b.height * c.width;
    assert a.width * c.height * b.height == a.height * c.width * b.height;
    if a.width * c.height != a.height * c.width {
      CancelNonZeroFactor(a.width * c.height, a.height * c.width, b.height);
    }
  }

  lemma CancelNonZeroFactor(x: real, y: real, c: real)
    requires c != 0.0 && x * c == y * c
    ensures x == y
  {
    assert (x - y) * c == 0.0;
  }
}
