/** The per-contour part of the frame loop: the area filter, the padded and
    clamped region of interest, the colour and shape acceptance tests, the
    centroid with its depth in millimetres, and the drawing of each report
    onto the colour image that later contours are classified from. */
module FrameLoop {
  import opened ColorClassifier
  import opened ShapeClassifier

  datatype Option<T> = None | Some(value: T)

  /** An axis-aligned box: top-left corner, width and height in pixels. */
  datatype Box = Box(x: int, y: int, w: int, h: int)

  /** What the loop uses of one external contour: its area, its bounding
      rectangle and its zeroth and first area moments. */
  datatype Contour = Contour(area: real, rect: Box, m00: real, m10: real, m01: real)

  /** The centroid of a region, with the depth read there converted to millimetres. */
  datatype Position = Position(cx: int, cy: int, depthMm: real)

  /** A region that reaches the drawing stage. `position` is absent when the
      zeroth moment is zero; the region is still reported. */
  datatype Detection = Detection(contour: Contour, box: Box, color: ColorResult,
                                 shape: ShapeResult, position: Option<Position>)

  /** What one frame supplies. `Canvas` is the colour image as the loop holds
      it: `image`, the captured frame, before the first report, then the
      result of `draw` after each report (outline, centroid marker, captions
      and the 0.8/0.2 blend with the edge mask). `colorOf` is the colour
      classifier on the pixels of a padded box of the current image;
      `shapeOf` is the shape classifier on a contour and the depth values of
      its box (the depth image is never drawn on); `rawDepth(row, col)` reads
      the unconditioned depth image. */
  datatype Frame<!Canvas> = Frame(width: int, height: int, image: Canvas,
                                 colorOf: (Canvas, Contour, Box) -> ColorResult,
                                 shapeOf: (Contour, Box) -> ShapeResult,
                                 draw: (Canvas, Detection) -> Canvas,
                                 rawDepth: (int, int) -> int,
                                 depthScale: real)

  const MinArea: real := 300.0
  const Padding := 5
  const MinRoiSide := 10

  /** The colours that are drawn: the program's test on the label string. */
  predicate IsTarget(c: ColorLabel) {
    c.Name() in ["blue", "green", "yellow", "orange", "c52c2e_red"]
  }

  /** The string test admits exactly five labels, and never "unknown". */
  lemma TargetLabels(c: ColorLabel)
    ensures IsTarget(c) <==> c in {Blue, Green, Yellow, Orange, DeepRed}
  {
  }

  function Max(a: int, b: int): int { if a < b then b else a }
  function Min(a: int, b: int): int { if a < b then a else b }

  /** Padding by 5 on every side, clamped to the frame. */
  function PadAndClamp(rect: Box, width: int, height: int): (b: Box)
    ensures 0 <= b.x && 0 <= b.y
    ensures b.x + b.w <= width && b.y + b.h <= height
    ensures b.w <= rect.w + 2 * Padding && b.h <= rect.h + 2 * Padding
    ensures rect.x >= Padding ==> b.x == rect.x - Padding
    ensures rect.y >= Padding ==> b.y == rect.y - Padding
    ensures b.x + rect.w + 2 * Padding <= width ==> b.w == rect.w + 2 * Padding
    ensures b.y + rect.h + 2 * Padding <= height ==> b.h == rect.h + 2 * Padding
    ensures 0 <= rect.x && rect.x + rect.w <= width ==> b.x <= rect.x && rect.x + rect.w <= b.x + b.w
    ensures 0 <= rect.y && rect.y + rect.h <= height ==> b.y <= rect.y && rect.y + rect.h <= b.y + b.h
  {
    var x := Max(0, rect.x - Padding);
    var y := Max(0, rect.y - Padding);
    Box(x, y, Min(width - x, rect.w + 2 * Padding), Min(height - y, rect.h + 2 * Padding))
  }

  /** Python's `int()` of a number: truncation toward zero. */
  function Trunc(r: real): (n: int)
    ensures 0.0 <= r ==> 0 <= n && n as real <= r < n as real + 1.0
    ensures r < 0.0 ==> n <= 0 && n as real - 1.0 < r <= n as real
  {
    if r >= 0.0 then r.Floor else -((-r).Floor)
  }

  /** The centroid from the moments, and the depth there in millimetres. */
  function Centroid<Canvas>(c: Contour, f: Frame<Canvas>): (p: Option<Position>)
    ensures p.Some? <==> c.m00 != 0.0
    ensures p.Some? ==>
      p.value.cx == Trunc(c.m10 / c.m00) && p.value.cy == Trunc(c.m01 / c.m00) &&
      p.value.depthMm == f.rawDepth(p.value.cy, p.value.cx) as real * f.depthScale * 1000.0
  {
    if c.m00 == 0.0 then None
    else
      var cx, cy := Trunc(c.m10 / c.m00), Trunc(c.m01 / c.m00);
      Some(Position(cx, cy, f.rawDepth(cy, cx) as real * f.depthScale * 1000.0))
  }

  /** What every reported region satisfies, whatever image it was classified on. */
  ghost predicate Admissible<Canvas>(d: Detection, f: Frame<Canvas>) {
    d.contour.area >= MinArea &&
    d.box == PadAndClamp(d.contour.rect, f.width, f.height) &&
    0 <= d.box.x && 0 <= d.box.y &&
    d.box.x + d.box.w <= f.width && d.box.y + d.box.h <= f.height &&
    MinRoiSide <= d.box.w <= d.contour.rect.w + 2 * Padding &&
    MinRoiSide <= d.box.h <= d.contour.rect.h + 2 * Padding &&
    IsTarget(d.color.colorName) &&
    d.shape == f.shapeOf(d.contour, d.box) && d.shape.shape != ShapeClassifier.Unknown &&
    d.position == Centroid(d.contour, f)
  }

  /** The fate of one contour when the colour image is `canvas`: skipped,
      or reported with its box, colour, shape and centroid. */
  function ProcessContour<Canvas>(c: Contour, canvas: Canvas, f: Frame<Canvas>): (r: Option<Detection>)
    ensures r.Some? ==>
      Admissible(r.value, f) && r.value.contour == c &&
      r.value.color == f.colorOf(canvas, c, r.value.box)
    ensures r.None? <==>
      c.area < MinArea ||
      (var b := PadAndClamp(c.rect, f.width, f.height);
       b.w < MinRoiSide || b.h < MinRoiSide ||
       !IsTarget(f.colorOf(canvas, c, b).colorName) ||
       f.shapeOf(c, b).shape == ShapeClassifier.Unknown)
  {
    if c.area < MinArea then None
    else
      var b := PadAndClamp(c.rect, f.width, f.height);
      if b.w < MinRoiSide || b.h < MinRoiSide then None
      else
        var color := f.colorOf(canvas, c, b);
        if !IsTarget(color.colorName) then None
        else
          var shape := f.shapeOf(c, b);
          if shape.shape == ShapeClassifier.Unknown then None
          else Some(Detection(c, b, color, shape, Centroid(c, f)))
  }

  /** The state the loop carries: the colour image and the reports so far. */
  datatype Progress<Canvas> = Progress(canvas: Canvas, detections: seq<Detection>)

  /** The loop state before the first contour. */
  function Start<Canvas>(f: Frame<Canvas>): Progress<Canvas> {
    Progress(f.image, [])
  }

  /** One iteration: a reported contour is appended and drawn. */
  function Step<Canvas>(p: Progress<Canvas>, c: Contour, f: Frame<Canvas>): Progress<Canvas> {
    match ProcessContour(c, p.canvas, f)
    case None => p
    case Some(d) => Progress(f.draw(p.canvas, d), p.detections + [d])
  }

  /** The loop from state `p` over `cs`: earlier reports are kept, at most one
      report is added per contour, and every added report is admissible. */
  function RunFrom<Canvas>(p: Progress<Canvas>, cs: seq<Contour>, f: Frame<Canvas>): (r: Progress<Canvas>)
    ensures |p.detections| <= |r.detections| <= |p.detections| + |cs|
    ensures r.detections[..|p.detections|] == p.detections
    ensures forall k :: |p.detections| <= k < |r.detections| ==> Admissible(r.detections[k], f)
  {
    if cs == [] then p
    else
      var n := |cs| - 1;
      Step(RunFrom(p, cs[..n], f), cs[n], f)
  }

  /** The regions of a frame that are reported, in contour order. */
  function Detections<Canvas>(cs: seq<Contour>, f: Frame<Canvas>): (r: seq<Detection>)
    ensures |r| <= |cs|
    ensures forall k :: 0 <= k < |r| ==> Admissible(r[k], f)
  {
    RunFrom(Start(f), cs, f).detections
  }

  /** The colour image that is displayed after the loop. */
  function FinalImage<Canvas>(cs: seq<Contour>, f: Frame<Canvas>): Canvas {
    RunFrom(Start(f), cs, f).canvas
  }

  /** The loop over a concatenation is the loop over the second part, started
      from the image and the reports the first part left behind. */
  lemma {:induction false} RunFromAppend<Canvas>(p: Progress<Canvas>, a: seq<Contour>, b: seq<Contour>, f: Frame<Canvas>)
    ensures RunFrom(p, a + b, f) == RunFrom(RunFrom(p, a, f), b, f)
  {
    if b == [] {
      assert a + b == a;
    } else {
      var n := |b| - 1;
      var ab := a + b;
      assert ab[..|a| + n] == a + b[..n];
      assert ab[|a| + n] == b[n];
      RunFromAppend(p, a, b[..n], f);
    }
  }

  /** Every contour that passes all the tests on the image as drawn so far is reported. */
  lemma {:induction false} AcceptedIsReported<Canvas>(cs: seq<Contour>, i: int, f: Frame<Canvas>)
    requires 0 <= i < |cs| && ProcessContour(cs[i], FinalImage(cs[..i], f), f).Some?
    ensures ProcessContour(cs[i], FinalImage(cs[..i], f), f).value in Detections(cs, f)
  {
    var d := ProcessContour(cs[i], FinalImage(cs[..i], f), f).value;
    assert cs[..i + 1][..i] == cs[..i];
    var upTo := RunFrom(Start(f), cs[..i + 1], f);
    assert upTo.detections[|upTo.detections| - 1] == d;
    assert cs == cs[..i + 1] + cs[i + 1..];
    RunFromAppend(Start(f), cs[..i + 1], cs[i + 1..], f);
    var all := Detections(cs, f);
    assert all[..|upTo.detections|] == upTo.detections;
    assert all[|upTo.detections| - 1] == d;
  }

  /** Every report comes from one of the frame's contours, classified on the
      image as drawn before it. */
  lemma {:induction false} ReportedIsAccepted<Canvas>(cs: seq<Contour>, d: Detection, f: Frame<Canvas>)
    requires d in Detections(cs, f)
    ensures exists i :: 0 <= i < |cs| && ProcessContour(cs[i], FinalImage(cs[..i], f), f) == Some(d)
  {
    var n := |cs| - 1;
    assert cs[..n][..n] == cs[..n];
    if d in Detections(cs[..n], f) {
      ReportedIsAccepted(cs[..n], d, f);
      var i :| 0 <= i < n && ProcessContour(cs[..n][i], FinalImage(cs[..n][..i], f), f) == Some(d);
      assert cs[..n][i] == cs[i] && cs[..n][..i] == cs[..i];
    } else {
      assert ProcessContour(cs[n], FinalImage(cs[..n], f), f) == Some(d);
    }
  }

  /** The reports one contour contributes when classified on the captured frame. */
  function Report<Canvas>(c: Contour, f: Frame<Canvas>): seq<Detection> {
    match ProcessContour(c, f.image, f)
    case None => []
    case Some(d) => [d]
  }

  /** The loop as it is evidently meant to work: every contour is classified
      on the captured frame and the drawing goes to an overlay that nothing
      reads back. */
  function IntendedDetections<Canvas>(cs: seq<Contour>, f: Frame<Canvas>): (r: seq<Detection>)
    ensures |r| <= |cs|
    ensures forall k :: 0 <= k < |r| ==>
      Admissible(r[k], f) && r[k].color == f.colorOf(f.image, r[k].contour, r[k].box)
  {
    if cs == [] then []
    else
      var n := |cs| - 1;
      IntendedDetections(cs[..n], f) + Report(cs[n], f)
  }

  /** With classification on the captured frame, regions are decided
      independently: the reports for a concatenation are the concatenated
      reports. */
  lemma {:induction false} IntendedAppend<Canvas>(a: seq<Contour>, b: seq<Contour>, f: Frame<Canvas>)
    ensures IntendedDetections(a + b, f) == IntendedDetections(a, f) + IntendedDetections(b, f)
  {
    if b == [] {
      assert a + b == a;
    } else {
      var n := |b| - 1;
      var ab := a + b;
      assert ab[..|a| + n] == a + b[..n];
      assert ab[|a| + n] == b[n];
      assert IntendedDetections(ab, f) == IntendedDetections(a + b[..n], f) + Report(b[n], f);
      IntendedAppend(a, b[..n], f);
      assert IntendedDetections(b, f) == IntendedDetections(b[..n], f) + Report(b[n], f);
    }
  }

  /** When drawing never changes what the colour classifier reads, the loop
      as written and the intended loop report the same regions. */
  lemma {:induction false} NoFeedbackAgrees<Canvas>(cs: seq<Contour>, f: Frame<Canvas>)
    requires forall canvas, c, b :: f.colorOf(canvas, c, b) == f.colorOf(f.image, c, b)
    ensures Detections(cs, f) == IntendedDetections(cs, f)
  {
    if cs != [] {
      var n := |cs| - 1;
      NoFeedbackAgrees(cs[..n], f);
      assert ProcessContour(cs[n], FinalImage(cs[..n], f), f) == ProcessContour(cs[n], f.image, f);
    }
  }

  /** A frame where drawing does feed back. The image is a brightness factor;
      the blend at weight 0.8 scales it. Contour A is green at value 200,
      contour B green at value 60 (HSV 60, 255, 60). */
  const ContourA := Contour(1000.0, Box(100, 100, 40, 40), 0.0, 0.0, 0.0)
  const ContourB := Contour(1000.0, Box(300, 100, 40, 40), 0.0, 0.0, 0.0)

  function FeedbackFrame(): Frame<real> {
    Frame(640, 480, 1.0,
          (k: real, c: Contour, b: Box) =>
            var value := if c.rect.x == 100 then 200.0 else 60.0;
            ColorResult(Bgr(0, 0, 0), ClassifyColor(Hsv(60, 255, (value * k).Floor))),
          (c: Contour, b: Box) => ShapeResult(Square, 0.0, 0.0, 4),
          (k: real, d: Detection) => 0.8 * k,
          (row: int, col: int) => 0,
          0.001)
  }

  /** On the captured frame both contours pass; on the image after one blend
      B's value is 48 and it fails. */
  lemma FeedbackOutcomes()
    ensures ProcessContour(ContourA, 1.0, FeedbackFrame()).Some?
    ensures ProcessContour(ContourB, 1.0, FeedbackFrame()).Some?
    ensures ProcessContour(ContourB, 0.8, FeedbackFrame()).None?
  {
    var f := FeedbackFrame();
    var boxA, boxB := PadAndClamp(ContourA.rect, 640, 480), PadAndClamp(ContourB.rect, 640, 480);
    assert boxA == Box(95, 95, 50, 50) && boxB == Box(295, 95, 50, 50);
    assert IsTarget(Green) && !IsTarget(Other);
    assert (200.0 * 1.0).Floor == 200 && (60.0 * 1.0).Floor == 60 && (60.0 * 0.8).Floor == 48;
    assert f.colorOf(1.0, ContourA, boxA).colorName == ClassifyColor(Hsv(60, 255, 200)) == Green;
    assert f.colorOf(1.0, ContourB, boxB).colorName == ClassifyColor(Hsv(60, 255, 60)) == Green;
    assert f.colorOf(0.8, ContourB, boxB).colorName == ClassifyColor(Hsv(60, 255, 48)) == Other;
    assert f.shapeOf(ContourA, boxA).shape == f.shapeOf(ContourB, boxB).shape == Square;
  }

  /** B alone is reported, but once A has been drawn B's value has dropped to
      48 and B is skipped as "other"; the intended loop reports both. */
  lemma OverlayFeedback()
    ensures |Detections([ContourB], FeedbackFrame())| == 1
    ensures |Detections([ContourA, ContourB], FeedbackFrame())| == 1
    ensures |IntendedDetections([ContourA, ContourB], FeedbackFrame())| == 2
  {
    var f := FeedbackFrame();
    FeedbackOutcomes();
    assert [ContourB][..0] == [] && [ContourA][..0] == [];
    assert [ContourA, ContourB][..1] == [ContourA];
    assert Start(f) == Progress(1.0, []);
    assert RunFrom(Start(f), [], f) == Start(f);
    var afterA := RunFrom(Start(f), [ContourA], f);
    assert afterA == Step(Start(f), ContourA, f);
    assert afterA.canvas == 0.8 && |afterA.detections| == 1;
    assert Detections([ContourA, ContourB], f) == Step(afterA, ContourB, f).detections;
  }

  /** The loop over the contours of one frame, skipping with `continue` as the
      program does, drawing every report onto the image the next contours are
      classified from, and collecting the regions that reach drawing. */
  method ProcessFrame<Canvas>(contours: seq<Contour>, f: Frame<Canvas>)
    returns (detections: seq<Detection>, image: Canvas)
    ensures detections == Detections(contours, f) && image == FinalImage(contours, f)
    ensures |detections| <= |contours|
    ensures forall k :: 0 <= k < |detections| ==> Admissible(detections[k], f)
  {
    detections, image := [], f.image;
    for i := 0 to |contours|
      invariant detections == Detections(contours[..i], f)
      invariant image == FinalImage(contours[..i], f)
    {
      var contour := contours[i];
      assert contours[..i + 1][..i] == contours[..i];
      if contour.area < MinArea {
        continue;
      }
      var x, y, w, h := contour.rect.x, contour.rect.y, contour.rect.w, contour.rect.h;
      x := Max(0, x - Padding);
      y := Max(0, y - Padding);
      w := Min(f.width - x, w + 2 * Padding);
      h := Min(f.height - y, h + 2 * Padding);
      if w < MinRoiSide || h < MinRoiSide {
        continue;
      }
      var box := Box(x, y, w, h);
      assert box == PadAndClamp(contour.rect, f.width, f.height);
      var color := f.colorOf(image, contour, box);
      if !IsTarget(color.colorName) {
        continue;
      }
      var shape := f.shapeOf(contour, box);
      if shape.shape == ShapeClassifier.Unknown {
        continue;
      }
      var position: Option<Position> := None;
      if contour.m00 != 0.0 {
        var cx := Trunc(contour.m10 / contour.m00);
        var cy := Trunc(contour.m01 / contour.m00);
        position := Some(Position(cx, cy, f.rawDepth(cy, cx) as real * f.depthScale * 1000.0));
        assert Centroid(contour, f).value == position.value;
      }
      var detection := Detection(contour, box, color, shape, position);
      image := f.draw(image, detection);
      detections := detections + [detection];
    }
    assert contours[..|contours|] == contours;
  }
}
