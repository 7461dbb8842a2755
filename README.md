# Colour, shape and depth classification of camera regions

A Dafny model of the decision logic in `Task09_Object_Detection/object_shape_color_depth.py`. That program takes aligned colour and depth frames from a RealSense camera, finds contours in a fused edge mask, and for each contour decides:

- whether the region is large enough to consider;
- its padded region of interest;
- its dominant colour label (a KMeans centre classified by an HSV rule table);
- its 3D shape label (a priority table on circularity, polygon vertex count, depth spread and aspect ratio);
- whether it is one of the target colours with a known shape;
- its centroid and the depth there in millimetres.

The model covers these decisions. The image processing around them is not modelled.

Modules, one file each:

- `Samples` (`samples.dfy`): gathering samples through a boolean mask (numpy's `a[cond]`). The number gathered equals the number of positions the mask selects. Every element that passes is kept as often as it occurs.
- `ColorClassifier` (`color.dfy`): `classify_color` on an HSV triple, and `get_dominant_color`'s guard of 50 samples. KMeans and the HSV-to-BGR conversion are function parameters.
- `ShapeClassifier` (`shape.dfy`): `classify_3d_shape`. It keeps only strictly positive depth samples and applies the same guard of 50. Mean and standard deviation are function parameters. Circularity, aspect ratio and vertex count are given values.
- `FrameLoop` (`frame.dfy`): the loop over contours in the main loop. It skips areas under 300, pads the box by 5 and clamps it to the frame, skips boxes under 10 pixels wide or high, and accepts only blue, green, yellow, orange and `c52c2e_red` with a known shape. Each accepted region is drawn onto the colour image: its outline, centroid marker, captions, and a blend with the edge mask. The next contour's colour is read from that redrawn image. The loop state is the image (an abstract `Canvas`) and the reports so far. `ProcessFrame` is the imperative loop. It uses `continue` and reassigns `x, y, w, h` step by step, as the program does. It is proved equal to the function `RunFrom`.

Labels are datatype constructors. `Name()` gives the program's strings: `DeepRed` is `"c52c2e_red"` and `Polygon(n)` is `"{n}-sided polygon"`. The acceptance test on colours is written on those strings, as the program writes it.

Two behaviours of the code worth noting:

- The deep-red sub-label is reachable only for hue 0..10 (line 77). A colour at hue 170..180 is never deep red. It is plain red when S>100 and V≥50.
- Depth samples for the shape are taken from the whole padded bounding-box window (`depth_roi`, line 232), not from the contour's interior.

The program builds no list of detections. It draws each accepted region. The model's list holds exactly the regions that reach the drawing code at line 252, in contour order.

## Model

| member | source | states |
|---|---|---|
| Samples.Filter | Task09_Object_Detection/object_shape_color_depth.py:31 | masked gathering keeps only elements that pass the test, each one from the input, no more than the input holds; an all-true mask keeps everything, an all-false mask nothing |
| Samples.FilterCount | Task09_Object_Detection/object_shape_color_depth.py:31-33 | the number of gathered samples equals the number of mask positions that pass the test |
| Samples.FilterMultiset | Task09_Object_Detection/object_shape_color_depth.py:31 | every element that passes the test is kept exactly as often as it occurs in the input, and every other element is dropped |
| ColorClassifier.ColorLabel.Name | Task09_Object_Detection/object_shape_color_depth.py:72-92 | the label strings of the program; only the unknown label is "unknown" |
| ColorClassifier.NameInjective | Task09_Object_Detection/object_shape_color_depth.py:242 | distinct colour labels have distinct strings, so the string test at line 242 is a test on labels |
| ColorClassifier.ClassifyColor | Task09_Object_Detection/object_shape_color_depth.py:47-92 | total on all integer triples and never "unknown"; S<50 or V<50, S exactly 50, and hue 141..169 all give "other"; for each of the seven colour labels, the exact hue/saturation/value band that yields it; deep red only for H 0..10, S>150, V>100; hue 170..180 never deep red, and plain red when S>100 and V≥50 |
| ColorClassifier.BlueExample | Task09_Object_Detection/object_shape_color_depth.py:86-87 | (90, 200, 200) is blue |
| ColorClassifier.TopOfHueCircleIsPlainRed | Task09_Object_Detection/object_shape_color_depth.py:75-79 | (180, 198, 197) is plain red; the same saturation and value at hue 5 are deep red |
| ColorClassifier.Gathered | Task09_Object_Detection/object_shape_color_depth.py:31 | the gathered HSV values are those of the pixels whose mask is 255, one per such pixel, in pixel order; every such pixel is included as often as it occurs |
| ColorClassifier.DominantColor | Task09_Object_Detection/object_shape_color_depth.py:27-45 | the label is "unknown" exactly when fewer than 50 pixels have mask 255, with display colour (0,0,0); otherwise the label is the rule table applied to the cluster centre, and the display colour is that centre converted |
| ShapeClassifier.ShapeLabel.Name | Task09_Object_Detection/object_shape_color_depth.py:160-183 | the shape strings of the program, with "{n}-sided polygon" from the decimal digits of n; only the unknown shape is "unknown", so the string test at line 249 is a test on that label |
| ShapeClassifier.Decimal | Task09_Object_Detection/object_shape_color_depth.py:181 | the f-string rendering of a vertex count: at least one digit, all digits, no leading zero, and the single digit for 5..8 |
| ShapeClassifier.ValidDepths | Task09_Object_Detection/object_shape_color_depth.py:141 | the gathered depths are all strictly positive values of the window, as many as its positive positions, and every positive depth is kept as often as it occurs |
| ShapeClassifier.ShapeDecision | Task09_Object_Detection/object_shape_color_depth.py:159-183 | never "unknown"; for every label, the exact region of (circularity, vertices, std, aspect) that yields it, in the table's priority order; an n-sided polygon carries the input vertex count |
| ShapeClassifier.ClassifyShape | Task09_Object_Detection/object_shape_color_depth.py:133-183 | the label is "unknown" exactly when fewer than 50 depths are strictly positive, and then the result is ("unknown",0,0,0); otherwise the result carries the input vertex count, the mean and std of the positive samples, and the table's label for them |
| ShapeClassifier.CircularityFirst | Task09_Object_Detection/object_shape_color_depth.py:160-164 | above circularity 0.85 the label does not depend on vertex count or aspect ratio and is sphere or cylinder |
| ShapeClassifier.CubeIgnoresAspect | Task09_Object_Detection/object_shape_color_depth.py:170-172 | a non-circular four-vertex outline with std above 2000 is a cube whatever its aspect ratio |
| FrameLoop.TargetLabels | Task09_Object_Detection/object_shape_color_depth.py:242 | the string test admits exactly blue, green, yellow, orange and deep red |
| FrameLoop.PadAndClamp | Task09_Object_Detection/object_shape_color_depth.py:219-224 | the padded box starts at x, y of at least 0, ends within the frame, and grows each side by at most 10; it is padded by exactly 5 where there is room; it contains the original box when that box lies in the frame |
| FrameLoop.Trunc | Task09_Object_Detection/object_shape_color_depth.py:266-267 | truncation toward zero: the integer is within 1 of the number, on the side toward zero |
| FrameLoop.Centroid | Task09_Object_Detection/object_shape_color_depth.py:264-268 | a position exists exactly when m00 is non-zero; its coordinates are the truncated moment ratios, and its depth is the raw depth at (cy, cx) times the scale times 1000 |
| FrameLoop.ProcessContour | Task09_Object_Detection/object_shape_color_depth.py:213-250 | a contour is skipped exactly when its area is under 300, its padded box is under 10 wide or high, its colour on the current image is not a target, or its shape is unknown; a kept contour yields an admissible detection (area at least 300, box in the frame, sides between 10 and the original plus 10, target colour, known shape) whose colour is read from the current image |
| FrameLoop.RunFrom | Task09_Object_Detection/object_shape_color_depth.py:213-284 | the loop keeps earlier reports, adds at most one per contour, and every added report is admissible |
| FrameLoop.Detections | Task09_Object_Detection/object_shape_color_depth.py:213-284 | no more reports than contours, and every report is admissible |
| FrameLoop.RunFromAppend | Task09_Object_Detection/object_shape_color_depth.py:213-284 | the loop over a concatenation is the loop over the second part started from the image and reports the first part left |
| FrameLoop.AcceptedIsReported | Task09_Object_Detection/object_shape_color_depth.py:213-284 | every contour that passes all tests on the image as drawn before it is reported |
| FrameLoop.ReportedIsAccepted | Task09_Object_Detection/object_shape_color_depth.py:213-284 | every report is the outcome of one of the frame's contours, classified on the image as drawn before it |
| FrameLoop.FeedbackOutcomes | Task09_Object_Detection/object_shape_color_depth.py:231-284 | in the example frame, both contours pass on the captured image, and after one 0.8 blend the second contour fails |
| FrameLoop.OverlayFeedback | Task09_Object_Detection/object_shape_color_depth.py:231-284 | a contour reported on its own is skipped once an earlier region has been drawn; the intended loop reports both |
| FrameLoop.IntendedDetections | Task09_Object_Detection/object_shape_color_depth.py:213-250 | classification on the captured frame: no more reports than contours, each admissible and coloured from the captured image |
| FrameLoop.IntendedAppend | Task09_Object_Detection/object_shape_color_depth.py:213-250 | with classification on the captured frame, regions are decided independently: the reports for a concatenation are the concatenated reports |
| FrameLoop.NoFeedbackAgrees | Task09_Object_Detection/object_shape_color_depth.py:231-284 | when drawing never changes what the colour classifier reads, the loop as written and the intended loop report the same regions |
| FrameLoop.ProcessFrame | Task09_Object_Detection/object_shape_color_depth.py:213-284 | the loop with `continue` that draws each report onto the image collects exactly the reports, and leaves exactly the image, of the specification; every collected region is admissible and there are no more than the contours |

## Findings

| source | as written | input that shows it | evidently intended | confidence | as-written member | corrected member |
|---|---|---|---|---|---|---|
| Task09_Object_Detection/object_shape_color_depth.py:261-284 | each reported region is drawn onto `color_image` inside the contour loop, and line 284 blends the whole image at weight 0.8 with the edge mask; line 231 takes the next contour's colour window from that redrawn image, so a contour's colour depends on how many regions were reported before it | two contours that pass the area, box and shape tests; A is green at HSV (60,255,200), B is HSV (60,255,60); B alone is reported green, but after A the blend leaves B at V=48 and line 71 labels it "other" | classify every contour on the captured frame, and draw on a copy or blend once after the loop | medium, not executed | FrameLoop.OverlayFeedback | FrameLoop.IntendedDetections |

The loop as written is the one modelled by `RunFrom`, `Detections` and `ProcessFrame`. `IntendedDetections` and `IntendedAppend` give the behaviour the loop evidently intends, in which contours are decided independently.

## Left out

- Camera setup, frame waiting and alignment, the depth-scale query and `pipeline.stop()` (lines 16-23, 188-201, 297-298): device I/O. The depth scale and the raw depth image are fields of `FrameLoop.Frame`. Missing frames (line 193) skip the whole iteration before any modelled logic runs.
- The YOLO model load (lines 8-13): it is never used in the loop.
- `preprocess_depth` and `detect_edges` (lines 94-131), `findContours`, `drawContours`, `approxPolyDP`, `arcLength`, `contourArea`, `boundingRect` and `moments`: foreign OpenCV calls. Their results are inputs: the contour summary (`FrameLoop.Contour`) and the shape measurements.
- The BGR-input branch of `classify_color` (lines 61-63) and both colour-space conversions: foreign calls. `DominantColor` receives the HSV pixels and a `toBgr` parameter.
- KMeans (lines 37-39): a function parameter `centre` of the gathered samples. Hue wrap-around in the clustering of reds is therefore not captured.
- The floating-point mean, std and variance (lines 146-148; the variance is unused), circularity (line 153) and aspect ratio (line 157): given as reals or function parameters. Floating-point rounding is not modelled. Real arithmetic is exact here, including in `m10/m00` and `raw * scale * 1000`.
- FrameLoop.ProcessFrame: the colour classifier is a parameter of (current image, contour, padded box), and the shape classifier of (contour, padded box). The model does not show them computed from the pixel and depth windows of that box.
- FrameLoop.RunFrom: the drawing of a report (outline, centroid marker, captions, edge blend; lines 261-284) is an abstract function from image and report to the new image. What it does to the pixels is not modelled. `FeedbackFrame` is one concrete instance, where the image is a brightness factor and the blend scales it by 0.8.
- `imshow` and `waitKey` (lines 287-295): presentation only.
