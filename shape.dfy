/** Shape classification of a region (`classify_3d_shape`): a guard on the
    number of valid depth samples and a priority table on circularity,
    polygon vertex count, depth spread and aspect ratio. */
module ShapeClassifier {
  import Samples

  /** The shape labels. `Polygon(n)` is the program's "{n}-sided polygon". */
  datatype ShapeLabel =
    | Sphere | Cylinder | Pyramid | Triangle | Cube | Square | Rectangle | Prism
    | Polygon(sides: nat) | ComplexShape | Unknown
  {
    /** The label string used by the program; only `Unknown` is "unknown". */
    function Name(): (s: string)
      ensures s == "unknown" <==> this == Unknown
    {
      match this
      case Sphere => "sphere"
      case Cylinder => "cylinder"
      case Pyramid => "pyramid"
      case Triangle => "triangle"
      case Cube => "cube"
      case Square => "square"
      case Rectangle => "rectangle"
      case Prism => "prism"
      case Polygon(n) => assert |Decimal(n) + "-sided polygon"| > 7; Decimal(n) + "-sided polygon"
      case ComplexShape => "complex shape"
      case Unknown => "unknown"
    }
  }

  /** The decimal digits of `n`, as an f-string renders it. */
  function Decimal(n: nat): (r: string)
    ensures 1 <= |r|
    ensures forall k :: 0 <= k < |r| ==> '0' <= r[k] <= '9'
    ensures r[0] == '0' ==> n == 0
    ensures n < 10 ==> r == ['0' + n as char]
  {
    var digit := ['0' + (n % 10) as char];
    if n < 10 then digit else Decimal(n / 10) + digit
  }

  /** The returned 4-tuple: label, mean and standard deviation of the depth
      samples (raw sensor units) and the polygon's vertex count. */
  datatype ShapeResult = ShapeResult(shape: ShapeLabel, mean: real, std: real, vertices: nat)

  /** Fewer strictly positive depth samples than this and the shape is "unknown". */
  const MinDepthSamples := 50

  /** The result returned when there are too few depth samples. */
  const Unclassified := ShapeResult(Unknown, 0.0, 0.0, 0)

  /** A depth reading of zero means "no reading". */
  predicate IsValidDepth(d: int) {
    d > 0
  }

  /** The depth samples kept for statistics (`depth_roi[depth_roi > 0]`). */
  function ValidDepths(roi: seq<int>): (r: seq<int>)
    ensures |r| == |Samples.Matching(roi, IsValidDepth)|
    ensures forall k :: 0 <= k < |r| ==> r[k] > 0 && r[k] in roi
    ensures forall d :: multiset(r)[d] == if d > 0 then multiset(roi)[d] else 0
  {
    Samples.FilterCount(roi, IsValidDepth);
    Samples.FilterMultiset(roi, IsValidDepth);
    Samples.Filter(roi, IsValidDepth)
  }

  /** The decision table, evaluated in priority order. Each ensures gives the
      exact region of the inputs that a label owns. */
  function ShapeDecision(circularity: real, vertices: nat, std: real, aspect: real): (l: ShapeLabel)
    ensures l != Unknown
    ensures l == Sphere <==> circularity > 0.85 && std > 1500.0
    ensures l == Cylinder <==> circularity > 0.85 && std <= 1500.0
    ensures l == Pyramid <==> circularity <= 0.85 && vertices == 3 && std > 1000.0
    ensures l == Triangle <==> circularity <= 0.85 && vertices == 3 && std <= 1000.0
    ensures l == Cube <==> circularity <= 0.85 && vertices == 4 && std > 2000.0
    ensures l == Square <==>
      circularity <= 0.85 && vertices == 4 && std <= 2000.0 && 0.9 < aspect < 1.1
    ensures l == Rectangle <==>
      circularity <= 0.85 && vertices == 4 && std <= 2000.0 && !(0.9 < aspect < 1.1)
    ensures l == Prism <==> circularity <= 0.85 && 5 <= vertices <= 8 && std > 1800.0
    ensures l.Polygon? <==> circularity <= 0.85 && 5 <= vertices <= 8 && std <= 1800.0
    ensures l.Polygon? ==> l.sides == vertices
    ensures l == ComplexShape <==> circularity <= 0.85 && (vertices < 3 || vertices > 8)
  {
    if circularity > 0.85 then
      (if std > 1500.0 then Sphere else Cylinder)
    else if vertices == 3 then
      (if std > 1000.0 then Pyramid else Triangle)
    else if vertices == 4 then
      (if std > 2000.0 then Cube
       else if 0.9 < aspect < 1.1 then Square
       else Rectangle)
    else if 5 <= vertices <= 8 then
      (if std > 1800.0 then Prism else Polygon(vertices))
    else ComplexShape
  }

  /** Classify a region. `vertices` is the vertex count of the simplified
      polygon, `roi` the raw depth values of the region's bounding-box window,
      `circularity` and `aspect` the contour measurements; `meanOf` and
      `stdOf` stand for numpy's mean and standard deviation. */
  function ClassifyShape(vertices: nat, roi: seq<int>, circularity: real, aspect: real,
                         meanOf: seq<int> -> real, stdOf: seq<int> -> real): (r: ShapeResult)
    ensures r.shape == Unknown <==> |Samples.Matching(roi, IsValidDepth)| < MinDepthSamples
    ensures r.shape == Unknown ==> r == Unclassified
    ensures r.shape != Unknown ==>
      var samples := ValidDepths(roi);
      r.vertices == vertices && r.mean == meanOf(samples) && r.std == stdOf(samples) &&
      r.shape == ShapeDecision(circularity, vertices, r.std, aspect)
  {
    var samples := ValidDepths(roi);
    if |samples| < MinDepthSamples then Unclassified
    else
      var mean, std := meanOf(samples), stdOf(samples);
      ShapeResult(ShapeDecision(circularity, vertices, std, aspect), mean, std, vertices)
  }

  /** A round outline wins over any vertex count. */
  lemma CircularityFirst(circularity: real, n: nat, m: nat, std: real, a: real, b: real)
    requires circularity > 0.85
    ensures ShapeDecision(circularity, n, std, a) == ShapeDecision(circularity, m, std, b)
    ensures ShapeDecision(circularity, n, std, a) in {Sphere, Cylinder}
  {
  }

  /** A very deep four-sided outline is a cube whatever its aspect ratio. */
  lemma CubeIgnoresAspect(circularity: real, std: real, a: real, b: real)
    requires circularity <= 0.85 && std > 2000.0
    ensures ShapeDecision(circularity, 4, std, a) == ShapeDecision(circularity, 4, std, b) == Cube
  {
  }
}
