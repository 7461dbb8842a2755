/** Colour classification of a region: the hue/saturation/value rule table
    (`classify_color`) and the sample guard around the clustering step
    (`get_dominant_color`). */
module ColorClassifier {
  import Samples

  /** The labels the classifier produces. `DeepRed` is the target red the
      program calls "c52c2e_red"; `Unknown` is only produced by the
      sample guard, never by the rule table. */
  datatype ColorLabel = Red | DeepRed | Orange | Yellow | Green | Blue | Purple | Other | Unknown
  {
    /** The label string used by the program; only `Unknown` is "unknown". */
    function Name(): (s: string)
      ensures s == "unknown" <==> this == Unknown
    {
      match this
      case Red => "red"
      case DeepRed => "c52c2e_red"
      case Orange => "orange"
      case Yellow => "yellow"
      case Green => "green"
      case Blue => "blue"
      case Purple => "purple"
      case Other => "other"
      case Unknown => "unknown"
    }
  }

  /** Distinct labels have distinct strings, so a test on the string is a
      test on the label. */
  lemma NameInjective(a: ColorLabel, b: ColorLabel)
    ensures a.Name() == b.Name() ==> a == b
  {
  }

  /** A colour in OpenCV's HSV convention: hue 0..180, saturation and value
      0..255. The rule table is total, so no range is imposed. */
  datatype Hsv = Hsv(h: int, s: int, v: int)

  /** A displayable colour, blue/green/red channel order. */
  datatype Bgr = Bgr(b: int, g: int, r: int)

  /** The dominant colour of a region: its display colour and its label (`color_name`). */
  datatype ColorResult = ColorResult(bgr: Bgr, colorName: ColorLabel)

  /** One pixel of the region's sub-image with the value of the contour mask there. */
  datatype MaskedPixel = MaskedPixel(hsv: Hsv, mask: int)

  /** Fewer gathered pixels than this and the colour is "unknown". */
  const MinColorSamples := 50

  /** The prioritised cascade of range tests. Every input gets one of the
      eight table labels; each label's ensures below is the flat band it
      owns once the earlier tests are taken into account. */
  function ClassifyColor(c: Hsv): (r: ColorLabel)
    ensures r != Unknown
    ensures c.s < 50 || c.v < 50 ==> r == Other
    ensures c.s == 50 ==> r == Other
    ensures 141 <= c.h <= 169 ==> r == Other
    ensures r == DeepRed <==> 0 <= c.h <= 10 && c.s > 150 && c.v > 100
    ensures r == Red <==>
      c.s > 100 && c.v >= 50 && (170 <= c.h <= 180 || (0 <= c.h <= 10 && !(c.s > 150 && c.v > 100)))
    ensures r == Orange <==> 11 <= c.h <= 20 && c.s > 100 && c.v >= 50
    ensures r == Yellow <==> 21 <= c.h <= 35 && c.s > 50 && c.v >= 50
    ensures r == Green <==> 36 <= c.h <= 85 && c.s > 50 && c.v >= 50
    ensures r == Blue <==> 86 <= c.h <= 125 && c.s > 50 && c.v >= 50
    ensures r == Purple <==> 126 <= c.h <= 140 && c.s > 50 && c.v >= 50
  {
    var h, s, v := c.h, c.s, c.v;
    if s < 50 || v < 50 then Other
    else if (0 <= h <= 10 || 170 <= h <= 180) && s > 100 then
      (if 0 <= h <= 10 && s > 150 && v > 100 then DeepRed else Red)
    else if 11 <= h <= 20 && s > 100 then Orange
    else if 21 <= h <= 35 && s > 50 then Yellow
    else if 36 <= h <= 85 && s > 50 then Green
    else if 86 <= h <= 125 && s > 50 then Blue
    else if 126 <= h <= 140 && s > 50 then Purple
    else Other
  }

  /** A saturated mid-blue is classified blue. */
  lemma BlueExample()
    ensures ClassifyColor(Hsv(90, 200, 200)) == Blue
  {
  }

  /** At the top of the hue circle a strongly saturated bright colour is
      plain red: the deep-red test only admits hue 0..10. */
  lemma TopOfHueCircleIsPlainRed()
    ensures ClassifyColor(Hsv(180, 198, 197)) == Red
    ensures ClassifyColor(Hsv(5, 198, 197)) == DeepRed
  {
  }

  /** The test on the mask: only pixels where the filled contour was drawn. */
  predicate Inside(p: MaskedPixel) {
    p.mask == 255
  }

  /** The HSV values at the pixels inside the contour (`hsv_image[mask == 255]`):
      one per inside pixel, in pixel order, and every inside pixel with its
      multiplicity. */
  function Gathered(px: seq<MaskedPixel>): (r: seq<Hsv>)
    ensures |r| == |Samples.Matching(px, Inside)|
    ensures var inside := Samples.Filter(px, Inside);
      |r| == |inside| && forall k :: 0 <= k < |r| ==> r[k] == inside[k].hsv
    ensures var inside := Samples.Filter(px, Inside);
      forall p :: multiset(inside)[p] == if Inside(p) then multiset(px)[p] else 0
  {
    var inside := Samples.Filter(px, Inside);
    Samples.FilterCount(px, Inside);
    Samples.FilterMultiset(px, Inside);
    seq(|inside|, k requires 0 <= k < |inside| => inside[k].hsv)
  }

  /** The dominant colour of a region. `centre` stands for the single-cluster
      KMeans fit (its centre already cast to integers) and `toBgr` for the
      HSV-to-BGR conversion; both are library calls outside this model. */
  function DominantColor(px: seq<MaskedPixel>, centre: seq<Hsv> -> Hsv, toBgr: Hsv -> Bgr): (r: ColorResult)
    ensures r.colorName == Unknown <==> |Samples.Matching(px, Inside)| < MinColorSamples
    ensures r.colorName == Unknown ==> r.bgr == Bgr(0, 0, 0)
    ensures r.colorName != Unknown ==>
      var c := centre(Gathered(px));
      r.colorName == ClassifyColor(c) && r.bgr == toBgr(c)
  {
    var pixels := Gathered(px);
    if |pixels| < MinColorSamples then ColorResult(Bgr(0, 0, 0), Unknown)
    else
      var dominant := centre(pixels);
      ColorResult(toBgr(dominant), ClassifyColor(dominant))
  }
}
