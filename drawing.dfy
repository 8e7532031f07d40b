/** The overlays of `app/lib/drawing.py`. OpenCV draws into the image in
    place; here the image is a `Canvas` whose list of strokes grows with
    every primitive drawn, in drawing order. The pixels a stroke covers,
    font metrics and `cv2.boundingRect` are not modelled: the latter two
    come in as parameters. */
module Drawing {
  import opened Common
  import opened Vectors
  import opened BallFinder

  /** A BGR colour. */
  datatype Color = Color(b: int, g: int, r: int)

  const Green := Color(0, 255, 0)
  const Yellow := Color(0, 255, 255)
  const Black := Color(0, 0, 0)

  /** Integer pixel coordinates (x, y). */
  datatype Pixel = Pixel(x: int, y: int)

  /** The axis of a coordinate label: `X`, `Y` or `Z`. */
  datatype Axis = X | Y | Z

  /** One drawing primitive: `cv2.drawContours` of one polygon, `cv2.line`,
      or `cv2.putText` of the label of one coordinate (the number before its
      rounding to two decimals). */
  datatype Stroke =
    | Polyline(points: seq<Pixel>, color: Color, thickness: int)
    | Line(from: Pixel, to: Pixel, color: Color, thickness: int)
    | Label(axis: Axis, value: real, at: Pixel, color: Color, thickness: int)

  /** An image of `height` by `width` pixels and what has been drawn on it. */
  class Canvas {
    const height: nat
    const width: nat
    var strokes: seq<Stroke>

    constructor (h: nat, w: nat)
      ensures height == h && width == w && strokes == []
    {
      height, width := h, w;
      strokes := [];
    }
  }

  /** `get_thickness`: one line width per 1500 rows, rounded up, except that
      a width of one pixel is drawn two pixels wide. */
  function Thickness(height: nat): (t: nat)
    ensures t != 1
    ensures t == 0 <==> height == 0
    ensures height as real <= t as real * 1500.0
    ensures 0 < height <= 1500 ==> t == 2
    ensures height > 1500 ==> (t - 1) as real * 1500.0 < height as real
  {
    var c := Ceil(height as real / 1500.0);
    if c == 1 then 2 else c
  }

  /** Thicker lines on taller images, never thinner. */
  lemma ThicknessMonotone(h1: nat, h2: nat)
    requires h1 <= h2
    ensures Thickness(h1) <= Thickness(h2)
  {
  }

  /** `get_font_scale`: one unit per 2000 rows, at least one. */
  function FontScale(height: nat): (f: real)
    ensures f >= 1.0
    ensures f >= height as real / 2000.0
    ensures f == 1.0 || f == height as real / 2000.0
  {
    var s := height as real / 2000.0;
    if s < 1.0 then 1.0 else s
  }

  /** `valid_coordinates`: inside the image, both far edges included. */
  predicate ValidCoordinates(p: Pixel, height: int, width: int) {
    0 <= p.x <= width && 0 <= p.y <= height
  }

  /** `int(...)` of each coordinate, and the `np.int64` conversion. */
  function PixelOf(p: V2): Pixel {
    Pixel(Trunc(p.x), Trunc(p.y))
  }

  function Pixels(ps: seq<V2>): (r: seq<Pixel>)
    ensures |r| == |ps| && forall i :: 0 <= i < |ps| ==> r[i] == PixelOf(ps[i])
  {
    seq(|ps|, i requires 0 <= i < |ps| => PixelOf(ps[i]))
  }

  /** The mask of `draw_contour`: the points inside the image, in order. */
  function InImage(pts: seq<Pixel>, height: int, width: int): seq<Pixel> {
    Filter((p: Pixel) => ValidCoordinates(p, height, width), pts)
  }

  /** The polygon of a detection keeps exactly its points inside the image,
      in order. */
  lemma InImageSpec(pts: seq<Pixel>, height: int, width: int)
    ensures var kept := InImage(pts, height, width);
            && (forall j :: 0 <= j < |kept| ==> ValidCoordinates(kept[j], height, width))
            && (forall i :: 0 <= i < |pts| && ValidCoordinates(pts[i], height, width) ==> pts[i] in kept)
            && |kept| <= |pts|
  {
    var keep := (p: Pixel) => ValidCoordinates(p, height, width);
    FilterSpec(keep, pts);
    FilterAccepted(keep, pts);
    var kept, pos := Filter(keep, pts), FilterPositions(keep, pts);
    forall i | 0 <= i < |pts| && ValidCoordinates(pts[i], height, width)
      ensures pts[i] in kept
    {
      assert keep(pts[i]);
      var j :| 0 <= j < |pos| && pos[j] == i;
      assert kept[j] == pts[i];
    }
    StrictlyIncreasingBound(pos, |pts|);
  }

  /** A strictly increasing list of positions below n has at most n
      entries. */
  lemma {:induction false} StrictlyIncreasingBound(pos: seq<int>, n: nat)
    requires forall j :: 0 <= j < |pos| ==> 0 <= pos[j] < n
    requires forall j, k :: 0 <= j < k < |pos| ==> pos[j] < pos[k]
    ensures |pos| <= n
    decreases |pos|
  {
    if |pos| > 0 {
      var last := pos[|pos| - 1];
      var front := pos[..|pos| - 1];
      forall j | 0 <= j < |front|
        ensures 0 <= front[j] < last
      {
        assert front[j] == pos[j];
      }
      StrictlyIncreasingBound(front, last);

    }
  }

  /** The colour of a detection in `draw_contour`: green for the selected
      one (the same `2d_center`), yellow for the others. */
  function ContourColor(d: Detection, selected: Option<Detection>): (c: Color)
    ensures c == Green <==> selected.Some? && selected.value.center == d.center
    ensures c != Green ==> c == Yellow
  {
    if selected.Some? && selected.value.center == d.center then Green else Yellow
  }

  /** The polygon `draw_contour` draws for one detection. */
  function ContourStroke(d: Detection, selected: Option<Detection>, height: nat, width: nat): Stroke {
    Polyline(InImage(Pixels(d.contour), height, width), ContourColor(d, selected), Thickness(height))
  }

  /** `draw_contour`: one polygon per detection, in order. */
  method DrawContour(img: Canvas, detection: seq<Detection>, selected: Option<Detection>)
    modifies img
    ensures img.strokes == old(img.strokes) +
              seq(|detection|, i requires 0 <= i < |detection| =>
                ContourStroke(detection[i], selected, img.height, img.width))
  {
    var thickness := Thickness(img.height);
    ghost var before := img.strokes;
    for i := 0 to |detection|
      invariant img.strokes == before +
                  seq(i, k requires 0 <= k < i => ContourStroke(detection[k], selected, img.height, img.width))
    {
      var data := detection[i];
      var color := if selected.Some? && selected.value.center == data.center then Green else Yellow;
      var contour := InImage(Pixels(data.contour), img.height, img.width);
      img.strokes := img.strokes + [Polyline(contour, color, thickness)];
    }
  }

  /** The cross `draw_center` draws for one detection: nothing if its
      centre pixel is outside the image, else a horizontal and a vertical
      line through it. */
  function CenterStrokes(d: Detection, color: Color, height: nat, width: nat): seq<Stroke> {
    var t := Thickness(height);
    var len := 5 * t;
    var c := PixelOf(d.center);
    if ValidCoordinates(c, height, width) then
      [Line(Pixel(c.x - len, c.y), Pixel(c.x + len, c.y), color, t),
       Line(Pixel(c.x, c.y - len), Pixel(c.x, c.y + len), color, t)]
    else []
  }

  /** The cross is centred on the centre pixel, with arms five line widths
      long along both axes. */
  lemma CenterCross(d: Detection, color: Color, height: nat, width: nat)
    ensures var c, s := PixelOf(d.center), CenterStrokes(d, color, height, width);
            && (s == [] <==> !ValidCoordinates(c, height, width))
            && (s != [] ==>
                  && |s| == 2 && s[0].Line? && s[1].Line?
                  && s[0].from.y == s[0].to.y == c.y && s[1].from.x == s[1].to.x == c.x
                  && s[0].from.x + s[0].to.x == 2 * c.x && s[1].from.y + s[1].to.y == 2 * c.y
                  && s[0].to.x - s[0].from.x == 10 * Thickness(height)
                  && s[1].to.y - s[1].from.y == 10 * Thickness(height))
  {
  }

  function AllCenterStrokes(ds: seq<Detection>, color: Color, height: nat, width: nat): seq<Stroke>
    decreases |ds|
  {
    if |ds| == 0 then []
    else AllCenterStrokes(ds[..|ds| - 1], color, height, width) + CenterStrokes(ds[|ds| - 1], color, height, width)
  }

  /** `draw_center`: the crosses of the detections, in order. */
  method DrawCenter(img: Canvas, detection: seq<Detection>, color: Color)
    modifies img
    ensures img.strokes == old(img.strokes) + AllCenterStrokes(detection, color, img.height, img.width)
  {
    var thickness := Thickness(img.height);
    var lineLength := 5 * thickness;
    ghost var before := img.strokes;
    for i := 0 to |detection|
      invariant img.strokes == before + AllCenterStrokes(detection[..i], color, img.height, img.width)
    {
      assert detection[..i + 1][..i] == detection[..i];
      var c := PixelOf(detection[i].center);
      if ValidCoordinates(c, img.height, img.width) {
        img.strokes := img.strokes
          + [Line(Pixel(c.x - lineLength, c.y), Pixel(c.x + lineLength, c.y), color, thickness)]
          + [Line(Pixel(c.x, c.y - lineLength), Pixel(c.x, c.y + lineLength), color, thickness)];
      }
    }
    assert detection[..|detection|] == detection;
  }

  /** The lines of `draw_lines`: none if the start is outside the image,
      else one from the start to each end pixel inside the image, in
      order. */
  function LineStrokes(start: Detection, ends: seq<Detection>, height: nat, width: nat): seq<Stroke> {
    var s := PixelOf(start.center);
    if !ValidCoordinates(s, height, width) then []
    else
      var targets := InImage(Pixels(Centers(ends)), height, width);
      seq(|targets|, j requires 0 <= j < |targets| => Line(s, targets[j], Green, Thickness(height)))
  }

  function Centers(ds: seq<Detection>): (cs: seq<V2>)
    ensures |cs| == |ds| && forall i :: 0 <= i < |ds| ==> cs[i] == ds[i].center
  {
    seq(|ds|, i requires 0 <= i < |ds| => ds[i].center)
  }

  /** `draw_lines`: green lines from the start point to the end points. */
  method DrawLines(img: Canvas, start: Detection, ends: seq<Detection>)
    modifies img
    ensures img.strokes == old(img.strokes) + LineStrokes(start, ends, img.height, img.width)
  {
    var color := Green;
    var thickness := Thickness(img.height);
    var s := PixelOf(start.center);
    if ValidCoordinates(s, img.height, img.width) {
      ghost var before := img.strokes;
      ghost var pts := Pixels(Centers(ends));
      ghost var keep := (p: Pixel) => ValidCoordinates(p, img.height, img.width);
      ghost var drawn: seq<Pixel> := [];
      for i := 0 to |ends|
        invariant drawn == Filter(keep, pts[..i])
        invariant img.strokes == before +
                    seq(|drawn|, j requires 0 <= j < |drawn| => Line(s, drawn[j], color, thickness))
      {
        assert pts[..i + 1][..i] == pts[..i];
        var e := PixelOf(ends[i].center);
        assert pts[i] == e;
        if ValidCoordinates(e, img.height, img.width) {
          img.strokes := img.strokes + [Line(s, e, color, thickness)];
          drawn := drawn + [e];
        }
      }
      assert pts[..|ends|] == pts;
    }
  }

  /** The lines all start at the start pixel and end at pixels inside the
      image, one per end point inside the image. */
  lemma LinesSpec(start: Detection, ends: seq<Detection>, height: nat, width: nat)
    ensures var ls := LineStrokes(start, ends, height, width);
            && (!ValidCoordinates(PixelOf(start.center), height, width) ==> ls == [])
            && (forall j :: 0 <= j < |ls| ==>
                  ls[j].Line? && ls[j].from == PixelOf(start.center) && ls[j].color == Green
                  && ValidCoordinates(ls[j].to, height, width))
            && (ValidCoordinates(PixelOf(start.center), height, width) ==>
                  forall i :: 0 <= i < |ends| && ValidCoordinates(PixelOf(ends[i].center), height, width) ==>
                    exists j :: 0 <= j < |ls| && ls[j].to == PixelOf(ends[i].center))
  {
    var pts := Pixels(Centers(ends));
    InImageSpec(pts, height, width);
    var targets := InImage(pts, height, width);
    if ValidCoordinates(PixelOf(start.center), height, width) {
      var ls := LineStrokes(start, ends, height, width);
      forall i | 0 <= i < |ends| && ValidCoordinates(PixelOf(ends[i].center), height, width)
        ensures exists j :: 0 <= j < |ls| && ls[j].to == PixelOf(ends[i].center)
      {
        assert pts[i] == PixelOf(ends[i].center);
        var j :| 0 <= j < |targets| && targets[j] == pts[i];
        assert ls[j].to == targets[j];
      }
    }
  }

  /** The coordinate shown for one axis: the target itself, or its
      difference to the base point's target. */
  function Shown(d: Detection, base: Option<Detection>, axis: Axis): real {
    var t := d.target;
    var own := match axis case X => t.x case Y => t.y case Z => t.z;
    if base.None? then own
    else
      var b := base.value.target;
      own - (match axis case X => b.x case Y => b.y case Z => b.z)
  }

  /** Relative display: the base point shows zeros, and two detections
      show the difference of their targets on every axis. */
  lemma ShownRelative(d: Detection, e: Detection, base: Detection, axis: Axis)
    ensures Shown(base, Some(base), axis) == 0.0
    ensures Shown(d, Some(base), axis) - Shown(e, Some(base), axis) == Shown(d, None, axis) - Shown(e, None, axis)
    ensures Shown(d, Some(base), axis) == Shown(d, None, axis) - Shown(base, None, axis)
  {
  }

  /** `cv2.boundingRect` of the integer contour: x, y, w, h. */
  datatype Rect = Rect(x: int, y: int, w: int, h: int)

  function AxisOf(j: int): Axis {
    if j == 0 then X else if j == 1 then Y else Z
  }

  /** The metrics a label block is laid out with: the line spacing, one
      and a half text heights, and the line width. */
  datatype TextStyle = TextStyle(spacing: int, thickness: int)

  function StyleOf(textHeight: int, height: nat): TextStyle {
    TextStyle(Trunc(textHeight as real * 1.5), Thickness(height))
  }

  /** Where line j of a label block goes: right of the bounding box, from
      its vertical middle down, one line spacing per line. */
  function TextPosition(box: Rect, j: int, style: TextStyle): Pixel {
    Pixel(box.x + box.w + 10, box.y + box.h / 2 + j * style.spacing)
  }

  /** The text of line j for one detection: a black outline four pixels
      wider, then the yellow text, both only inside the image. */
  function TextStrokes(d: Detection, base: Option<Detection>, box: Rect, j: int, style: TextStyle,
                       height: nat, width: nat): seq<Stroke>
  {
    var at := TextPosition(box, j, style);
    var v := Shown(d, base, AxisOf(j));
    if ValidCoordinates(at, height, width) then
      [Label(AxisOf(j), v, at, Black, style.thickness + 4), Label(AxisOf(j), v, at, Yellow, style.thickness)]
    else []
  }

  /** The first n lines of one label block. */
  function TextLines(d: Detection, base: Option<Detection>, box: Rect, n: int, style: TextStyle,
                     height: nat, width: nat): seq<Stroke>
    decreases n
  {
    if n <= 0 then []
    else TextLines(d, base, box, n - 1, style, height, width) + TextStrokes(d, base, box, n - 1, style, height, width)
  }

  /** The label block of one detection: its X, Y and Z lines. */
  function LabelBlock(d: Detection, base: Option<Detection>, box: Rect, style: TextStyle,
                      height: nat, width: nat): seq<Stroke>
  {
    TextLines(d, base, box, 3, style, height, width)
  }

  /** The label blocks of all detections, in order. */
  function AllTextStrokes(ds: seq<Detection>, base: Option<Detection>, rect: seq<Pixel> -> Rect,
                          style: TextStyle, height: nat, width: nat): seq<Stroke>
    decreases |ds|
  {
    if |ds| == 0 then []
    else
      var d := ds[|ds| - 1];
      AllTextStrokes(ds[..|ds| - 1], base, rect, style, height, width)
        + LabelBlock(d, base, rect(Pixels(d.contour)), style, height, width)
  }

  /** A label block is drawn in full or line by line left out: line j
      shows the coordinate of axis j, at the right of the bounding box,
      outline first. */
  lemma LabelBlockLayout(d: Detection, base: Option<Detection>, box: Rect, style: TextStyle, height: nat, width: nat)
    ensures var b := LabelBlock(d, base, box, style, height, width);
            && |b| <= 6 && |b| % 2 == 0
            && forall k :: 0 <= k < |b| ==>
                 && b[k].Label? && b[k].at.x == box.x + box.w + 10
                 && ValidCoordinates(b[k].at, height, width)
                 && b[k].value == Shown(d, base, b[k].axis)
                 && b[k].color == (if k % 2 == 0 then Black else Yellow)
  {
  }

  /** `draw_text`: the X, Y and Z labels of every detection, absolute or
      relative to the base point. `rect` is `cv2.boundingRect` and
      `textHeight` the height `cv2.getTextSize` reports for the font. */
  method DrawText(img: Canvas, detection: seq<Detection>, base: Option<Detection>,
                  rect: seq<Pixel> -> Rect, textHeight: int)
    modifies img
    ensures img.strokes == old(img.strokes)
              + AllTextStrokes(detection, base, rect, StyleOf(textHeight, img.height), img.height, img.width)
  {
    var style := StyleOf(textHeight, img.height);
    ghost var before := img.strokes;
    for i := 0 to |detection|
      invariant img.strokes == before + AllTextStrokes(detection[..i], base, rect, style, img.height, img.width)
    {
      var data := detection[i];
      var box := rect(Pixels(data.contour));
      DrawLabels(img, data, base, box, style);
      TextStrokesStep(before, detection, i, base, rect, style, img.height, img.width);
    }
    assert detection[..|detection|] == detection;
  }

  lemma TextStrokesStep(before: seq<Stroke>, ds: seq<Detection>, i: int, base: Option<Detection>,
                        rect: seq<Pixel> -> Rect, style: TextStyle, height: nat, width: nat)
    requires 0 <= i < |ds|
    ensures before + AllTextStrokes(ds[..i], base, rect, style, height, width)
              + LabelBlock(ds[i], base, rect(Pixels(ds[i].contour)), style, height, width)
            == before + AllTextStrokes(ds[..i + 1], base, rect, style, height, width)
  {
    assert ds[..i + 1][..i] == ds[..i];
  }

  /** The inner loop of `draw_text`: the three lines of one label block. */
  method DrawLabels(img: Canvas, data: Detection, base: Option<Detection>, box: Rect, style: TextStyle)
    modifies img
    ensures img.strokes == old(img.strokes) + LabelBlock(data, base, box, style, img.height, img.width)
  {
    ghost var head := img.strokes;
    for j := 0 to 3
      invariant img.strokes == head + TextLines(data, base, box, j, style, img.height, img.width)
    {
      var at := TextPosition(box, j, style);
      if ValidCoordinates(at, img.height, img.width) {
        var v := Shown(data, base, AxisOf(j));
        img.strokes := img.strokes + [Label(AxisOf(j), v, at, Black, style.thickness + 4)]
                                   + [Label(AxisOf(j), v, at, Yellow, style.thickness)];
      }
    }
  }
}
