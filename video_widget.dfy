/** The click mapping of `app/components/video_widget.py`: a video frame is
    shown scaled to fit the widget with its aspect ratio kept and centred
    along the other axis, and a mouse click on the widget is mapped back to
    a pixel of the frame and emitted if it lands on the frame. The scaled
    drawing itself (`update_pixmap`) is Qt's. */
module VideoWidget {
  import opened Common
  import opened Vectors

  /** `QSize`. */
  datatype Size = Size(width: int, height: int)

  /** `QSize.isValid`: neither side is negative. */
  predicate IsValid(s: Size) {
    s.width >= 0 && s.height >= 0
  }

  /** How the frame sits in the widget: its scale factor and the widget
      position of its top-left corner. */
  datatype Letterbox = Letterbox(scale: real, offsetX: real, offsetY: real)

  /** `a / b` of two Python integers, as a real. */
  function Ratio(a: int, b: int): real
    requires b != 0
  {
    a as real / b as real
  }

  const DivisionByZero := "division by zero"
  const FloatDivisionByZero := "float division by zero"

  /** The letterbox of a frame of size `video` in a widget of size
      `widget`: a widget wider than the frame is filled in height with the
      frame centred across; otherwise it is filled in width with the frame
      centred down. The ratios and the width scale are integer divisions,
      which fail on a zero divisor. */
  function Fit(video: Size, widget: Size): (r: Result<Letterbox>)
    ensures r.Success? <==>
              && video.height != 0 && widget.height != 0
              && (Ratio(widget.width, widget.height) > Ratio(video.width, video.height) || video.width != 0)
    ensures r.Failure? ==> r.error == Raised(DivisionByZero)
  {
    if video.height == 0 || widget.height == 0 then Failure(Raised(DivisionByZero))
    else if Ratio(widget.width, widget.height) > Ratio(video.width, video.height) then
      var scale := Ratio(widget.height, video.height);
      Success(Letterbox(scale, (widget.width as real - video.width as real * scale) / 2.0, 0.0))
    else if video.width == 0 then Failure(Raised(DivisionByZero))
    else
      var scale := Ratio(widget.width, video.width);
      Success(Letterbox(scale, 0.0, (widget.height as real - video.height as real * scale) / 2.0))
  }

  /** A frame and a widget with positive sides: the frame, scaled by a
      positive factor, fills the widget along one axis, fits inside it
      along the other, and is centred there. */
  lemma FitCentres(video: Size, widget: Size)
    requires video.width > 0 && video.height > 0 && widget.width > 0 && widget.height > 0
    ensures Fit(video, widget).Success?
    ensures var b := Fit(video, widget).value;
            && b.scale > 0.0 && b.offsetX >= 0.0 && b.offsetY >= 0.0
            && (b.offsetX == 0.0 || b.offsetY == 0.0)
            && 2.0 * b.offsetX + Prod(video.width as real, b.scale) == widget.width as real
            && 2.0 * b.offsetY + Prod(video.height as real, b.scale) == widget.height as real
  {
    var vw, vh, ww, wh := video.width as real, video.height as real, widget.width as real, widget.height as real;
    if Ratio(widget.width, widget.height) > Ratio(video.width, video.height) {
      FitWide(vw, vh, ww, wh);
    } else {
      FitTall(vw, vh, ww, wh);
    }
  }

  /** A quotient times its divisor gives back the dividend. */
  lemma Cancel(a: real, b: real)
    requires b != 0.0
    ensures Prod(b, a / b) == a
  {
  }

  /** Filled in height: the scaled width stays below the widget width. */
  lemma FitWide(vw: real, vh: real, ww: real, wh: real)
    requires vw > 0.0 && vh > 0.0 && ww > 0.0 && wh > 0.0
    requires ww / wh > vw / vh
    ensures Prod(vh, wh / vh) == wh
    ensures Prod(vw, wh / vh) < ww
  {
    Cancel(wh, vh);
    // vw * (wh / vh) < ww, multiplying vw / vh < ww / wh through by wh
    assert Prod(vw, wh / vh) == Prod(vw / vh, wh);
    MulPositive(ww / wh - vw / vh, wh);
    assert Prod(ww / wh - vw / vh, wh) == Prod(ww / wh, wh) - Prod(vw / vh, wh);
    Cancel(ww, wh);
    assert Prod(ww / wh, wh) == ww;
  }

  /** Filled in width: the scaled height stays within the widget height. */
  lemma FitTall(vw: real, vh: real, ww: real, wh: real)
    requires vw > 0.0 && vh > 0.0 && ww > 0.0 && wh > 0.0
    requires ww / wh <= vw / vh
    ensures Prod(vw, ww / vw) == ww
    ensures Prod(vh, ww / vw) <= wh
  {
    Cancel(ww, vw);
    // vh * (ww / vw) <= wh, multiplying ww / wh <= vw / vh through by vh * wh / vw
    assert Prod(vh, ww / vw) == Prod(vh / vw, ww);
    assert Prod(vh / vw, ww) == Prod(ww / wh, Prod(vh / vw, wh));
    assert Prod(vw / vh, Prod(vh / vw, wh)) == wh;
    if ww / wh < vw / vh {
      MulPositive(vw / vh - ww / wh, Prod(vh / vw, wh));
      assert Prod(vw / vh - ww / wh, Prod(vh / vw, wh))
             == Prod(vw / vh, Prod(vh / vw, wh)) - Prod(ww / wh, Prod(vh / vw, wh));
    }
  }

  /** `mousePressEvent` at widget position (x, y): the frame pixel the
      click lands on, none when no frame is shown, its size is invalid or
      the click misses the frame, or the division that fails. The pixel is
      the offset position divided by the scale, truncated toward zero. */
  function MapClick(pixmap: Option<Size>, widget: Size, x: real, y: real): Result<Option<(int, int)>> {
    if pixmap.None? || !IsValid(pixmap.value) then Success(None)
    else
      var video := pixmap.value;
      var b :- Fit(video, widget);
      if b.scale == 0.0 then Failure(Raised(FloatDivisionByZero))
      else
        var vx := Trunc((x - b.offsetX) / b.scale);
        var vy := Trunc((y - b.offsetY) / b.scale);
        if 0 <= vx <= video.width && 0 <= vy <= video.height then Success(Some((vx, vy))) else Success(None)
  }

  /** Where frame position (px, py) is drawn in the widget. */
  function Place(b: Letterbox, px: real, py: real): (real, real) {
    (b.offsetX + Prod(px, b.scale), b.offsetY + Prod(py, b.scale))
  }

  /** A click on the widget position where a frame pixel is drawn is
      mapped back to that pixel; in particular the frame's top-left corner
      gives (0, 0) and its bottom-right corner (width, height). */
  lemma ClickRoundTrip(video: Size, widget: Size, px: int, py: int)
    requires video.width > 0 && video.height > 0 && widget.width > 0 && widget.height > 0
    requires 0 <= px <= video.width && 0 <= py <= video.height
    ensures var p := Place(Fit(video, widget).value, px as real, py as real);
            MapClick(Some(video), widget, p.0, p.1) == Success(Some((px, py)))
  {
    FitCentres(video, widget);
    var b := Fit(video, widget).value;
    var p := Place(b, px as real, py as real);
    Unscale(px as real, b.scale);
    Unscale(py as real, b.scale);
    assert p.0 - b.offsetX == Prod(px as real, b.scale);
    assert p.1 - b.offsetY == Prod(py as real, b.scale);
  }

  /** Dividing a scaled value by the scale gives it back. */
  lemma Unscale(a: real, s: real)
    requires s != 0.0
    ensures Prod(a, s) / s == a
  {
  }

  /** `0 <= int(t) <= m` exactly when t lies strictly between -1 and m + 1:
      truncation toward zero also sends (-1, 0) to 0. */
  lemma TruncInRange(t: real, m: int)
    requires m >= 0
    ensures 0 <= Trunc(t) <= m <==> -1.0 < t < m as real + 1.0
  {
  }

  /** Which clicks are emitted, for a frame and a widget with positive
      sides: exactly those less than one scaled frame pixel outside the
      drawn frame on either side, so a narrow band around the frame also
      maps onto its edge pixels. */
  lemma ClickAccepted(video: Size, widget: Size, x: real, y: real)
    requires video.width > 0 && video.height > 0 && widget.width > 0 && widget.height > 0
    ensures MapClick(Some(video), widget, x, y).Success?
    ensures var b := Fit(video, widget).value;
            MapClick(Some(video), widget, x, y).value.Some? <==>
              && -b.scale < x - b.offsetX < Prod(video.width as real + 1.0, b.scale)
              && -b.scale < y - b.offsetY < Prod(video.height as real + 1.0, b.scale)
  {
    FitCentres(video, widget);
    var b := Fit(video, widget).value;
    var s := b.scale;
    TruncInRange((x - b.offsetX) / s, video.width);
    TruncInRange((y - b.offsetY) / s, video.height);
    ScaledInterval(x - b.offsetX, s, video.width as real + 1.0);
    ScaledInterval(y - b.offsetY, s, video.height as real + 1.0);
  }

  /** Dividing by a positive scale keeps an open interval. */
  lemma ScaledInterval(u: real, s: real, m: real)
    requires s > 0.0
    ensures -1.0 < u / s < m <==> -s < u < Prod(m, s)
  {
    assert u == Prod(u / s, s);
    if -1.0 < u / s {
      MulPositive(u / s + 1.0, s);
    } else if u / s < -1.0 {
      MulPositive(-1.0 - u / s, s);
    }
    if u / s < m {
      MulPositive(m - u / s, s);
    } else if u / s > m {
      MulPositive(u / s - m, s);
    }
  }

  /** `VideoWidget`: the frame shown (its size), the widget's size and the
      log of `clicked` emissions. */
  class Widget {
    var pixmap: Option<Size>
    var size: Size
    var clicks: seq<(int, int)>

    /** `VideoWidget()`: no frame yet. */
    constructor(size: Size)
      ensures pixmap.None? && this.size == size && clicks == []
    {
      pixmap := None;
      this.size := size;
      clicks := [];
    }

    /** `setPixmap`: remember the frame the clicks are mapped onto. */
    method SetPixmap(p: Size)
      modifies this
      ensures pixmap == Some(p) && size == old(size) && clicks == old(clicks)
    {
      pixmap := Some(p);
    }

    /** A resize of the widget by Qt, followed by `resizeEvent`. */
    method Resize(s: Size)
      modifies this
      ensures size == s && pixmap == old(pixmap) && clicks == old(clicks)
    {
      size := s;
    }

    /** `mousePressEvent`: emit the frame pixel clicked, if any. */
    method MousePress(x: real, y: real) returns (r: Result<()>)
      modifies this
      ensures pixmap == old(pixmap) && size == old(size)
      ensures match MapClick(old(pixmap), old(size), x, y)
              case Failure(e) => r == Failure(e) && clicks == old(clicks)
              case Success(None) => r.Success? && clicks == old(clicks)
              case Success(Some(c)) => r.Success? && clicks == old(clicks) + [c]
    {
      var m := MapClick(pixmap, size, x, y);
      match m
      case Failure(e) =>
        return Failure(e);
      case Success(None) =>
        return Success(());
      case Success(Some(c)) =>
        clicks := clicks + [c];
        return Success(());
    }
  }
}
