/**
 * Real-valued canvas geometry: points, axis-aligned rectangles, the closed-box
 * containment test, the clamp used by every zoom and resize, the zoom rectangle
 * that keeps the base image's centre fixed, the aspect-fit placement computed
 * when a photo loads, and the uniform rescaling applied at export.
 */
module Geometry {

  datatype Point = Point(x: real, y: real)

  /** An axis-aligned box with top-left corner (x, y), width w and height h. */
  datatype Rect = Rect(x: real, y: real, w: real, h: real)

  /** Closed containment: every edge of the box counts as inside. */
  predicate Contains(r: Rect, p: Point) {
    r.x <= p.x <= r.x + r.w && r.y <= p.y <= r.y + r.h
  }

  function Centre(r: Rect): Point {
    Point(r.x + r.w / 2.0, r.y + r.h / 2.0)
  }

  function Min(a: real, b: real): real {
    if a <= b then a else b
  }

  function Max(a: real, b: real): real {
    if a >= b then a else b
  }

  /** `Math.max(lo, Math.min(hi, v))`: the value pulled into [lo, hi]. */
  function Clamp(lo: real, hi: real, v: real): (r: real)
    ensures lo <= hi ==> lo <= r <= hi
    ensures lo <= v <= hi ==> r == v
    ensures lo <= hi && v < lo ==> r == lo
    ensures v > hi && hi >= lo ==> r == hi
  {
    Max(lo, Min(hi, v))
  }

  /**
   * The rectangle the base image is drawn into at zoom `z`: the stored
   * rectangle scaled by `z` about its own centre.
   */
  function ZoomedRect(r: Rect, z: real): (d: Rect)
    ensures Centre(d) == Centre(r)
    ensures d.w == r.w * z && d.h == r.h * z
  {
    var scaledW := r.w * z;
    var scaledH := r.h * z;
    Rect(r.x - (scaledW - r.w) / 2.0, r.y - (scaledH - r.h) / 2.0, scaledW, scaledH)
  }

  /** Recovers the stored rectangle from a drawn one and the zoom that produced it. */
  function UnzoomedRect(d: Rect, z: real): (r: Rect)
    requires z != 0.0
    ensures Centre(r) == Centre(d)
    ensures r.w * z == d.w && r.h * z == d.h
  {
    var w := d.w / z;
    var h := d.h / z;
    Rect(d.x + (d.w - w) / 2.0, d.y + (d.h - h) / 2.0, w, h)
  }

  /** Zooming and then un-zooming by the same non-zero factor gives back the stored rectangle. */
  lemma ZoomRoundTrip(r: Rect, z: real)
    requires z != 0.0
    ensures UnzoomedRect(ZoomedRect(r, z), z) == r
  {
    var d := ZoomedRect(r, z);
    assert d.w / z == r.w;
    assert d.h / z == r.h;
  }

  /** Scales every coordinate, x-values by `kx` and y-values by `ky`. */
  function Scale(r: Rect, kx: real, ky: real): (s: Rect)
    ensures Centre(s) == Point(Centre(r).x * kx, Centre(r).y * ky)
  {
    Rect(r.x * kx, r.y * ky, r.w * kx, r.h * ky)
  }

  lemma LessEqUnscale(a: real, b: real, k: real)
    requires k > 0.0 && a * k <= b * k
    ensures a <= b
  {
    assert b - a == (b * k - a * k) / k;
  }

  /**
   * The placement `loadImage` computes for an image of natural size iw x ih on
   * a cw x ch canvas: scale by min(cw/iw, ch/ih) and centre.
   */
  function AspectFit(cw: real, ch: real, iw: real, ih: real): (r: Rect)
    requires cw >= 0.0 && ch >= 0.0 && iw > 0.0 && ih > 0.0
    ensures IsAspectFit(r, cw, ch, iw, ih)
  {
    var scale := Min(cw / iw, ch / ih);
    var w := iw * scale;
    var h := ih * scale;
    AspectFitFacts(cw, ch, iw, ih, scale);
    Rect((cw - w) / 2.0, (ch - h) / 2.0, w, h)
  }

  /**
   * What an aspect-fit placement is, independently of how it is computed: the
   * box lies inside the canvas, fills it along at least one axis, keeps the
   * image's width-to-height ratio, and shares the canvas's centre.
   */
  predicate IsAspectFit(r: Rect, cw: real, ch: real, iw: real, ih: real) {
    && 0.0 <= r.w <= cw && 0.0 <= r.h <= ch
    && (r.w == cw || r.h == ch)
    && r.w * ih == r.h * iw
    && Centre(r) == Point(cw / 2.0, ch / 2.0)
  }

  lemma AspectFitFacts(cw: real, ch: real, iw: real, ih: real, scale: real)
    requires cw >= 0.0 && ch >= 0.0 && iw > 0.0 && ih > 0.0
    requires scale == Min(cw / iw, ch / ih)
    ensures var w := iw * scale; var h := ih * scale;
      IsAspectFit(Rect((cw - w) / 2.0, (ch - h) / 2.0, w, h), cw, ch, iw, ih)
  {
    assert iw * (cw / iw) == cw;
    assert ih * (ch / ih) == ch;
    if cw / iw <= ch / ih {
      assert ih * (cw / iw) <= ih * (ch / ih);
    } else {
      assert iw * (ch / ih) <= iw * (cw / iw);
    }
    assert (iw * scale) * ih == (ih * scale) * iw;
  }

  /** No larger copy of the image fits: any scale t that fits gives a width no larger than the aspect fit's. */
  lemma AspectFitIsLargest(cw: real, ch: real, iw: real, ih: real, t: real)
    requires cw >= 0.0 && ch >= 0.0 && iw > 0.0 && ih > 0.0
    requires iw * t <= cw && ih * t <= ch
    ensures iw * t <= AspectFit(cw, ch, iw, ih).w
    ensures ih * t <= AspectFit(cw, ch, iw, ih).h
  {
    var r := AspectFit(cw, ch, iw, ih);
    if r.w == cw {
      assert r.h * iw == cw * ih;
      assert (ih * t) * iw <= cw * ih;
      LessEqUnscale(ih * t, r.h, iw);
    } else {
      assert r.h == ch;
      assert r.w * ih == ch * iw;
      assert (iw * t) * ih <= ch * iw;
      LessEqUnscale(iw * t, r.w, ih);
    }
  }
}
