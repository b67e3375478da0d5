/**
 * The rectangles `draw` and the download handler hand to the canvas. Drawing
 * itself is not modelled: a composition lists, in paint order, where the base
 * image, each sticker and the frame are placed.
 */
module Render {
  import opened Options
  import opened Geometry
  import opened SceneModel

  /** The export surface's side in pixels. */
  const EXPORT_SIZE: real := 1000.0

  /**
   * A sticker as painted: drawn centred on its box's centre, rotated by
   * `rotation` degrees, with a dashed outline when `outlined`.
   */
  datatype Layer = Layer(src: string, box: Rect, rotation: real, outlined: bool)

  /** The frame overlay, stretched over `box`. */
  datatype Overlay = Overlay(src: string, box: Rect)

  datatype Composition = Composition(
    base: Option<Rect>,
    placeholder: bool,
    stickers: seq<Layer>,
    frame: Option<Overlay>)

  /**
   * `draw` on the live canvas. When drawing the base throws, only the
   * `clearRect` has run and the canvas is left empty; a frame that throws
   * leaves the base and stickers painted and no frame.
   */
  function Display(s: Scene, c: Canvas): (d: Composition)
    ensures BaseDrawThrows(s) ==> d == Composition(None, false, [], None)
    ensures !BaseDrawThrows(s) && s.hasBase && s.rect.Some? ==>
      && d.base.Some?
      && Centre(d.base.value) == Centre(s.rect.value)
      && d.base.value.w == s.rect.value.w * s.zoom && d.base.value.h == s.rect.value.h * s.zoom
    ensures !(s.hasBase && s.rect.Some?) ==> d.base.None?
    ensures d.placeholder <==> !s.hasBase
    ensures !BaseDrawThrows(s) ==> d.stickers == DisplayLayers(s.stickers, s.selected)
    ensures d.frame.Some? <==> !BaseDrawThrows(s) && s.frame.Some? && s.frame.value.decoded
    ensures d.frame.Some? ==>
      d.frame.value == Overlay(s.frame.value.src, Rect(0.0, 0.0, c.width as real, c.height as real))
  {
    if BaseDrawThrows(s) then
      Composition(None, false, [], None)
    else
      var base := if s.hasBase && s.rect.Some? then Some(ZoomedRect(s.rect.value, s.zoom)) else None;
      var frame :=
        if s.frame.Some? && s.frame.value.decoded then
          Some(Overlay(s.frame.value.src, Rect(0.0, 0.0, c.width as real, c.height as real)))
        else None;
      Composition(base, !s.hasBase, DisplayLayers(s.stickers, s.selected), frame)
  }

  /** The stickers in paint order, each with its own box and rotation; exactly the selected one outlined. */
  function DisplayLayers(st: seq<Sticker>, selected: int): (ls: seq<Layer>)
    ensures |ls| == |st|
    ensures forall i :: 0 <= i < |st| ==>
      && ls[i].box == st[i].box
      && ls[i].rotation == st[i].rotation
      && ls[i].src == st[i].src
      && (ls[i].outlined <==> i == selected)
  {
    seq(|st|, i requires 0 <= i < |st| => Layer(st[i].src, st[i].box, st[i].rotation, i == selected))
  }

  /**
   * The download handler's drawing on the 1000 x 1000 export canvas. There is
   * nothing to export without a base image; without a stored placement the
   * destructuring of `canvas.imageData` throws, and a base or frame image
   * whose decode failed makes `drawImage` throw, so there is none then either.
   */
  function Export(s: Scene, c: Canvas): (e: Option<Composition>)
    requires c.width > 0 && c.height > 0
    ensures e.Some? <==> s.hasBase && s.rect.Some? && !s.baseBroken && !FrameBroken(s)
    ensures e.Some? ==>
      && !e.value.placeholder
      && |e.value.stickers| == |s.stickers|
      && (forall i :: 0 <= i < |s.stickers| ==> !e.value.stickers[i].outlined)
      && (e.value.frame.Some? <==> s.frame.Some?)
      && (e.value.frame.Some? ==>
            e.value.frame.value == Overlay(s.frame.value.src, Rect(0.0, 0.0, EXPORT_SIZE, EXPORT_SIZE)))
  {
    if !s.hasBase || s.rect.None? || s.baseBroken || FrameBroken(s) then None
    else
      var scaleX := EXPORT_SIZE / c.width as real;
      var scaleY := EXPORT_SIZE / c.height as real;
      var frame :=
        if s.frame.Some? then Some(Overlay(s.frame.value.src, Rect(0.0, 0.0, EXPORT_SIZE, EXPORT_SIZE)))
        else None;
      Some(Composition(Some(ExportBase(s.rect.value, s.zoom, scaleX, scaleY)), false,
                       ExportLayers(s.stickers, scaleX, scaleY), frame))
  }

  /** The base rectangle the download handler computes afresh: the drawn (zoomed) rectangle, scaled. */
  function ExportBase(rc: Rect, zoom: real, scaleX: real, scaleY: real): (b: Rect)
    ensures b == Scale(ZoomedRect(rc, zoom), scaleX, scaleY)
  {
    var scaledW := rc.w * zoom;
    var scaledH := rc.h * zoom;
    var offsetX := rc.x - (scaledW - rc.w) / 2.0;
    var offsetY := rc.y - (scaledH - rc.h) / 2.0;
    Rect(offsetX * scaleX, offsetY * scaleY, scaledW * scaleX, scaledH * scaleY)
  }

  /** The stickers as exported: each box scaled, rotation and image kept, none outlined. */
  function ExportLayers(st: seq<Sticker>, scaleX: real, scaleY: real): (ls: seq<Layer>)
    ensures |ls| == |st|
    ensures forall i :: 0 <= i < |st| ==>
      && ls[i].box == Scale(st[i].box, scaleX, scaleY)
      && ls[i].rotation == st[i].rotation && ls[i].src == st[i].src && !ls[i].outlined
  {
    seq(|st|, i requires 0 <= i < |st| => ExportLayer(st[i], scaleX, scaleY))
  }

  /**
   * A sticker as the download handler paints it: centred on its scaled centre,
   * so its drawn box is its display box scaled; rotation kept, never outlined.
   */
  function ExportLayer(t: Sticker, scaleX: real, scaleY: real): (l: Layer)
    ensures l.box == Scale(t.box, scaleX, scaleY)
    ensures l.rotation == t.rotation && l.src == t.src && !l.outlined
  {
    var expW := t.box.w * scaleX;
    var expH := t.box.h * scaleY;
    var expX := t.box.x * scaleX;
    var expY := t.box.y * scaleY;
    Layer(t.src, Rect(expX, expY, expW, expH), t.rotation, false)
  }

  /** A composition resized by (kx, ky), with selection outlines dropped. */
  function Rescale(d: Composition, kx: real, ky: real): (e: Composition)
    ensures |e.stickers| == |d.stickers|
  {
    Composition(
      if d.base.Some? then Some(Scale(d.base.value, kx, ky)) else None,
      d.placeholder,
      RescaleLayers(d.stickers, kx, ky),
      if d.frame.Some? then Some(d.frame.value.(box := Scale(d.frame.value.box, kx, ky))) else None)
  }

  function RescaleLayers(ls: seq<Layer>, kx: real, ky: real): (rs: seq<Layer>)
    ensures |rs| == |ls|
  {
    seq(|ls|, i requires 0 <= i < |ls| => ls[i].(box := Scale(ls[i].box, kx, ky), outlined := false))
  }

  /**
   * The export is the live display resized by 1000 / width across and
   * 1000 / height down: the same base rectangle, sticker boxes, rotations and
   * frame, each scaled, with no selection outline.
   */
  lemma ExportIsRescaledDisplay(s: Scene, c: Canvas)
    requires c.width > 0 && c.height > 0
    requires s.hasBase && s.rect.Some? && !s.baseBroken && !FrameBroken(s)
    ensures Export(s, c) == Some(Rescale(Display(s, c), EXPORT_SIZE / c.width as real, EXPORT_SIZE / c.height as real))
  {
    var kx := EXPORT_SIZE / c.width as real;
    var ky := EXPORT_SIZE / c.height as real;
    var rc := s.rect.value;
    ExportLayersAreRescaled(s.stickers, s.selected, kx, ky);
    if s.frame.Some? {
      FullCanvasScalesToExport(c);
    }
  }

  lemma ExportLayersAreRescaled(st: seq<Sticker>, selected: int, kx: real, ky: real)
    ensures ExportLayers(st, kx, ky) == RescaleLayers(DisplayLayers(st, selected), kx, ky)
  {
    var e := ExportLayers(st, kx, ky);
    var r := RescaleLayers(DisplayLayers(st, selected), kx, ky);
    forall i | 0 <= i < |st|
      ensures e[i] == r[i]
    {
    }
  }

  /** The live canvas, scaled by 1000 / width and 1000 / height, is the export canvas. */
  lemma FullCanvasScalesToExport(c: Canvas)
    requires c.width > 0 && c.height > 0
    ensures Scale(Rect(0.0, 0.0, c.width as real, c.height as real), EXPORT_SIZE / c.width as real, EXPORT_SIZE / c.height as real)
      == Rect(0.0, 0.0, EXPORT_SIZE, EXPORT_SIZE)
  {
    FillsExportCanvas(c.width as real);
    FillsExportCanvas(c.height as real);
  }

  /** Scaling a side by 1000 / side gives the export side. */
  lemma FillsExportCanvas(side: real)
    requires side > 0.0
    ensures side * (EXPORT_SIZE / side) == EXPORT_SIZE
  {
  }

  /** Each exported sticker is centred on its display centre scaled to the export canvas. */
  lemma ExportKeepsStickerCentres(s: Scene, c: Canvas, i: int)
    requires c.width > 0 && c.height > 0
    requires s.hasBase && s.rect.Some? && !s.baseBroken && !FrameBroken(s) && 0 <= i < |s.stickers|
    ensures var kx := EXPORT_SIZE / c.width as real;
            var ky := EXPORT_SIZE / c.height as real;
            Centre(Export(s, c).value.stickers[i].box)
              == Point(Centre(s.stickers[i].box).x * kx, Centre(s.stickers[i].box).y * ky)
  {
    ExportIsRescaledDisplay(s, c);
  }

  /** A sticker at (100, 100), 80 x 80, on a 500 x 500 canvas exports at (200, 200), 160 x 160. */
  lemma ExportExample(s: Scene)
    requires s.hasBase && s.rect.Some? && !s.baseBroken && !FrameBroken(s) && |s.stickers| == 1
    requires s.stickers[0].box == Rect(100.0, 100.0, 80.0, 80.0)
    ensures Export(s, Canvas(500, 500)).value.stickers[0].box == Rect(200.0, 200.0, 160.0, 160.0)
  {
  }
}
