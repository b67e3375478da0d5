/**
 * The editor's event handlers as pure transitions on a `Scene`: photo load,
 * theme switch, frame choice, sticker add and delete, wheel and pinch zoom,
 * pointer down / move / up, and the rotate and delete keys. Each handler's
 * asynchronous `onload` body is taken as running at once; a handler that
 * would throw a TypeError in the browser leaves the scene as it was.
 */
module Interaction {
  import opened Options
  import opened Geometry
  import opened SceneModel
  import opened HitTest

  const WHEEL_STEP: real := 0.1
  /** Zoom change per pixel of change in finger distance. */
  const PINCH_FACTOR: real := 0.005
  /** A resized sticker's side is this fraction of the pointer's distance from its centre. */
  const RESIZE_FACTOR: real := 0.8
  const ROTATE_STEP: real := 15.0

  type Positive = r: real | r > 0.0 witness 1.0
  type NonNeg = r: real | r >= 0.0

  /** Natural size of a decoded image. */
  datatype ImageSize = ImageSize(width: Positive, height: Positive)

  /**
   * `loadImage` followed by its `onload` body (or by `onerror` when `decoded`
   * is None). `baseImage` is replaced before decoding starts, so even a failed
   * load leaves a base image present, marked broken; only a successful
   * decode places it, clears the stickers and the selection. The zoom is kept.
   */
  function LoadImage(s: Scene, c: Canvas, decoded: Option<ImageSize>): (r: Scene)
    ensures r.hasBase
    ensures r.baseBroken <==> decoded.None?
    ensures decoded.None? ==> r == s.(hasBase := true, baseBroken := true)
    ensures decoded.Some? ==>
      && r.rect.Some?
      && IsAspectFit(r.rect.value, c.width as real, c.height as real, decoded.value.width, decoded.value.height)
      && r.stickers == [] && r.selected == -1
      && r.zoom == s.zoom && r.mode == s.mode && r.frame == s.frame && r.pinchBase == s.pinchBase
    ensures Inv(s) ==> Inv(r)
  {
    match decoded
    case None => s.(hasBase := true, baseBroken := true)
    case Some(img) =>
      var placed := AspectFit(c.width as real, c.height as real, img.width, img.height);
      s.(hasBase := true, baseBroken := false, rect := Some(placed), stickers := [], selected := -1)
  }

  /** Choosing another theme drops the frame, every sticker and the selection; the photo stays. */
  function SwitchTheme(s: Scene): (r: Scene)
    ensures r.frame.None? && r.stickers == [] && r.selected == -1
    ensures r.hasBase == s.hasBase && r.baseBroken == s.baseBroken && r.rect == s.rect && r.zoom == s.zoom
    ensures r.mode == s.mode && r.pinchBase == s.pinchBase
    ensures Inv(s) ==> Inv(r)
  {
    s.(frame := None, stickers := [], selected := -1)
  }

  /** `loadFrame`: the frame handle is replaced whether or not it decodes. */
  function ChooseFrame(s: Scene, src: string, decoded: bool): (r: Scene)
    ensures r.frame == Some(FrameImage(src, decoded))
    ensures r.(frame := s.frame) == s
    ensures Inv(s) ==> Inv(r)
  {
    s.(frame := Some(FrameImage(src, decoded)))
  }

  /** The clear-frame button. */
  function ClearFrame(s: Scene): (r: Scene)
    ensures r.frame.None?
    ensures r.(frame := s.frame) == s
    ensures Inv(s) ==> Inv(r)
  {
    s.(frame := None)
  }

  /** A new sticker: 80 x 80, centred on the canvas, unrotated. */
  function NewSticker(c: Canvas, src: string): (t: Sticker)
    ensures t.src == src && t.rotation == 0.0
    ensures t.box.w == STICKER_DEFAULT_SIZE && t.box.h == STICKER_DEFAULT_SIZE
    ensures Centre(t.box) == Point(c.width as real / 2.0, c.height as real / 2.0)
    ensures WellShaped(t)
  {
    Sticker(src,
      Rect(c.width as real / 2.0 - STICKER_DEFAULT_SIZE / 2.0,
           c.height as real / 2.0 - STICKER_DEFAULT_SIZE / 2.0,
           STICKER_DEFAULT_SIZE, STICKER_DEFAULT_SIZE),
      0.0)
  }

  /**
   * A sticker-palette click and its image's `onload`: refused while no base
   * image exists; otherwise the new sticker goes on top and becomes selected.
   */
  function AddSticker(s: Scene, c: Canvas, src: string): (r: Scene)
    ensures !s.hasBase ==> r == s
    ensures s.hasBase ==>
      && |r.stickers| == |s.stickers| + 1
      && r.stickers[..|s.stickers|] == s.stickers
      && r.stickers[|s.stickers|] == NewSticker(c, src)
      && r.selected == |s.stickers|
    ensures SameOutsideStickers(s, r)
    ensures Inv(s) ==> Inv(r)
  {
    if !s.hasBase then s
    else
      var st := s.stickers + [NewSticker(c, src)];
      assert st[..|s.stickers|] == s.stickers;
      s.(stickers := st, selected := |st| - 1)
  }

  /**
   * `r` is `st` with exactly the element at index `i` removed: earlier
   * elements keep their positions and later ones shift down by one.
   */
  predicate RemovedAt(r: seq<Sticker>, st: seq<Sticker>, i: int)
    requires 0 <= i < |st|
  {
    && |r| == |st| - 1
    && (forall j :: 0 <= j < i ==> r[j] == st[j])
    && (forall j :: i <= j < |r| ==> r[j] == st[j + 1])
  }

  /**
   * `Array.prototype.splice(start, 1)`: a negative start counts from the end
   * (and below -length means the first element), a start past the end
   * removes nothing.
   */
  function Splice1(st: seq<Sticker>, start: int): (r: seq<Sticker>)
    ensures 0 <= start < |st| ==> RemovedAt(r, st, start)
    ensures 0 <= start < |st| ==> multiset(r) + multiset{st[start]} == multiset(st)
    ensures -|st| <= start < 0 ==> RemovedAt(r, st, |st| + start)
    ensures start < -|st| && |st| > 0 ==> RemovedAt(r, st, 0)
    ensures start >= |st| ==> r == st
  {
    var i :=
      if start < 0 then (if |st| + start > 0 then |st| + start else 0)
      else if start < |st| then start else |st|;
    if i < |st| then
      assert st == st[..i] + [st[i]] + st[i + 1..];
      st[..i] + st[i + 1..]
    else st
  }

  /** The delete button: removes the selected sticker and clears the selection; a no-op without one. */
  function DeleteSelected(s: Scene): (r: Scene)
    ensures s.selected == -1 ==> r == s
    ensures r.selected == -1
    ensures 0 <= s.selected < |s.stickers| ==> RemovedAt(r.stickers, s.stickers, s.selected)
    ensures SameOutsideStickers(s, r)
    ensures Inv(s) ==> Inv(r)
  {
    if s.selected == -1 then s
    else s.(stickers := Splice1(s.stickers, s.selected), selected := -1)
  }

  /** The zoom step of one wheel event: in for an upward scroll, out otherwise (including deltaY == 0). */
  function WheelStep(deltaY: real): (step: real)
    ensures step == WHEEL_STEP || step == -WHEEL_STEP
    ensures step > 0.0 <==> deltaY < 0.0
  {
    if deltaY < 0.0 then WHEEL_STEP else -WHEEL_STEP
  }

  /** `Math.max(MIN_ZOOM, Math.min(MAX_ZOOM, zoom))`. */
  function ClampZoom(z: real): (r: real)
    ensures ZoomInRange(r)
    ensures ZoomInRange(z) ==> r == z
    ensures z < MIN_ZOOM ==> r == MIN_ZOOM
    ensures z > MAX_ZOOM ==> r == MAX_ZOOM
  {
    Clamp(MIN_ZOOM, MAX_ZOOM, z)
  }

  /** Mouse-wheel zoom: ignored without a base image, otherwise one clamped step. */
  function Wheel(s: Scene, deltaY: real): (r: Scene)
    ensures !s.hasBase ==> r == s
    ensures s.hasBase ==> ZoomInRange(r.zoom) && r.(zoom := s.zoom) == s
    ensures s.hasBase ==> r.zoom == ClampZoom(s.zoom + WheelStep(deltaY))
    ensures s.hasBase && ZoomInRange(s.zoom + WheelStep(deltaY)) ==> r.zoom == s.zoom + WheelStep(deltaY)
    ensures s.hasBase && ZoomInRange(s.zoom) && deltaY < 0.0 ==> s.zoom <= r.zoom <= s.zoom + WHEEL_STEP
    ensures s.hasBase && ZoomInRange(s.zoom) && deltaY >= 0.0 ==> s.zoom - WHEEL_STEP <= r.zoom <= s.zoom
    ensures Inv(s) ==> Inv(r)
  {
    if !s.hasBase then s
    else s.(zoom := ClampZoom(s.zoom + WheelStep(deltaY)))
  }

  /** JavaScript truthiness of `lastTouchDist`: null and 0 both count as "no baseline". */
  predicate HasBaseline(b: Option<real>) {
    b.Some? && b.value != 0.0
  }

  /**
   * A two-finger `touchmove` at finger distance `dist`: zooms by the change
   * since the previous sample when a baseline exists, then records `dist` as
   * the new baseline. There is no base-image check here. The zoom is assigned
   * before `draw` and the baseline after it, so when drawing throws the zoom
   * has changed but the old baseline stays.
   */
  function Pinch(s: Scene, dist: NonNeg): (r: Scene)
    ensures !HasBaseline(s.pinchBase) || !DrawThrows(s) ==> r.pinchBase == Some(dist)
    ensures HasBaseline(s.pinchBase) && DrawThrows(s) ==> r.pinchBase == s.pinchBase
    ensures r.(zoom := s.zoom, pinchBase := s.pinchBase) == s
    ensures !HasBaseline(s.pinchBase) ==> r.zoom == s.zoom
    ensures HasBaseline(s.pinchBase) ==> ZoomInRange(r.zoom)
    ensures HasBaseline(s.pinchBase) ==> r.zoom == ClampZoom(s.zoom + (dist - s.pinchBase.value) * PINCH_FACTOR)
    ensures HasBaseline(s.pinchBase) && ZoomInRange(s.zoom + (dist - s.pinchBase.value) * PINCH_FACTOR) ==>
      r.zoom == s.zoom + (dist - s.pinchBase.value) * PINCH_FACTOR
    ensures Inv(s) ==> Inv(r)
  {
    if HasBaseline(s.pinchBase) then
      var change := (dist - s.pinchBase.value) * PINCH_FACTOR;
      var zoomed := s.(zoom := ClampZoom(s.zoom + change));
      if DrawThrows(zoomed) then zoomed else zoomed.(pinchBase := Some(dist))
    else
      s.(pinchBase := Some(dist))
  }

  /**
   * Two samples at 120 and then 140 after a baseline of 100, from zoom 1:
   * with drawing intact each step zooms by its own change (1.1, then 1.2);
   * when drawing throws, both are measured from 100 (1.1, then 1.3).
   */
  lemma PinchAfterThrowKeepsStaleBaseline(s: Scene)
    requires s.pinchBase == Some(100.0) && s.zoom == 1.0
    ensures !DrawThrows(s) ==> Pinch(Pinch(s, 120.0), 140.0).zoom == 1.2
    ensures DrawThrows(s) ==> Pinch(Pinch(s, 120.0), 140.0).zoom == 1.3
  {
  }

  /** `touchend` / `touchcancel` forget the pinch baseline. */
  function PinchEnd(s: Scene): (r: Scene)
    ensures r.pinchBase.None? && r.(pinchBase := s.pinchBase) == s
    ensures Inv(s) ==> Inv(r)
  {
    s.(pinchBase := None)
  }

  /**
   * `handleStart`: ignored without a base image. Otherwise the topmost sticker
   * under the pointer is selected and dragged; failing that, a press inside
   * the stored (unzoomed) base rectangle starts a pan; anything else clears
   * the selection.
   */
  function PointerDown(s: Scene, p: Point): (r: Scene)
    ensures !s.hasBase ==> r == s
    ensures SameOutsideStickers(s, r.(mode := s.mode)) && r.stickers == s.stickers
    ensures s.hasBase ==> SelectionValid(r)
    ensures s.hasBase && r.selected >= 0 ==>
      && IsPointInSticker(p, s.stickers[r.selected])
      && (forall j :: r.selected < j < |s.stickers| ==> !IsPointInSticker(p, s.stickers[j]))
      && r.mode == DraggingSticker(Point(p.x - s.stickers[r.selected].box.x, p.y - s.stickers[r.selected].box.y))
    ensures s.hasBase && (exists j :: 0 <= j < |s.stickers| && IsPointInSticker(p, s.stickers[j])) ==>
      r.selected >= 0
    ensures s.hasBase && (forall j :: 0 <= j < |s.stickers| ==> !IsPointInSticker(p, s.stickers[j])) ==>
      && r.selected == -1
      && (r.mode.PanningBase? <==> s.rect.Some? && Contains(s.rect.value, p))
      && (r.mode.PanningBase? ==> r.mode.offset == Point(p.x - s.rect.value.x, p.y - s.rect.value.y))
      && (!r.mode.PanningBase? ==> r.mode == Idle)
    ensures Inv(s) ==> Inv(r)
  {
    if !s.hasBase then s
    else
      var k := TopmostHit(s.stickers, p);
      if k != -1 then
        var t := s.stickers[k];
        s.(selected := k, mode := DraggingSticker(Point(p.x - t.box.x, p.y - t.box.y)))
      else if s.rect.Some? && Contains(s.rect.value, p) then
        var rc := s.rect.value;
        s.(selected := -1, mode := PanningBase(Point(p.x - rc.x, p.y - rc.y)))
      else
        s.(selected := -1, mode := Idle)
  }

  /** A plain drag: the box's corner follows the pointer at the grab offset. */
  function MoveSticker(t: Sticker, p: Point, offset: Point): (u: Sticker)
    ensures u.box.x + offset.x == p.x && u.box.y + offset.y == p.y
    ensures u.box.w == t.box.w && u.box.h == t.box.h
    ensures u.rotation == t.rotation && u.src == t.src
  {
    t.(box := t.box.(x := p.x - offset.x, y := p.y - offset.y))
  }

  /**
   * A modifier drag: the side becomes 0.8 times the pointer's distance from
   * the box centre, clamped to [20, 300], and the box is re-centred on that
   * same centre. `dist` is that distance (`Math.sqrt(dx * dx + dy * dy)`).
   */
  function ResizeSticker(t: Sticker, dist: NonNeg): (u: Sticker)
    ensures u.box.w == u.box.h
    ensures MIN_STICKER_SIZE <= u.box.w <= MAX_STICKER_SIZE
    ensures Centre(u.box) == Centre(t.box)
    ensures MIN_STICKER_SIZE <= dist * RESIZE_FACTOR <= MAX_STICKER_SIZE ==> u.box.w == dist * RESIZE_FACTOR
    ensures dist * RESIZE_FACTOR < MIN_STICKER_SIZE ==> u.box.w == MIN_STICKER_SIZE
    ensures dist * RESIZE_FACTOR > MAX_STICKER_SIZE ==> u.box.w == MAX_STICKER_SIZE
    ensures u.rotation == t.rotation && u.src == t.src
  {
    var centreX := t.box.x + t.box.w / 2.0;
    var centreY := t.box.y + t.box.h / 2.0;
    var newSize := Clamp(MIN_STICKER_SIZE, MAX_STICKER_SIZE, dist * RESIZE_FACTOR);
    t.(box := Rect(centreX - newSize / 2.0, centreY - newSize / 2.0, newSize, newSize))
  }

  /**
   * `handleMove`: while dragging a sticker that is still selected, move it or
   * (with the modifier) resize it; while panning, move the stored base
   * rectangle's corner to the pointer at the grab offset, keeping its size.
   */
  function PointerMove(s: Scene, p: Point, modifier: bool, dist: NonNeg): (r: Scene)
    ensures SameOutsideStickers(s, r.(rect := s.rect)) && r.selected == s.selected
    ensures |r.stickers| == |s.stickers|
    ensures forall j :: 0 <= j < |s.stickers| && j != s.selected ==> r.stickers[j] == s.stickers[j]
    ensures !s.mode.DraggingSticker? ==> r.stickers == s.stickers
    ensures s.mode.DraggingSticker? && 0 <= s.selected < |s.stickers| ==>
      var t := s.stickers[s.selected];
      var u := r.stickers[s.selected];
      && u.rotation == t.rotation && u.src == t.src
      && (modifier ==>
            u == ResizeSticker(t, dist))
      && (!modifier ==>
            u.box == Rect(p.x - s.mode.offset.x, p.y - s.mode.offset.y, t.box.w, t.box.h))
    ensures !s.mode.PanningBase? ==> r.rect == s.rect
    ensures s.mode.PanningBase? && s.rect.Some? ==>
      r.rect == Some(Rect(p.x - s.mode.offset.x, p.y - s.mode.offset.y, s.rect.value.w, s.rect.value.h))
    ensures Inv(s) ==> Inv(r)
  {
    match s.mode
    case DraggingSticker(offset) =>
      if s.selected != -1 && 0 <= s.selected < |s.stickers| then
        var t := s.stickers[s.selected];
        var u := if modifier then ResizeSticker(t, dist) else MoveSticker(t, p, offset);
        s.(stickers := s.stickers[s.selected := u])
      else
        s
    case PanningBase(offset) =>
      if s.rect.Some? then
        var rc := s.rect.value;
        s.(rect := Some(Rect(p.x - offset.x, p.y - offset.y, rc.w, rc.h)))
      else
        s
    case Idle => s
  }

  /** `handleEnd`: whatever gesture was running stops; its effects stay applied. */
  function PointerUp(s: Scene): (r: Scene)
    ensures r.mode == Idle && r.(mode := s.mode) == s
    ensures Inv(s) ==> Inv(r)
  {
    s.(mode := Idle)
  }

  predicate IsRotateKey(key: string) {
    key == "r" || key == "R"
  }

  predicate IsDeleteKey(key: string) {
    key == "Delete" || key == "Backspace"
  }

  /**
   * The `keydown` listener: with a selection, R adds 15 degrees to the
   * selected sticker's rotation and Delete / Backspace deletes it.
   */
  function KeyDown(s: Scene, key: string): (r: Scene)
    ensures s.selected == -1 ==> r == s
    ensures !IsRotateKey(key) && !IsDeleteKey(key) ==> r == s
    ensures IsRotateKey(key) ==> r.(stickers := s.stickers) == s && |r.stickers| == |s.stickers|
    ensures IsRotateKey(key) ==> forall j :: 0 <= j < |s.stickers| && j != s.selected ==> r.stickers[j] == s.stickers[j]
    ensures IsRotateKey(key) && 0 <= s.selected < |s.stickers| ==>
      && r.stickers[s.selected].rotation == s.stickers[s.selected].rotation + ROTATE_STEP
      && r.stickers[s.selected].box == s.stickers[s.selected].box
      && r.stickers[s.selected].src == s.stickers[s.selected].src
    ensures IsDeleteKey(key) ==> r == DeleteSelected(s)
    ensures Inv(s) ==> Inv(r)
  {
    if s.selected == -1 then s
    else if IsRotateKey(key) then
      if 0 <= s.selected < |s.stickers| then
        var t := s.stickers[s.selected];
        s.(stickers := s.stickers[s.selected := t.(rotation := t.rotation + ROTATE_STEP)])
      else
        s
    else if IsDeleteKey(key) then DeleteSelected(s)
    else s
  }
}
