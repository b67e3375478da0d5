/**
 * An editing session: the browser events script.js listens to, the scene
 * change each one causes, and the facts that hold of every scene a sequence
 * of events can reach.
 */
module Session {
  import opened Options
  import opened Geometry
  import opened SceneModel
  import opened HitTest
  import opened Interaction
  import opened Render

  /**
   * One input event. Pointer positions are canvas coordinates; finger and
   * pointer-to-centre distances are supplied already measured.
   */
  datatype Event =
    | ImageLoaded(canvas: Canvas, decoded: Option<ImageSize>)
    | ThemeChanged
    | FrameChosen(src: string, frameDecoded: bool)
    | FrameCleared
    | StickerChosen(canvas: Canvas, src: string)
    | DeleteClicked
    | WheelScrolled(deltaY: real)
    | PointerPressed(p: Point)
    | MouseMoved(p: Point, modifier: bool, dist: NonNeg)
      /** `touches` fingers; `fingerDist` is the distance between the first two. */
    | TouchMoved(p: Point, touches: nat, fingerDist: NonNeg, modifier: bool, dist: NonNeg)
    | MouseReleased
    | TouchEnded
    | TouchCancelled
    | KeyPressed(key: string)

  /**
   * The scene after one event. A touch move runs the pinch listener first and
   * `handleMove` second, in registration order; more than one finger counts
   * as the resize modifier. A touch end runs both the pinch reset and
   * `handleEnd`.
   */
  function Step(s: Scene, e: Event): (r: Scene)
    ensures Inv(s) ==> Inv(r)
  {
    match e
    case ImageLoaded(c, decoded) => LoadImage(s, c, decoded)
    case ThemeChanged => SwitchTheme(s)
    case FrameChosen(src, decoded) => ChooseFrame(s, src, decoded)
    case FrameCleared => ClearFrame(s)
    case StickerChosen(c, src) => AddSticker(s, c, src)
    case DeleteClicked => DeleteSelected(s)
    case WheelScrolled(deltaY) => Wheel(s, deltaY)
    case PointerPressed(p) => PointerDown(s, p)
    case MouseMoved(p, modifier, dist) => PointerMove(s, p, modifier, dist)
    case TouchMoved(p, touches, fingerDist, modifier, dist) =>
      var pinched := if touches == 2 then Pinch(s, fingerDist) else s;
      PointerMove(pinched, p, modifier || touches > 1, dist)
    case MouseReleased => PointerUp(s)
    case TouchEnded => PointerUp(PinchEnd(s))
    case TouchCancelled => PinchEnd(s)
    case KeyPressed(key) => KeyDown(s, key)
  }

  /**
   * The scene after a sequence of events, applied in order. Every handler
   * keeps the invariant, so every sequence of events does: the selection is
   * always "none" or a real sticker, the zoom stays in [0.2, 4.0], and every
   * sticker stays square with a side in [20, 300].
   */
  function Run(s: Scene, es: seq<Event>): (r: Scene)
    ensures Inv(s) ==> Inv(r)
    decreases |es|
  {
    if |es| == 0 then s else Run(Step(s, es[0]), es[1..])
  }

  /** The invariant holds in every scene reachable from start-up. */
  lemma ReachableScenesAreValid(es: seq<Event>)
    ensures SelectionValid(Run(Initial(), es))
    ensures ZoomInRange(Run(Initial(), es).zoom)
    ensures AllWellShaped(Run(Initial(), es).stickers)
  {
  }

  /**
   * Load a photo, add a sticker, press R three times, then Delete: the
   * sticker turned to 45 degrees before it went, and the scene ends with no
   * stickers and no selection.
   */
  lemma RotateThenDeleteScenario(s: Scene, c: Canvas, img: ImageSize, src: string)
    ensures var loaded := LoadImage(s, c, Some(img));
            var added := AddSticker(loaded, c, src);
            var turned := KeyDown(KeyDown(KeyDown(added, "r"), "r"), "R");
            && turned.stickers[0].rotation == 45.0
            && KeyDown(turned, "Delete").stickers == []
            && KeyDown(turned, "Delete").selected == -1
  {
    var loaded := LoadImage(s, c, Some(img));
    var added := AddSticker(loaded, c, src);
    assert added.selected == 0 && |added.stickers| == 1;
    assert IsRotateKey("r") && IsRotateKey("R") && !IsDeleteKey("r");
    var once := KeyDown(added, "r");
    var twice := KeyDown(once, "r");
    var turned := KeyDown(twice, "R");
    assert turned.stickers[0].rotation == 45.0;
    assert IsDeleteKey("Delete") && !IsRotateKey("Delete");
  }

  /**
   * Grabbing the topmost sticker under the pointer and dragging without the
   * modifier translates its box by exactly the pointer's displacement.
   */
  lemma DragTranslatesSticker(s: Scene, p0: Point, p1: Point, dist: NonNeg)
    requires s.hasBase && TopmostHit(s.stickers, p0) != -1
    ensures var k := TopmostHit(s.stickers, p0);
            var t := s.stickers[k];
            var moved := PointerMove(PointerDown(s, p0), p1, false, dist);
            moved.stickers[k].box == Rect(t.box.x + (p1.x - p0.x), t.box.y + (p1.y - p0.y), t.box.w, t.box.h)
  {
  }

  /**
   * Pressing on the base image (no sticker there) and dragging translates the
   * stored rectangle by exactly the pointer's displacement.
   */
  lemma PanTranslatesBase(s: Scene, p0: Point, p1: Point, dist: NonNeg)
    requires s.hasBase && TopmostHit(s.stickers, p0) == -1
    requires s.rect.Some? && Contains(s.rect.value, p0)
    ensures var rc := s.rect.value;
            PointerMove(PointerDown(s, p0), p1, false, dist).rect
              == Some(Rect(rc.x + (p1.x - p0.x), rc.y + (p1.y - p0.y), rc.w, rc.h))
  {
  }

  /**
   * After a pan, zoom centres on the panned rectangle: the base image's drawn
   * centre after a wheel step is the stored rectangle's centre right after
   * the pan, not before it.
   */
  lemma ZoomAfterPanKeepsPannedCentre(s: Scene, p: Point, dist: NonNeg, deltaY: real)
    requires s.hasBase && s.mode.PanningBase? && s.rect.Some?
    ensures var panned := PointerMove(s, p, false, dist);
            var zoomed := Wheel(panned, deltaY);
            Centre(ZoomedRect(zoomed.rect.value, zoomed.zoom)) == Centre(panned.rect.value)
  {
  }

  /**
   * The press test for panning uses the stored rectangle, not the zoomed one
   * that is drawn: at zoom 2 a point inside the drawn image but outside the
   * stored rectangle starts no pan.
   */
  lemma PanTestIgnoresZoom()
    ensures var s := Scene(true, false, Some(Rect(0.0, 0.0, 100.0, 100.0)), 2.0, [], -1, Idle, None, None);
            var p := Point(150.0, 150.0);
            && Contains(Display(s, Canvas(100, 100)).base.value, p)
            && PointerDown(s, p).mode == Idle
  {
  }

  /** A pinch whose recorded baseline is 0 only records the new distance. */
  lemma ZeroBaselineIsNoBaseline(s: Scene, dist: NonNeg)
    requires s.pinchBase == Some(0.0)
    ensures Pinch(s, dist) == s.(pinchBase := Some(dist))
  {
  }
}
