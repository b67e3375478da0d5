/**
 * The editor's module-level state (the `let` bindings at the top of script.js)
 * gathered into one immutable value, together with the invariant every
 * reachable scene satisfies.
 */
module SceneModel {
  import opened Options
  import opened Geometry

  const MIN_ZOOM: real := 0.2
  const MAX_ZOOM: real := 4.0
  const DEFAULT_ZOOM: real := 1.0
  const STICKER_DEFAULT_SIZE: real := 80.0
  /** Bounds the resize gesture clamps a sticker's side to. */
  const MIN_STICKER_SIZE: real := 20.0
  const MAX_STICKER_SIZE: real := 300.0

  /** The drawing surface's pixel size (`canvas.width`, `canvas.height`). */
  datatype Canvas = Canvas(width: nat, height: nat)

  /** A placed sticker: its image source, its box, and its accumulated rotation in degrees. */
  datatype Sticker = Sticker(src: string, box: Rect, rotation: real)

  /**
   * A frame overlay: its source and whether its image decoded. `loadFrame`
   * installs the handle before decoding, so a failed frame stays installed.
   */
  datatype FrameImage = FrameImage(src: string, decoded: bool)

  /**
   * The pointer gesture in progress. `DraggingSticker` stands for
   * `isDragging` with its grab offset (`dragOffsetX/Y`), `PanningBase` for
   * `isDraggingBase` with `baseDragOffsetX/Y`; the two flags are never both
   * set, so one tag replaces them.
   */
  datatype DragMode = Idle | DraggingSticker(offset: Point) | PanningBase(offset: Point)

  /**
   * hasBase     `baseImage` is non-null (set as soon as a load starts)
   * baseBroken  the current `baseImage` failed to decode
   * rect        `canvas.imageData`, the stored base placement, absent until a decode succeeds
   * zoom        `baseImageZoom`
   * stickers    bottom-to-top paint order
   * selected    `selectedStickerIndex`, -1 for none
   * frame       the frame overlay's source, if any
   * pinchBase   `lastTouchDist`, the previous two-finger distance
   */
  datatype Scene = Scene(
    hasBase: bool,
    baseBroken: bool,
    rect: Option<Rect>,
    zoom: real,
    stickers: seq<Sticker>,
    selected: int,
    mode: DragMode,
    frame: Option<FrameImage>,
    pinchBase: Option<real>)

  /** The state script.js starts in. */
  function Initial(): (s: Scene)
    ensures Inv(s)
  {
    Scene(false, false, None, DEFAULT_ZOOM, [], -1, Idle, None, None)
  }

  /** Everything but the sticker list and the selection is the same in both scenes. */
  predicate SameOutsideStickers(a: Scene, b: Scene) {
    && a.hasBase == b.hasBase && a.baseBroken == b.baseBroken && a.rect == b.rect && a.zoom == b.zoom
    && a.mode == b.mode && a.frame == b.frame && a.pinchBase == b.pinchBase
  }

  /** The selection is "none" or names an existing sticker. */
  predicate SelectionValid(s: Scene) {
    s.selected == -1 || 0 <= s.selected < |s.stickers|
  }

  predicate ZoomInRange(z: real) {
    MIN_ZOOM <= z <= MAX_ZOOM
  }

  /** Stickers are square, and their side stays within the resize bounds. */
  predicate WellShaped(t: Sticker) {
    t.box.w == t.box.h && MIN_STICKER_SIZE <= t.box.w <= MAX_STICKER_SIZE
  }

  predicate AllWellShaped(st: seq<Sticker>) {
    forall i :: 0 <= i < |st| ==> WellShaped(st[i])
  }

  /** The invariant of every scene reachable from `Initial` by the editor's event handlers. */
  predicate Inv(s: Scene) {
    && SelectionValid(s)
    && (s.baseBroken ==> s.hasBase)
    && ZoomInRange(s.zoom)
    && AllWellShaped(s.stickers)
    && (s.rect.Some? ==> s.hasBase && s.rect.value.w >= 0.0 && s.rect.value.h >= 0.0)
    && (s.mode.PanningBase? ==> s.rect.Some?)
  }

  /**
   * `draw` throws at the base image: `drawImage` rejects an image whose
   * decode failed, and the base is drawn whenever it has a placement.
   */
  predicate BaseDrawThrows(s: Scene) {
    s.hasBase && s.rect.Some? && s.baseBroken
  }

  /** The installed frame failed to decode, so drawing it throws. */
  predicate FrameBroken(s: Scene) {
    s.frame.Some? && !s.frame.value.decoded
  }

  /** `draw` throws part-way, at the base image or at the frame. */
  predicate DrawThrows(s: Scene) {
    BaseDrawThrows(s) || FrameBroken(s)
  }
}
