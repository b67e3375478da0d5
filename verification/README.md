# StickyBooth scene model

A Dafny model of the composition and interaction core of StickyBooth, a
browser photo-booth page. The user loads a photo (the *base image*), can lay a
frame over it, and can place stickers on top. Stickers can be moved, resized,
rotated and deleted. The photo can be panned and zoomed. The result is
exported at 1000 x 1000 pixels.

All of the page's state lives in module-level variables of `script.js`.
Here it is one immutable `Scene` value (`scene.dfy`). Each event handler
becomes a pure function from scene to scene (`interaction.dfy`). The
rectangles that `draw` and the download handler give the canvas become a
`Composition` (`render.dfy`). A browser event sequence is folded over the
scene by `Session.Run` (`session.dfy`). Coordinates are Dafny `real`s.

Files:
- `options.dfy`: `Option`, which stands for JavaScript's null and undefined slots.
- `geometry.dfy`: points, rectangles, closed containment, clamp, the zoom rectangle, aspect fit and scaling.
- `scene.dfy`: the `Scene`, `Sticker`, `FrameImage` and `DragMode` datatypes, the constants, the initial state and the invariant.
- `hittest.dfy`: finds the topmost sticker under the pointer.
- `interaction.dfy`: every handler that changes the scene.
- `render.dfy`: the display and export compositions.
- `session.dfy`: events, runs of events, the reachable-state invariant and scenario lemmas.

Behaviour kept exactly as `script.js` has it:
- `baseImage` is assigned before the image decodes (script.js:227), so a failed load leaves `hasBase` true with the image marked broken (`baseBroken`), and the old placement or none.
- Loading a photo clears the stickers and the selection; it keeps the current zoom, since script.js:226-241 never assigns `baseImageZoom`.
- Of the two zoom handlers, only the wheel handler checks for a base image (script.js:358); the pinch handler (script.js:367-380) zooms without one. A pinch baseline of 0 counts as "no baseline", because the check at script.js:372 is a truthiness test.
- A wheel event with `deltaY == 0` zooms out (script.js:360).
- A press starts a pan when it falls inside the stored, unzoomed base rectangle, not the zoomed rectangle that is drawn (script.js:422-424).
- `loadFrame` installs the frame handle before decoding (script.js:246), so a frame that fails to decode stays installed.
- `drawImage` throws on an image whose decode failed. `draw` then stops: after a broken base the canvas is left cleared (script.js:186), after a broken frame the base and stickers are painted but no frame (script.js:217). The download handler produces nothing in either case (script.js:502, 522).
- A handler that would throw a TypeError before assigning anything leaves the scene unchanged. Two cases: a stale sticker index, and a missing `canvas.imageData`.
- A handler whose `draw` call throws keeps every assignment made before that call. Of the scene state modelled here, only the pinch handler assigns any after `draw`: it records the new baseline at script.js:377, after drawing at script.js:375. So a pinch whose drawing throws changes the zoom but keeps the old baseline, and later samples are measured from that old baseline.
- Deletion follows `Array.prototype.splice(start, 1)` for any integer start.
- The two drag flags `isDragging` and `isDraggingBase` are never both set by the code. They are replaced by one tag: `Idle`, `DraggingSticker(offset)` or `PanningBase(offset)`. The grab offset is carried in the tag.

## Model

| member | source | states |
|---|---|---|
| Geometry.Clamp | script.js:361 | The result lies in [lo, hi]. A value already in range is returned unchanged. Values below or above the range go to the nearer bound. |
| Geometry.ZoomedRect | script.js:180-186 | The drawn base rectangle has the same centre as the stored rectangle for every zoom z. Its sides are the stored sides times z. |
| Geometry.UnzoomedRect | script.js:182-185 | Inverse of the zoom: from a drawn rectangle and a non-zero zoom, gives back a rectangle with the same centre and sides divided by the zoom. |
| Geometry.ZoomRoundTrip | script.js:182-185 | Un-zooming the drawn rectangle by the same non-zero zoom recovers the stored rectangle exactly. |
| Geometry.Scale | script.js:498-510 | Rescaling a rectangle's corner and sides by (scaleX, scaleY), as the download handler does, moves its centre to the old centre scaled by the same factors. |
| Geometry.AspectFit | script.js:229-234 | The load-time placement lies inside the canvas and fills at least one canvas dimension. It keeps the image's aspect ratio and is centred on the canvas. |
| Geometry.AspectFitIsLargest | script.js:229-231 | No larger scaled copy of the image fits: any scale that fits the canvas gives sides no larger than the aspect fit's. |
| SceneModel.Initial | script.js:18-29 | The start-up scene satisfies the invariant: no base image, zoom 1.0, no stickers, no selection, no gesture. |
| SceneModel.BaseDrawThrows | script.js:180-186 | `draw` throws at the base image exactly when a base image is set, has a stored placement, and failed to decode. |
| SceneModel.FrameBroken | script.js:216-217 | `draw` throws at the frame exactly when a frame is installed and its image failed to decode. |
| SceneModel.DrawThrows | script.js:176-222 | `draw` stops part-way exactly when it throws at the base image or at the frame; sticker images are only added once decoded, so they never throw. |
| HitTest.FindIndex | script.js:412 | Returns the first sticker whose closed box holds the point, with no earlier sticker holding it. Returns -1 exactly when no sticker holds the point. |
| HitTest.IsPointInSticker | script.js:401-404 | A point hits a sticker exactly when it lies in the sticker's closed box, edges included. |
| HitTest.Reverse | script.js:412 | The copy of the list read topmost first: same length, position i holds the sticker at position length - 1 - i. |
| HitTest.TopmostHit | script.js:411-414 | The selected index is the highest (topmost) sticker whose closed box holds the point. It is -1 exactly when no box holds the point. |
| HitTest.NewestStickerWins | script.js:411-414 | A point inside the sticker added last always selects that sticker, whatever lies beneath it. |
| HitTest.MissedNewestKeepsHit | script.js:411-414 | A point outside the sticker added last is hit-tested exactly as it was before that sticker was added. |
| Interaction.LoadImage | script.js:226-241 | A base image is then present, marked broken exactly when its decode failed. A failed decode changes nothing else. A successful decode places the image by aspect fit and empties the sticker list and selection, keeping zoom, gesture and frame. The invariant is preserved. |
| Interaction.SwitchTheme | script.js:304-316 | The frame, all stickers and the selection are cleared. The photo, its placement and the zoom stay. The invariant is preserved. |
| Interaction.ChooseFrame | script.js:245-250 | Only the frame changes, to the chosen source, installed whether or not it decodes. |
| Interaction.ClearFrame | script.js:282-287 | Only the frame changes, to none. |
| Interaction.NewSticker | script.js:333-340 | A new sticker is an 80 x 80 square centred on the canvas, unrotated, inside the resize bounds. |
| Interaction.AddSticker | script.js:326-346 | Without a base image nothing changes. Otherwise earlier stickers are kept unchanged and in order, the new sticker goes on top and is selected, and nothing outside the sticker list changes. |
| Interaction.Splice1 | script.js:350 | Removing an in-range index drops exactly that element. Earlier elements keep their positions, later ones shift down by one, and the multiset loses exactly that sticker. A negative start -k removes the element at length - k; one below -length removes the first; an index past the end removes nothing. |
| Interaction.DeleteSelected | script.js:348-355 | With no selection this is a no-op. With a valid selection exactly that sticker is removed and the rest keep their order. The selection ends as none and nothing else changes. |
| Interaction.ClampZoom | script.js:361 | The zoom always lands in [0.2, 4.0]. An in-range value is kept; one below goes to 0.2 and one above to 4.0. |
| Interaction.WheelStep | script.js:360 | The step is +0.1 or -0.1, positive exactly when the scroll is upward (deltaY < 0). |
| Interaction.Wheel | script.js:357-363 | Without a base image nothing changes. Otherwise only the zoom changes, to the zoom plus the step, clamped to [0.2, 4.0]: a step crossing a bound stops at that bound, and the zoom never moves the wrong way or further than 0.1. |
| Interaction.HasBaseline | script.js:372 | A recorded pinch distance counts as a baseline exactly when it is present and non-zero. |
| Interaction.Pinch | script.js:366-380 | The new distance becomes the baseline, except when a baseline existed and drawing throws (broken base or frame), in which case the old baseline stays. With no truthy baseline the zoom is unchanged. Otherwise the zoom becomes the old zoom plus 0.005 per unit of distance change, clamped to [0.2, 4.0] so that it stops at the nearer bound. Nothing else changes. |
| Interaction.PinchAfterThrowKeepsStaleBaseline | script.js:372-377 | From zoom 1 and baseline 100, samples at 120 then 140 give zoom 1.2 when drawing works and 1.3 when drawing throws, since the second sample is then measured from 100. |
| Interaction.PinchEnd | script.js:381-382 | The pinch baseline is forgotten and nothing else changes. |
| Interaction.PointerDown | script.js:406-437 | Without a base image nothing changes. Otherwise, if any sticker holds the point, the topmost such sticker is selected and dragged at the grab offset. Failing that, a press inside the stored rectangle starts a pan at the grab offset and anything else goes idle; both clear the selection. Stickers, placement and zoom are untouched. |
| Interaction.MoveSticker | script.js:457-460 | A plain drag puts the box corner at the pointer minus the grab offset and keeps size, rotation and image. |
| Interaction.ResizeSticker | script.js:445-456 | A modifier drag makes the sticker square with side in [20, 300], on the same centre. The side is 0.8 x distance when that is in range, 20 when it is below and 300 when it is above. Rotation and image are kept. |
| Interaction.PointerMove | script.js:439-472 | Only the selected sticker changes: with the modifier it is resized from the given distance, otherwise its corner goes to pointer minus grab offset. All other stickers are unchanged. A pan sets the stored rectangle's corner to pointer minus offset and keeps its size. Nothing else changes. |
| Interaction.PointerUp | script.js:475-478 | The gesture ends and every other part of the scene is kept. |
| Interaction.IsRotateKey | script.js:548 | The rotate keys are exactly "r" and "R". |
| Interaction.IsDeleteKey | script.js:553 | The delete keys are exactly "Delete" and "Backspace". |
| Interaction.KeyDown | script.js:545-557 | With no selection nothing changes. R or r adds exactly 15 degrees to the selected sticker's rotation and leaves its box and every other sticker alone. Delete or Backspace acts as the delete button. Other keys do nothing. |
| Render.Display | script.js:176-222 | If drawing a broken base throws, the canvas is left empty. Otherwise the base is drawn centred on its stored rectangle, with sides times the zoom, only when a base is placed. The placeholder shows exactly when there is no base image. The stickers are the display layers. The chosen frame is stretched over the canvas exactly when it decoded. |
| Render.DisplayLayers | script.js:196-213 | One layer per sticker in paint order, with that sticker's box, rotation and image; exactly the selected one is outlined. |
| Render.Export | script.js:482-523 | An export exists exactly when a base image is placed and neither it nor the frame failed to decode. It has no placeholder and no outlines, one layer per sticker, and the chosen frame covering 1000 x 1000. |
| Render.ExportBase | script.js:491-502 | The exported base rectangle is the drawn, zoomed rectangle scaled by the export factors. |
| Render.ExportLayer | script.js:505-516 | An exported sticker's box is its display box scaled; rotation and image are kept and it is never outlined. |
| Render.ExportLayers | script.js:504-517 | Every sticker is exported, in order, each box scaled, rotation and image kept, none outlined. |
| Render.ExportIsRescaledDisplay | script.js:491-523 | When both images decoded, the export equals the live display with every base, sticker and frame rectangle scaled by 1000 / width across and 1000 / height down, and the outlines dropped. |
| Render.ExportKeepsStickerCentres | script.js:505-513 | Each exported sticker's centre is its display centre scaled onto the export canvas. |
| Render.ExportExample | script.js:498-510 | On a 500 x 500 canvas, a sticker at (100, 100) of size 80 exports at (200, 200) with size 160. |
| Session.Step | script.js:357-389 | Every event handler, including the combined touch listeners, maps a scene satisfying the invariant to another such scene. |
| Session.Run | script.js:17-29 | Any sequence of events keeps the invariant. The selection stays -1 or a valid index, the zoom stays in [0.2, 4.0], stickers stay square with side in [20, 300], and a pan only runs over a placed base. |
| Session.ReachableScenesAreValid | script.js:17-29 | Every scene reachable from start-up has a valid selection, an in-range zoom and well-shaped stickers. |
| Session.RotateThenDeleteScenario | script.js:545-557 | Load, add a sticker, press R three times: rotation is 45 degrees. Delete then leaves no stickers and no selection. |
| Session.DragTranslatesSticker | script.js:412-418 | Pressing on the topmost sticker and dragging without the modifier translates its box by exactly the pointer's displacement. |
| Session.PanTranslatesBase | script.js:422-427 | Pressing on the base image where no sticker is and dragging translates the stored rectangle by exactly the pointer's displacement, keeping its size. |
| Session.ZoomAfterPanKeepsPannedCentre | script.js:465-469 | After a pan, the rectangle drawn at the zoom a wheel step leaves is centred on the panned rectangle, not the pre-pan one. |
| Session.PanTestIgnoresZoom | script.js:422-424 | At zoom 2, a point inside the drawn base image but outside the stored rectangle does not start a pan. |
| Session.ZeroBaselineIsNoBaseline | script.js:372 | A recorded pinch baseline of 0 is treated as no baseline: the pinch only records the new distance. |

## Left out

- DOM lookups, widget construction, the theme dropdown and the `THEMES` asset table (script.js:38-114). The model keeps only image sources as strings.
- `showMessage` and its 4-second timer. These are user feedback, not scene state.
- Camera capture with `getUserMedia` and the camera modal (script.js:141-174). This is browser I/O; a captured frame reaches the model as an ordinary `ImageLoaded` event.
- Asynchronous decoding. Each `onload` body runs at once with the handler that started it. Interleavings such as a sticker's `onload` arriving mid-drag are not modelled.
- The canvas drawing calls, PNG encoding and the download link with its timestamp. Only the rectangles given to `drawImage` are modelled.
- `resizeCanvas`. The canvas size is a parameter of the events and renders that read it.
- `getMousePos` and client-coordinate extraction, including its quirk of treating a client coordinate of 0 as missing. Pointer positions are inputs.
- The clear-frame listener registered `{ once: true }`. `FrameCleared` models a click while that listener is registered.
- `Math.sqrt`, trigonometry and IEEE-754 rounding. Coordinates are exact reals, so 0.1, 0.005 and 0.8 are exact.
- Interaction.PointerMove: the pointer-to-centre distance used by the resize is a non-negative input and is not tied to the pointer position, so its contracts hold for every distance, not only the Euclidean one.
- Interaction.ResizeSticker: takes the distance as a non-negative input rather than computing `Math.sqrt(dx * dx + dy * dy)`, so its contract holds for every distance, not only the Euclidean one.
- Interaction.Pinch: the finger distance is a non-negative input, not computed from two touch points.
- Render.Export: requires a canvas with positive width and height. On a zero-sized canvas the source divides by zero and draws at infinite coordinates, which is not modelled.
- Interaction.LoadImage: a decoded image is taken to have positive natural width and height. A zero-sized image would make the source divide by zero.
- Interaction.KeyDown: Delete and Backspace are modelled as `DeleteSelected`. The source calls `deleteStickerButton.click()` instead (script.js:554), which does nothing while the button is disabled. `draw` refreshes that disabled flag only when it does not throw first (script.js:220), so after a failed base or frame decode the flag can be stale and the key can do nothing. The button's disabled state is not modelled. The same holds for `DeleteClicked`.
