# Memoire photobooth — a Dafny model of its editing and export core

Memoire is a browser photobooth. A session runs like this:

1. The user picks a theme, then a layout template.
2. The user captures or uploads photos.
3. The user decorates the strip with stickers in an editor.
4. The editor renders one flattened image for download.

This project models the logic behind those screens and proves what it promises. The parts are:

- **The layout catalog** (`templates.dfy`): the five slot tables, and the geometry they are authored to satisfy:
  - every slot is on the canvas;
  - slots are pairwise disjoint;
  - the slot counts, gaps, columns and rows.
- **Export geometry** (`geometry.dfy`):
  - scaling by the export factor 2;
  - the slot corner radius, capped at half of each side;
  - cover fitting of a photo into a slot;
  - percent-to-pixel placement and sizing of stickers.
- **The export pass** (`compositor.dfy`). It is a log of draw calls instead of pixels: background, then one call per slot that has a photo, then the stickers in list order, then the frame. A method with a loop over the slots and a loop over the stickers is proved equal to the specification function `ExportPass`. Lemmas prove:
  - the layering order;
  - the exact layout of a completed pass;
  - that every photo is cover-fitted to its slot;
  - that the pass completes exactly when every image loads.
- **The sticker list** (`stickers.dfy`): add, update by id and remove by id, with the selection beside them.
- **The editor** (`editor.dfy`): a class holding the sticker list, the selection, the background variant, the processing flag and the export canvas. The render is split into two steps:
  - a request, which checks the re-entrancy guard, sizes the canvas and snapshots its inputs;
  - a continuation, which draws the export pass and clears the flag.
- **Sticker manipulation** (`transform.dfy`): the pointer-gesture state machine of one sticker (move, scale, rotate), with the patch each pointer move emits.
- **The upload and capture screens** (`upload.dfy`, `capture.dfy`): classes over their photo lists.
- **The screen flow** (`app.dfy`): a class over the session fields. It covers the initial state and reset, plus one method per screen callback.
- **Download naming** (`export.dfy`): theme slugs and the file-name format. Both are proved injective.

Numbers are exact `real`s. Image loads are a function from resource to outcome (a natural size, or an error). Platform measurements are inputs: bounding boxes, pointer distances, angles, captured frames, file contents and the clock.

Where the code and the design intent differ, the model follows the code:

- **Preview size versus export size.** The preview shows a sticker at 80 preview pixels per unit of scale, on a surface half the template's size. The export draws it at 80 reference pixels per unit of scale, at twice the template's size. Relative to the surface, the preview sticker is therefore twice as large as the exported one (`EditorCanvas.PreviewStickerIsTwiceExportSize`). The preview background is CSS-cover-fitted while the export stretches it. Only the placement of slots and sticker centres agrees between preview and export, and only when the preview surface is taken to be exactly `PreviewScale` times the canvas; the preview box's border is ignored (see "## Left out").
- **The zero-distance guard.** It replaces a distance of exactly zero by one; it does not floor small distances.
- **Sticker positions.** They are not clamped to [0, 100].
- **Pointer capture.** It is released only for the gesture's own pointer. The gesture itself ends on any pointer up or cancel.
- **A failed export.** It leaves what it had drawn on the canvas. It never hands on a finished image.

## Model

| member | source | states |
|---|---|---|
| Types.Themes | constants.ts:3-77 | every theme's record carries its own key and a non-empty sticker palette |
| Geometry.ScaleRect | components/EditorCanvas.tsx:156-159 | each coordinate and side of a slot are multiplied by the scale factor |
| Geometry.ScalingPreservesProportion | components/EditorCanvas.tsx:118-122 | every slot edge sits at the same fraction of the surface at any scale |
| Geometry.CornerRadius | components/EditorCanvas.tsx:166-170 | the radius is the least of 80, half the clip's width and half its height, and it is exactly 80 iff both sides are at least 160 |
| Geometry.CoverFit | components/EditorCanvas.tsx:87-104 | the drawn rectangle contains the slot; it has the image's aspect ratio; it matches the slot on one axis and overflows equally on both sides of the other |
| Geometry.CoverFitLandscapeInSquare | components/EditorCanvas.tsx:87-104 | a 1600x900 image in a 400x400 slot is drawn 6400/9 wide, 1400/9 left of the slot |
| Geometry.StickerCentre | components/EditorCanvas.tsx:205-208 | the centre is at x percent of the width and y percent of the height |
| Geometry.StickerExportSize | components/EditorCanvas.tsx:210 | the side is 80 x scale at reference size, times the export factor; it is positive for a positive scale |
| Stickers.Add | components/EditorCanvas.tsx:40-51 | exactly one sticker is appended, with the fresh id, the given src, position 50/50, rotation 0 and scale 1; earlier stickers are unchanged; id uniqueness is kept |
| Stickers.Update | components/EditorCanvas.tsx:53-57 | the length is kept; stickers with the id are merged with the patch and the others are unchanged |
| Stickers.Merge | components/EditorCanvas.tsx:55 | every field present in the patch takes the patch's value, and every absent field keeps the sticker's |
| Stickers.MergeIdempotent | components/EditorCanvas.tsx:55 | applying the same patch twice is applying it once |
| Stickers.UpdateKeepsIds | components/EditorCanvas.tsx:53-57 | a patch without an id keeps the id sequence and its uniqueness |
| Stickers.MergeEmpty | components/EditorCanvas.tsx:55 | merging an empty patch changes nothing |
| Stickers.Remove | components/EditorCanvas.tsx:59-60 | every kept sticker was present and lacks the id; every present sticker that lacks the id is kept |
| Stickers.RemoveAppend | components/EditorCanvas.tsx:60 | removal distributes over concatenation, so relative order is kept |
| Stickers.RemoveAbsent | components/EditorCanvas.tsx:60 | removing an id nobody has is the identity |
| Stickers.AddThenRemove | components/EditorCanvas.tsx:40-60 | removing a just-added sticker restores the list |
| Stickers.UniqueCons | components/EditorCanvas.tsx:60 | a list has unique ids iff its tail does and the head's id is not in the tail |
| Stickers.RemoveKeepsAbsence | components/EditorCanvas.tsx:60 | removal never introduces an id |
| Stickers.RemoveKeepsUnique | components/EditorCanvas.tsx:60 | removal keeps ids unique |
| Stickers.RemoveDropsId | components/EditorCanvas.tsx:60 | no kept sticker has the removed id |
| Stickers.SelectionAfterRemove | components/EditorCanvas.tsx:61 | the selection is cleared iff it was the removed id, and is otherwise kept |
| Templates.StackedOrder | templates/vertical4.ts:10-13 | in a downward stack every slot ends above any later slot's top |
| Templates.StackedIsDisjoint | templates/vertical4.ts:10-13 | a downward stack is pairwise disjoint |
| Templates.Vertical2Geometry | templates/vertical2.ts:3-16 | 1080x1920 canvas; two 834x728 slots at x 123 ending at x 957, the last ending at y 1748; gap 80; well formed; the export radius is the full 80 |
| Templates.Vertical3Geometry | templates/vertical3.ts:3-13 | three 864x480 slots at x 108, one every 510, ending at y 1692; well formed |
| Templates.Vertical4Geometry | templates/vertical4.ts:3-14 | four 864x360 slots at x 108, one every 390, ending at y 1722; well formed |
| Templates.Grid2x2Geometry | templates/grid2x2.ts:3-14 | four 414x414 squares listed row by row; well formed |
| Templates.Staggered2x2Geometry | templates/staggered2x2.ts:3-17 | four 417x650 slots in columns x 108-525 and x 555-972, the right column 160 lower; the grid frame is reused; well formed |
| Templates.CatalogFacts | App.tsx:19-24 | the catalog is the two-, three- and four-photo strips and the staggered grid; the grid is absent; each entry is well formed with 2 to 4 slots; every slot of every table, the unlisted grid included, gets the full corner radius 40·2 in the export, never capped by half a side |
| Templates.SlotsTakeFullRadius | components/EditorCanvas.tsx:166-170 | for any slot of any of the five tables, the export clip's corner radius is the full 40·2, since no slot side is under 80 |
| Templates.RadiusNeverCapped | components/EditorCanvas.tsx:166-170 | all slots of all five tables at once: no export corner radius is capped by half a side |
| Compositor.FirstFailure | components/EditorCanvas.tsx:150-152 | everything before the index loads, and the index itself, if in range, fails |
| Compositor.FirstFailureUnique | components/EditorCanvas.tsx:150-152 | the first failure is the only index with that property |
| Compositor.Sources | components/EditorCanvas.tsx:202-203 | the sticker sources, one per sticker, in order |
| Compositor.SlotOp | components/EditorCanvas.tsx:154-200 | photo i goes into slot i at export scale; the clip is covered; the radius is capped |
| Compositor.SlotOpsShape | components/EditorCanvas.tsx:154-155 | the photo layer has one call per slot that has a photo, in slot order |
| Compositor.StickerOpsShape | components/EditorCanvas.tsx:202-213 | the sticker layer has one call per sticker, in list order |
| Compositor.SlotOps | components/EditorCanvas.tsx:154-155 | the photo layer has one call per slot that has a photo, and call n is a photo call for slot n |
| Compositor.StickerOp | components/EditorCanvas.tsx:203-212 | a sticker call keeps the sticker's id, source and rotation, is centred at x and y percent of the surface, and has the side 80 x scale at reference size, times the export factor |
| Compositor.StickerOps | components/EditorCanvas.tsx:202-213 | the sticker layer has one call per sticker, and call n draws sticker n |
| Compositor.ExportWidth | components/EditorCanvas.tsx:118 | the export surface is the template canvas's width at export scale, wider than the canvas itself |
| Compositor.ExportHeight | components/EditorCanvas.tsx:119 | the export surface is the template canvas's height at export scale, taller than the canvas itself |
| Compositor.ExportPass | components/EditorCanvas.tsx:147-218 | a failed pass names a resource that failed to load; a completed log starts with the background and ends with the frame, both at export size |
| Compositor.Composite | components/EditorCanvas.tsx:118-219 | the slot loop and the sticker loop produce exactly the export pass, aborting at the first image that fails to load |
| Compositor.DrawSlots | components/EditorCanvas.tsx:154-200 | the slot loop draws the background followed by exactly the photo layer |
| Compositor.DrawStickers | components/EditorCanvas.tsx:202-213 | the sticker loop stops at the first sticker whose image fails, returning its index, and has drawn exactly the stickers before it |
| Compositor.ExportCompletesIff | components/EditorCanvas.tsx:147-218 | the pass completes iff the background, all photos, all stickers and the frame load; a failure names a requested resource that failed |
| Compositor.ExportedLayout | components/EditorCanvas.tsx:147-216 | a completed log is the background, min(slots, photos) photo calls, then the sticker calls, then the frame, all at export size |
| Compositor.ExportedLog | components/EditorCanvas.tsx:147-218 | a completed pass is the background, the whole photo layer, the whole sticker layer and the frame |
| Compositor.ExportIsLayered | components/EditorCanvas.tsx:147-216 | in every outcome no draw call precedes one of a lower layer |
| Compositor.LayeredJoin | components/EditorCanvas.tsx:147-216 | appending a log of one layer to a layered log of no higher layers keeps it layered |
| Compositor.LayeredParts | components/EditorCanvas.tsx:147-216 | a background, photo calls, sticker calls and a frame are layered in that order, with or without the frame |
| Compositor.PhotosCoverSlots | components/EditorCanvas.tsx:154-200 | every photo call uses photo i and slot i at export scale, covers its clip and has a capped radius |
| Transform.RadiusOrOne | components/StickerTransform.tsx:64 | a zero distance becomes 1 and any other is kept |
| Transform.Begin | components/StickerTransform.tsx:55-80 | a gesture starts iff both boxes are measured; it records the mode, the pointer, the press point, the sticker's x, y, scale and rotation, the centre of the sticker's own box, and the press point's distance from that centre as the start radius, or 1 when the distance is 0 |
| Transform.MovePatch | components/StickerTransform.tsx:113-123 | only x and y are patched, and they move with the pointer's displacement as a percentage of the surface |
| Transform.ScaledValue | components/StickerTransform.tsx:127-129 | the scale stays in [0.2, 4]; it saturates at each end; it is proportional to the stretch in between |
| Transform.Respond | components/StickerTransform.tsx:105-143 | a patch is emitted iff a gesture of the same pointer is active and the surface is measured; each mode patches only its own field |
| Transform.MoveBackRestores | components/StickerTransform.tsx:113-123 | returning to the press point restores x and y |
| Transform.StillGestureIsIdentity | components/StickerTransform.tsx:47-143 | a press and a move at the same spot, with no stretch or turn, leave the sticker unchanged |
| Transform.FarDragSaturates | components/StickerTransform.tsx:124-130 | a hundredfold stretch gives exactly the maximum scale 4 |
| Transform.CentreDragFloors | components/StickerTransform.tsx:124-130 | dragging onto the centre gives exactly the minimum scale 0.2 for a small enough start |
| Transform.StickerTransform.constructor | components/StickerTransform.tsx:40 | no gesture and no capture at first |
| Transform.StickerTransform.SetProps | components/StickerTransform.tsx:32-38 | new properties leave the gesture state alone |
| Transform.StickerTransform.StartInteraction | components/StickerTransform.tsx:47-81 | the sticker is always selected first; the gesture and the pointer capture are set only when both boxes are measured |
| Transform.StickerTransform.HandlePointerMove | components/StickerTransform.tsx:105-143 | at most one change report, exactly when the move applies, with the patch of `Respond` |
| Transform.StickerTransform.EndInteraction | components/StickerTransform.tsx:167-171 | the gesture always ends; the capture is released iff the pointer matches |
| Transform.StickerTransform.PressRemove | components/StickerTransform.tsx:228-238 | the remove button of a selected sticker reports a removal |
| EditorCanvas.Editor.constructor | components/EditorCanvas.tsx:28-33 | main variant, no selection, not processing |
| EditorCanvas.Editor.ActiveBackgroundUrl | components/EditorCanvas.tsx:35-38 | the main background for the main variant, the alternate for the alternate |
| EditorCanvas.Editor.SetFrameVariant | components/EditorCanvas.tsx:260-277 | only the variant changes |
| EditorCanvas.Editor.AddSticker | components/EditorCanvas.tsx:40-51 | the list becomes `Add`, the new id is selected, and invariants are kept |
| EditorCanvas.Editor.UpdateSticker | components/EditorCanvas.tsx:53-57 | the list becomes `Update`, and the selection is unchanged |
| EditorCanvas.Editor.RemoveSticker | components/EditorCanvas.tsx:59-62 | the list becomes `Remove`; the selection is cleared iff it was the removed id; invariants are kept |
| EditorCanvas.Editor.Dispatch | components/EditorCanvas.tsx:335-342 | select, change and remove callbacks of a sticker reach the matching operation for its id |
| EditorCanvas.Editor.RequestRender | components/EditorCanvas.tsx:107-122 | a render starts iff none is in progress and a context exists; otherwise the canvas is untouched and the flag ends up clear unless already set; a started render sizes the canvas to the export resolution and snapshots background and stickers |
| EditorCanvas.Editor.FinishRender | components/EditorCanvas.tsx:124-240 | the canvas receives the export pass of the snapshot, and the flag is cleared on success and failure alike |
| EditorCanvas.KeptIdSurvives | components/EditorCanvas.tsx:59-62 | a selected id other than the removed one survives removal |
| EditorCanvas.PreviewSlot | components/EditorCanvas.tsx:313-322 | scaled from the preview surface up to the export surface, the preview slot is the export pass's clip of the same slot, and each of its edges sits at the slot's own fraction of the template canvas |
| EditorCanvas.PreviewSlotMatchesExport | components/EditorCanvas.tsx:313-322 | preview and export place every slot edge at the same fraction of the surface |
| EditorCanvas.StickerPlacementMatchesExport | components/EditorCanvas.tsx:205-208 | preview and export place a sticker centre at x and y percent of the surface |
| EditorCanvas.PreviewStickerIsTwiceExportSize | components/EditorCanvas.tsx:305-306 | relative to the surface, a preview sticker is twice the side of the exported one |
| Upload.Admitted | components/UploadPage.tsx:17-18 | a prefix of the files, as long as the remaining capacity allows, with a negative end counted from the back |
| Upload.SelectionStaysWithinCapacity | components/UploadPage.tsx:17-30 | from within capacity, the appended list stays within capacity, keeps the old photos first and adds a prefix of the selection |
| Upload.WithoutIndex | components/UploadPage.tsx:37-39 | exactly the element at the index is deleted, order kept; an out-of-range index changes nothing |
| Upload.Swap | components/UploadPage.tsx:46-48 | the two cells are exchanged and every other cell is kept |
| Upload.Moved | components/UploadPage.tsx:41-51 | a move exchanges the photo with its neighbour in the given direction and keeps every other photo, or keeps the list when that neighbour does not exist |
| Upload.MovedIsPermutation | components/UploadPage.tsx:41-51 | a move keeps the length and the multiset of photos |
| Upload.MoveDownThenUp | components/UploadPage.tsx:41-51 | moving down then back up restores the list |
| Upload.MovedPhoto | components/UploadPage.tsx:42-50 | the array copy with a swap through a temporary yields the moved list, or the list itself when the target is out of range |
| Upload.UploadPage.constructor | components/UploadPage.tsx:10 | the list starts empty |
| Upload.UploadPage.HandleFilesSelected | components/UploadPage.tsx:13-35 | no file list changes nothing; otherwise the admitted files are appended; the capacity bound is kept |
| Upload.UploadPage.HandleRemove | components/UploadPage.tsx:37-39 | the list becomes `WithoutIndex` |
| Upload.UploadPage.MovePhoto | components/UploadPage.tsx:41-51 | the list becomes `Moved`, a permutation |
| Upload.UploadPage.Continue | components/UploadPage.tsx:153-154 | the photos are handed on iff there are at least the minimum |
| Capture.ShotLabel | components/CapturePage.tsx:147 | the label is one past the kept count, never above the target |
| Capture.Progress | components/CapturePage.tsx:131 | the percentage is proportional to the kept count, at most 100 within target and exactly 100 iff the target is reached |
| Capture.KeepLabel | components/CapturePage.tsx:230 | the label is "FINISH & VIEW" iff the kept count is one short of the target, and "KEEP PHOTO" otherwise |
| Capture.CapturePage.constructor | components/CapturePage.tsx:12-14 | the existing photos, no preview |
| Capture.CapturePage.CanTakePhoto | components/CapturePage.tsx:189 | with no preview pending, the take-photo button is shown iff retake-last and continue are not; on a valid page it leaves room for the shot |
| Capture.CapturePage.CanFinish | components/CapturePage.tsx:201 | on a valid page, retake-last and continue are shown only with exactly the target number of photos |
| Capture.CapturePage.KeepLabelAnnouncesCompletion | components/CapturePage.tsx:113-123 | while a preview is pending on a valid page, the keep button reads "FINISH & VIEW" iff keeping completes the session |
| Capture.CapturePage.SyncExisting | components/CapturePage.tsx:68-70 | the photos are replaced by the owner's list |
| Capture.CapturePage.TakePhoto | components/CapturePage.tsx:101-107 | offered only with no preview and room left; the preview becomes the captured frame; the bound is kept |
| Capture.CapturePage.Retake | components/CapturePage.tsx:109-111 | the preview is cleared and the photos are unchanged |
| Capture.CapturePage.Keep | components/CapturePage.tsx:113-123 | nothing without a preview; otherwise it is appended and cleared, and completion is reported iff the target is reached |
| Capture.CapturePage.RetakeLast | components/CapturePage.tsx:125-129 | nothing on an empty list; otherwise exactly the last photo is dropped and the preview cleared |
| Capture.CapturePage.Continue | components/CapturePage.tsx:201-214 | offered only with the target reached; it hands on the photos |
| AppFlow.BackUndoesForward | App.tsx:55-127 | each back button returns to the screen whose forward step led here |
| AppFlow.Forward | App.tsx:55-127 | every screen but export has a forward step, which never leads to the landing page or to the same screen |
| AppFlow.Back | App.tsx:55-127 | every screen but the landing page has a back button, which never leads to export or to the same screen |
| AppFlow.CatalogIsDrawable | App.tsx:19-24 | every catalog template has 2 to 4 positive-size slots |
| AppFlow.App.constructor | App.tsx:27-32 | the session starts in the initial state |
| AppFlow.App.CaptureTarget | App.tsx:63 | the capture target is the template's slot count, between 2 and 4 |
| AppFlow.App.ExportImageUrl | App.tsx:118 | the final result, or the empty string |
| AppFlow.App.ResetApp | App.tsx:34-41 | the state equals the initial state |
| AppFlow.App.GoBack | App.tsx:65 | back buttons change only the screen |
| AppFlow.App.Start | App.tsx:58 | landing leads to theme selection |
| AppFlow.App.ThemeComplete | App.tsx:90-95 | the theme is stored and layout selection follows |
| AppFlow.App.LayoutComplete | App.tsx:78-83 | the template is stored, photos and stickers are cleared, capture follows |
| AppFlow.App.CaptureComplete | App.tsx:66-69 | the photos are stored, editing follows |
| AppFlow.App.StickersUpdate | App.tsx:106 | the editor's sticker list is stored |
| AppFlow.App.EditorComplete | App.tsx:108-111 | the data URL is stored as the result, export follows |
| AppFlow.App.ExportReset | App.tsx:121 | start over resets to the initial state |
| ExportNaming.ThemeSlug | components/ExportPage.tsx:15-30 | each slug is a non-empty lower-case word, never the "memoire" fallback |
| ExportNaming.ThemeSlugInjective | components/ExportPage.tsx:17-26 | distinct themes have distinct slugs |
| ExportNaming.NatToString | components/ExportPage.tsx:32 | a non-empty decimal numeral without leading zeros |
| ExportNaming.ParseNatToString | components/ExportPage.tsx:32 | reading the numeral back gives the number |
| ExportNaming.DownloadFileName | components/ExportPage.tsx:32 | "memoire-", then the slug, a dash and the timestamp, then ".jpg" |
| ExportNaming.FirstDashAfter | components/ExportPage.tsx:32 | the first dash after a dash-free slug is right after it |
| ExportNaming.DashSplit | components/ExportPage.tsx:32 | slug and timestamp are recovered from the dash-joined middle |
| ExportNaming.DownloadFileNameInjective | components/ExportPage.tsx:32 | the file name determines the theme and the timestamp |

## Left out

- Floating point: all arithmetic is exact real arithmetic. Rounding, NaN and Infinity are not modelled.
- Compositor.ExportPass and EditorCanvas.Editor.FinishRender require slots of positive size. The code makes no such demand; for a slot with a zero side it draws a degenerate rectangle. The model's exact division and the contract of `Geometry.CoverFit` need positive slot sides. Every catalog template meets the requirement (`AppFlow.CatalogIsDrawable`).
- Loaded images have positive natural sizes. An image that loads with a zero side would make the cover fit divide by zero.
- EditorCanvas.PreviewSlot, EditorCanvas.PreviewSlotMatchesExport, EditorCanvas.StickerPlacementMatchesExport and Transform.MovePatch take the preview surface to be `PreviewScale` times the canvas. They ignore the preview box's 4-pixel white border (`border-4`, components/EditorCanvas.tsx:303). Slots and stickers are positioned inside the border, against the padding box. The move gesture instead measures the parent's bounding box, border included (components/StickerTransform.tsx:43-44, 117-118). With border-box sizing, the padding box is 8 pixels narrower than the styled size, so preview fractions drift slightly from the export's: for the two-photo strip, slot 0's left edge sits at 0.1156 of the padding box against 0.1139 of the export canvas. With content-box sizing, a drag moves the sticker by 540/548 of the pointer's horizontal travel on that strip.
- Transform.Respond, Transform.MovePatch and Transform.StickerTransform.HandlePointerMove require a measured preview surface of positive size. The code divides by its size without checking.
- Capture.Progress requires a positive target. With a target of 0 the code computes Infinity or NaN.
- `Math.hypot` and `Math.atan2`: the pointer's distance from the sticker centre is an input, tied to the coordinates by squaring. The swept angle is an input in degrees, with the radian conversion left out.
- Photo loads run concurrently, in parallel. A failed export names the first failing photo by list position. When several photos fail, the rejection that actually surfaces is whichever fails first in time.
- The canvas primitives are not modelled: the rounded-rectangle path, saving and restoring state, translation and rotation. Each draw call records its geometry instead. JPEG encoding is not modelled either: a completed pass is what the editor hands on, and the data URL passed to `AppFlow.App.EditorComplete` is an input.
- One branch of the null-mode guard is not modelled: the component's own guard against a gesture with no mode. Every press starts a gesture with a mode, so that branch cannot be reached.
- Sticker ids come from `Math.random`. They are a fresh-id parameter, required not to be in the list.
- The clock (`Date.now`) is a timestamp parameter, written as a decimal numeral.
- These platform facilities are left out:
  - camera start and stop, and frame capture (a captured frame is an input);
  - `FileReader` (each picked file is its data URL);
  - debug telemetry requests;
  - body theme classes;
  - sharing, mail and opening windows;
  - flash timers;
  - the landing, theme, layout, pre-session and photo-selection components.
- Handlers are modelled in two ways:
  - Most are sequential and atomic (React state batching and stale closures are left out). In particular, the upload's remaining-capacity figure is computed before its asynchronous append.
  - The render is the exception: its continuation draws the background and stickers snapshotted at the request, which is what the component's closure does.
- The editor class holds the sticker list directly. In the component the list is a property owned by the top-level session and updated through a callback (`AppFlow.App.StickersUpdate`).
- The preview shows a photo only when its source is non-empty. The export attempts to load every listed photo. This difference is not modelled.
- Upload.UploadPage.MovePhoto requires the moved index to exist. The component offers move buttons only on existing photos. A target outside the list is still handled.
