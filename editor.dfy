/** The editing screen: the selected photos in the chosen template, a background variant of
    the chosen theme, the sticker list with its selection, and the export render guarded by a
    processing flag. The render is asynchronous in the component; here it is a request, which
    checks the guard, sets the flag, sizes the canvas and snapshots what it will draw, and a
    continuation, which draws and clears the flag. */
module EditorCanvas {
  import opened Types
  import opened Geometry
  import opened Stickers
  import opened Compositor
  import opened Transform

  datatype FrameVariant = Main | Alt

  /** Side of a sticker image on the preview at scale 1, in preview pixels. */
  const PreviewStickerSize: real := 80.0

  class Editor {
    const selectedPhotos: seq<string>
    const template: Template
    const themeConfig: ThemeConfig
    var stickers: seq<StickerInstance>
    var selectedStickerId: Option<string>
    var frameVariant: FrameVariant
    var isProcessing: bool
    /** The export canvas: its size and what has been drawn on it since it was last sized. */
    var canvasWidth: real
    var canvasHeight: real
    var canvas: seq<DrawOp>
    /** What a started render draws: the background and stickers at the time it was requested. */
    var pendingBackground: string
    var pendingStickers: seq<StickerInstance>

    /** Sticker ids are unique and the selection, if any, names a sticker on the canvas. */
    predicate Valid()
      reads this
    {
      UniqueIds(stickers) &&
      (selectedStickerId.Some? ==> selectedStickerId.value in Ids(stickers))
    }

    constructor(selectedPhotos: seq<string>, template: Template, theme: ThemeKey,
                stickers: seq<StickerInstance>)
      ensures this.selectedPhotos == selectedPhotos && this.template == template
      ensures themeConfig == Themes(theme) && this.stickers == stickers
      ensures selectedStickerId.None? && frameVariant == Main && !isProcessing
      ensures canvasWidth == 300.0 && canvasHeight == 150.0 && canvas == []
      ensures UniqueIds(stickers) ==> Valid()
    {
      this.selectedPhotos := selectedPhotos;
      this.template := template;
      themeConfig := Themes(theme);
      this.stickers := stickers;
      selectedStickerId := None;
      frameVariant := Main;
      isProcessing := false;
      canvasWidth, canvasHeight := 300.0, 150.0;
      canvas := [];
      pendingBackground := "";
      pendingStickers := [];
    }

    /** The background drawn behind the photos: the theme's main or alternate image. */
    function ActiveBackgroundUrl(): (url: string)
      reads this
      ensures frameVariant == Main ==> url == themeConfig.backgroundMainUrl
      ensures frameVariant == Alt ==> url == themeConfig.backgroundAltUrl
    {
      match frameVariant
      case Main => themeConfig.backgroundMainUrl
      case Alt => themeConfig.backgroundAltUrl
    }

    method SetFrameVariant(v: FrameVariant)
      modifies this
      ensures frameVariant == v
      ensures stickers == old(stickers) && selectedStickerId == old(selectedStickerId)
      ensures isProcessing == old(isProcessing) && canvas == old(canvas)
      ensures canvasWidth == old(canvasWidth) && canvasHeight == old(canvasHeight)
      ensures pendingBackground == old(pendingBackground) && pendingStickers == old(pendingStickers)
    {
      frameVariant := v;
    }

    /** A palette pick: a new sticker at the centre, on top of the others, and selected. */
    method AddSticker(src: string, freshId: string)
      requires freshId !in Ids(stickers)
      modifies this
      ensures stickers == Add(old(stickers), src, freshId)
      ensures selectedStickerId == Some(freshId)
      ensures frameVariant == old(frameVariant) && isProcessing == old(isProcessing)
      ensures canvas == old(canvas)
      ensures canvasWidth == old(canvasWidth) && canvasHeight == old(canvasHeight)
      ensures pendingBackground == old(pendingBackground) && pendingStickers == old(pendingStickers)
      ensures old(Valid()) ==> Valid()
    {
      stickers := Add(stickers, src, freshId);
      selectedStickerId := Some(freshId);
    }

    /** A gesture's patch applied to the sticker `id`. */
    method UpdateSticker(id: string, patch: Patch)
      modifies this
      ensures stickers == Update(old(stickers), id, patch)
      ensures selectedStickerId == old(selectedStickerId)
      ensures frameVariant == old(frameVariant) && isProcessing == old(isProcessing)
      ensures canvas == old(canvas)
      ensures canvasWidth == old(canvasWidth) && canvasHeight == old(canvasHeight)
      ensures pendingBackground == old(pendingBackground) && pendingStickers == old(pendingStickers)
      ensures old(Valid()) && patch.id.None? ==> Valid()
    {
      if patch.id.None? {
        UpdateKeepsIds(stickers, id, patch);
      }
      stickers := Update(stickers, id, patch);
    }

    /** The sticker `id` deleted; the selection is cleared if it was that sticker. */
    method RemoveSticker(id: string)
      modifies this
      ensures stickers == Remove(old(stickers), id)
      ensures selectedStickerId == SelectionAfterRemove(old(selectedStickerId), id)
      ensures frameVariant == old(frameVariant) && isProcessing == old(isProcessing)
      ensures canvas == old(canvas)
      ensures canvasWidth == old(canvasWidth) && canvasHeight == old(canvasHeight)
      ensures pendingBackground == old(pendingBackground) && pendingStickers == old(pendingStickers)
      ensures old(Valid()) ==> Valid()
    {
      if Valid() {
        RemoveKeepsUnique(stickers, id);
        if selectedStickerId.Some? && selectedStickerId.value != id {
          KeptIdSurvives(stickers, id, selectedStickerId.value);
        }
      }
      stickers := Remove(stickers, id);
      selectedStickerId := SelectionAfterRemove(selectedStickerId, id);
    }

    /** A callback from the manipulation handles of the sticker `id`. */
    method Dispatch(id: string, cb: Callback)
      requires id in Ids(stickers)
      modifies this
      ensures cb == OnSelect ==> stickers == old(stickers) && selectedStickerId == Some(id)
      ensures cb.OnChange? ==>
        stickers == Update(old(stickers), id, cb.patch) && selectedStickerId == old(selectedStickerId)
      ensures cb == OnRemove ==>
        stickers == Remove(old(stickers), id) &&
        selectedStickerId == SelectionAfterRemove(old(selectedStickerId), id)
      ensures frameVariant == old(frameVariant) && isProcessing == old(isProcessing)
      ensures canvas == old(canvas)
      ensures canvasWidth == old(canvasWidth) && canvasHeight == old(canvasHeight)
      ensures pendingBackground == old(pendingBackground) && pendingStickers == old(pendingStickers)
      ensures old(Valid()) && (cb.OnChange? ==> cb.patch.id.None?) ==> Valid()
    {
      match cb
      case OnSelect => selectedStickerId := Some(id);
      case OnChange(p) => UpdateSticker(id, p);
      case OnRemove => RemoveSticker(id);
    }

    /** The export button. A render already in progress ignores it. Otherwise the flag is set;
        without a drawing context it is cleared again and nothing else happens; with one the
        canvas is resized to the export resolution (which clears it) and the current
        background and stickers are taken for drawing. */
    method RequestRender(hasContext: bool) returns (started: bool)
      modifies this
      ensures started <==> !old(isProcessing) && hasContext
      ensures isProcessing == (old(isProcessing) || hasContext)
      ensures started ==>
        canvasWidth == template.canvasWidth * ExportScale &&
        canvasHeight == template.canvasHeight * ExportScale && canvas == [] &&
        pendingBackground == old(ActiveBackgroundUrl()) && pendingStickers == old(stickers)
      ensures !started ==>
        canvasWidth == old(canvasWidth) && canvasHeight == old(canvasHeight) &&
        canvas == old(canvas) &&
        pendingBackground == old(pendingBackground) && pendingStickers == old(pendingStickers)
      ensures stickers == old(stickers) && selectedStickerId == old(selectedStickerId)
      ensures frameVariant == old(frameVariant)
    {
      if isProcessing {
        return false;
      }
      isProcessing := true;
      if !hasContext {
        isProcessing := false;
        return false;
      }
      canvasWidth := template.canvasWidth * ExportScale;
      canvasHeight := template.canvasHeight * ExportScale;
      canvas := [];
      pendingBackground := ActiveBackgroundUrl();
      pendingStickers := stickers;
      started := true;
    }

    /** The continuation of a started render: the export pass drawn onto the canvas. The
        flag is cleared whether the pass completes or a load fails; a completed pass is what
        the screen hands on as the finished strip. */
    method FinishRender(load: string -> Load) returns (r: ExportResult)
      requires isProcessing && PositiveSlots(template)
      modifies this
      ensures r == ExportPass(template, old(pendingBackground), selectedPhotos, old(pendingStickers), load)
      ensures canvas == r.log && !isProcessing
      ensures canvasWidth == old(canvasWidth) && canvasHeight == old(canvasHeight)
      ensures stickers == old(stickers) && selectedStickerId == old(selectedStickerId)
      ensures frameVariant == old(frameVariant)
      ensures pendingBackground == old(pendingBackground) && pendingStickers == old(pendingStickers)
    {
      r := Composite(template, pendingBackground, selectedPhotos, pendingStickers, load);
      canvas := r.log;
      isProcessing := false;
    }
  }

  /** A selected id other than the removed one still names a sticker after removal. */
  lemma KeptIdSurvives(stickers: seq<StickerInstance>, id: string, kept: string)
    requires kept in Ids(stickers) && kept != id
    ensures kept in Ids(Remove(stickers, id))
  {
    var k :| 0 <= k < |stickers| && Ids(stickers)[k] == kept;
    assert stickers[k] in stickers;
    var r := Remove(stickers, id);
    var m :| 0 <= m < |r| && r[m] == stickers[k];
    assert Ids(r)[m] == kept;
  }

  /** Where slot `i` is shown on the preview surface: the export pass's clip of the same slot,
      brought down from the export surface to the preview surface, so that each edge sits at
      the slot's own fraction of the template canvas. */
  function PreviewSlot(t: Template, i: nat): (r: Rect)
    requires i < |t.slotDefinitions|
    ensures ScaleRect(r, ExportScale / PreviewScale) == ScaleRect(t.slotDefinitions[i], ExportScale)
    ensures t.canvasWidth > 0.0 ==>
      r.x / (PreviewScale * t.canvasWidth) == t.slotDefinitions[i].x / t.canvasWidth &&
      r.width / (PreviewScale * t.canvasWidth) == t.slotDefinitions[i].width / t.canvasWidth
    ensures t.canvasHeight > 0.0 ==>
      r.y / (PreviewScale * t.canvasHeight) == t.slotDefinitions[i].y / t.canvasHeight &&
      r.height / (PreviewScale * t.canvasHeight) == t.slotDefinitions[i].height / t.canvasHeight
  {
    ScaleRect(t.slotDefinitions[i], PreviewScale)
  }

  /** The preview and the export place every slot edge at the same fraction of the surface. */
  lemma PreviewSlotMatchesExport(t: Template, i: nat)
    requires i < |t.slotDefinitions| && t.canvasWidth > 0.0 && t.canvasHeight > 0.0
    ensures var p, e, s := PreviewSlot(t, i), ScaleRect(t.slotDefinitions[i], ExportScale), t.slotDefinitions[i];
      p.x / (PreviewScale * t.canvasWidth) == e.x / (ExportScale * t.canvasWidth) == s.x / t.canvasWidth &&
      p.y / (PreviewScale * t.canvasHeight) == e.y / (ExportScale * t.canvasHeight) == s.y / t.canvasHeight &&
      p.width / (PreviewScale * t.canvasWidth) == e.width / (ExportScale * t.canvasWidth) &&
      p.height / (PreviewScale * t.canvasHeight) == e.height / (ExportScale * t.canvasHeight)
  {
    ScalingPreservesProportion(t.slotDefinitions[i], t.canvasWidth, t.canvasHeight, PreviewScale);
    ScalingPreservesProportion(t.slotDefinitions[i], t.canvasWidth, t.canvasHeight, ExportScale);
  }

  /** A sticker's centre sits at the same fraction of the surface on the preview (percent
      placement in the surface's box) and in the export. */
  lemma StickerPlacementMatchesExport(t: Template, s: StickerInstance)
    requires t.canvasWidth > 0.0 && t.canvasHeight > 0.0
    ensures var pw, ph := PreviewScale * t.canvasWidth, PreviewScale * t.canvasHeight;
      var op := StickerOp(s, ExportWidth(t), ExportHeight(t));
      StickerCentre(s.x, s.y, pw, ph).0 / pw == op.centerX / ExportWidth(t) == s.x / 100.0 &&
      StickerCentre(s.x, s.y, pw, ph).1 / ph == op.centerY / ExportHeight(t) == s.y / 100.0
  {
  }

  /** The preview shows a sticker at 80 preview pixels per unit of scale on a surface half
      the template's size, while the export draws it at 80 reference pixels per unit of scale
      on a surface twice that size: relative to the surface, the preview image is twice the
      side of the exported one. */
  lemma PreviewStickerIsTwiceExportSize(t: Template, s: StickerInstance)
    requires t.canvasWidth > 0.0 && s.scale > 0.0
    ensures var preview := PreviewStickerSize * s.scale / (PreviewScale * t.canvasWidth);
      var exported := StickerOp(s, ExportWidth(t), ExportHeight(t)).size / ExportWidth(t);
      preview == 2.0 * exported
  {
    var w := t.canvasWidth;
    assert StickerOp(s, ExportWidth(t), ExportHeight(t)).size == 160.0 * s.scale;
    assert (80.0 * s.scale) / (0.5 * w) == 160.0 * s.scale / w;
    assert (160.0 * s.scale) / (2.0 * w) == 80.0 * s.scale / w;
  }
}
