/** Direct manipulation of one sticker on the preview: a pointer press on the sticker body
    starts a move, on a corner handle a scale, on the top handle a rotation. Each pointer move
    of the same pointer emits a patch for the sticker; pointer up or cancel ends the gesture.
    Pointer geometry (client coordinates, bounding rectangles) arrives as inputs; the
    Euclidean distance and the angle swept, which the component computes with the platform's
    `hypot` and `atan2`, are inputs tied to those coordinates by the preconditions. */
module Transform {
  import opened Types
  import opened Stickers

  datatype Mode = Move | Scale | Rotate

  datatype PointerEvent = PointerEvent(pointerId: int, clientX: real, clientY: real)

  /** What the component reports to its owner. */
  datatype Callback = OnSelect | OnChange(patch: Patch) | OnRemove

  /** The state of a gesture in progress, captured when the pointer went down. */
  datatype Interaction = Interaction(
    mode: Mode,
    pointerId: int,
    startClientX: real,
    startClientY: real,
    startX: real,
    startY: real,
    startScale: real,
    startRotation: real,
    centerClientX: real,
    centerClientY: real,
    startRadius: Extent)

  const MinScale: real := 0.2
  const MaxScale: real := 4.0

  function CenterX(r: Rect): real { r.x + r.width / 2.0 }
  function CenterY(r: Rect): real { r.y + r.height / 2.0 }

  /** `d` is the Euclidean distance from (`cx`, `cy`) to (`px`, `py`). */
  predicate IsDistance(d: real, px: real, py: real, cx: real, cy: real) {
    d >= 0.0 && d * d == (px - cx) * (px - cx) + (py - cy) * (py - cy)
  }

  /** A distance with zero replaced by one, so it can divide. */
  function RadiusOrOne(d: real): (r: Extent)
    requires d >= 0.0
    ensures d > 0.0 ==> r == d
    ensures d == 0.0 ==> r == 1.0
  {
    if d > 0.0 then d else 1.0
  }

  /** A gesture begins when both the preview surface and the sticker's own box can be
      measured; it snapshots the sticker and the pointer's distance from the box centre.
      `distance` is that distance. */
  function Begin(s: StickerInstance, e: PointerEvent, mode: Mode,
                 previewRect: Option<Rect>, selfRect: Option<Rect>, distance: real): (r: Option<Interaction>)
    requires selfRect.Some? ==>
      IsDistance(distance, e.clientX, e.clientY, CenterX(selfRect.value), CenterY(selfRect.value))
    ensures r.Some? <==> previewRect.Some? && selfRect.Some?
    ensures r.Some? ==>
      r.value.mode == mode && r.value.pointerId == e.pointerId &&
      r.value.startClientX == e.clientX && r.value.startClientY == e.clientY &&
      r.value.startX == s.x && r.value.startY == s.y &&
      r.value.startScale == s.scale && r.value.startRotation == s.rotation &&
      r.value.centerClientX == CenterX(selfRect.value) &&
      r.value.centerClientY == CenterY(selfRect.value) &&
      IsDistance(distance, e.clientX, e.clientY, r.value.centerClientX, r.value.centerClientY) &&
      (distance > 0.0 ==> r.value.startRadius == distance) &&
      (distance == 0.0 ==> r.value.startRadius == 1.0)
  {
    if previewRect.None? || selfRect.None? then None
    else
      var box := selfRect.value;
      Some(Interaction(mode, e.pointerId, e.clientX, e.clientY, s.x, s.y, s.scale, s.rotation,
                       CenterX(box), CenterY(box), RadiusOrOne(distance)))
  }

  /** A move places the sticker's centre where the pointer's displacement from the press
      point, measured in percent of the preview surface, takes it. */
  function MovePatch(it: Interaction, e: PointerEvent, surface: Rect): (p: Patch)
    requires surface.width > 0.0 && surface.height > 0.0
    ensures p.id.None? && p.src.None? && p.rotation.None? && p.scale.None?
    ensures p.x.Some? && p.y.Some?
    ensures (p.x.value - it.startX) * surface.width / 100.0 == e.clientX - it.startClientX
    ensures (p.y.value - it.startY) * surface.height / 100.0 == e.clientY - it.startClientY
  {
    var dxPercent := ((e.clientX - it.startClientX) / surface.width) * 100.0;
    var dyPercent := ((e.clientY - it.startClientY) / surface.height) * 100.0;
    Patch(None, None, Some(it.startX + dxPercent), Some(it.startY + dyPercent), None, None)
  }

  /** The scale after stretching the pointer's distance from the centre from `startRadius`
      to `radius`: proportional to the stretch, clamped to [0.2, 4]. */
  function ScaledValue(startScale: real, startRadius: Extent, radius: Extent): (v: real)
    ensures MinScale <= v <= MaxScale
    ensures startScale * radius >= MaxScale * startRadius ==> v == MaxScale
    ensures startScale * radius <= MinScale * startRadius ==> v == MinScale
    ensures MinScale * startRadius <= startScale * radius <= MaxScale * startRadius ==>
      v * startRadius == startScale * radius
  {
    var factor := radius / startRadius;
    var proportional := startScale * factor;
    assert proportional * startRadius == startScale * radius;
    if proportional > MaxScale then MaxScale
    else if proportional < MinScale then MinScale
    else proportional
  }

  /** The patch a pointer move produces, or None when the move is ignored: no gesture, a
      different pointer, or a preview surface that cannot be measured. `distance` is the
      pointer's distance from the captured centre and `angleDelta` the angle in degrees it has
      swept around that centre since the press. */
  function Respond(it: Option<Interaction>, e: PointerEvent, previewRect: Option<Rect>,
                   distance: real, angleDelta: real): (p: Option<Patch>)
    requires it.Some? ==>
      IsDistance(distance, e.clientX, e.clientY, it.value.centerClientX, it.value.centerClientY)
    requires previewRect.Some? ==> previewRect.value.width > 0.0 && previewRect.value.height > 0.0
    ensures p.Some? <==> it.Some? && it.value.pointerId == e.pointerId && previewRect.Some?
    ensures p.Some? && it.value.mode == Move ==> p.value == MovePatch(it.value, e, previewRect.value)
    ensures p.Some? && it.value.mode == Scale ==>
      p.value == Patch(None, None, None, None, None,
        Some(ScaledValue(it.value.startScale, it.value.startRadius, RadiusOrOne(distance))))
    ensures p.Some? && it.value.mode == Rotate ==>
      p.value == Patch(None, None, None, None, Some(it.value.startRotation + angleDelta), None)
  {
    if it.None? || it.value.pointerId != e.pointerId then None
    else if previewRect.None? then None
    else
      var g := it.value;
      match g.mode
      case Move => Some(MovePatch(g, e, previewRect.value))
      case Scale => Some(Patch(None, None, None, None, None,
                        Some(ScaledValue(g.startScale, g.startRadius, RadiusOrOne(distance)))))
      case Rotate => Some(Patch(None, None, None, None, Some(g.startRotation + angleDelta), None))
  }

  /** A move that returns to the press point puts the sticker back where it started, however
      far it travelled in between. */
  lemma MoveBackRestores(it: Interaction, e: PointerEvent, surface: Rect, s: StickerInstance)
    requires surface.width > 0.0 && surface.height > 0.0
    requires e.clientX == it.startClientX && e.clientY == it.startClientY
    requires s.x == it.startX && s.y == it.startY
    ensures Merge(s, MovePatch(it, e, surface)) == s
  {
  }

  /** Pressing and moving without displacement, stretch or turn leaves the sticker as it was,
      provided its scale is within the clamp range. */
  lemma StillGestureIsIdentity(s: StickerInstance, e: PointerEvent, mode: Mode,
                               previewRect: Rect, selfRect: Rect, distance: real)
    requires previewRect.width > 0.0 && previewRect.height > 0.0
    requires IsDistance(distance, e.clientX, e.clientY, CenterX(selfRect), CenterY(selfRect))
    requires MinScale <= s.scale <= MaxScale
    ensures var it := Begin(s, e, mode, Some(previewRect), Some(selfRect), distance);
      var p := Respond(it, e, Some(previewRect), distance, 0.0);
      p.Some? && Merge(s, p.value) == s
  {
    var it := Begin(s, e, mode, Some(previewRect), Some(selfRect), distance).value;
    var r := RadiusOrOne(distance);
    assert it.startRadius == r;
    var v := ScaledValue(s.scale, r, r);
    assert v * r == s.scale * r;
  }

  /** Dragging a scale handle to a hundred times its starting distance saturates at the
      maximum scale, from any starting scale of at least 0.04. */
  lemma FarDragSaturates(it: Interaction, e: PointerEvent, previewRect: Rect, distance: real)
    requires it.mode == Scale && it.pointerId == e.pointerId
    requires previewRect.width > 0.0 && previewRect.height > 0.0
    requires IsDistance(distance, e.clientX, e.clientY, it.centerClientX, it.centerClientY)
    requires distance == 100.0 * it.startRadius && it.startScale >= 0.04
    ensures Respond(Some(it), e, Some(previewRect), distance, 0.0).value.scale == Some(MaxScale)
  {
    var r: real := it.startRadius;
    assert it.startScale * r >= 0.04 * r;
    assert it.startScale * distance == 100.0 * (it.startScale * r);
    assert RadiusOrOne(distance) == distance;
  }

  /** Dragging a scale handle onto the centre shrinks to the minimum scale from any starting
      scale up to 0.2 times the starting distance. */
  lemma CentreDragFloors(it: Interaction, e: PointerEvent, previewRect: Rect)
    requires it.mode == Scale && it.pointerId == e.pointerId
    requires previewRect.width > 0.0 && previewRect.height > 0.0
    requires e.clientX == it.centerClientX && e.clientY == it.centerClientY
    requires it.startScale <= MinScale * it.startRadius
    ensures Respond(Some(it), e, Some(previewRect), 0.0, 0.0).value.scale == Some(MinScale)
  {
  }

  /** One sticker's manipulation handles: the sticker they show, whether it is the selected
      one, the gesture in progress and the pointer the element has captured. */
  class StickerTransform {
    var sticker: StickerInstance
    var isSelected: bool
    var interaction: Option<Interaction>
    var captured: Option<int>

    constructor(sticker: StickerInstance, isSelected: bool)
      ensures this.sticker == sticker && this.isSelected == isSelected
      ensures interaction.None? && captured.None?
    {
      this.sticker := sticker;
      this.isSelected := isSelected;
      interaction := None;
      captured := None;
    }

    /** The owner re-renders the component with new properties. */
    method SetProps(s: StickerInstance, selected: bool)
      modifies this
      ensures sticker == s && isSelected == selected
      ensures interaction == old(interaction) && captured == old(captured)
    {
      sticker := s;
      isSelected := selected;
    }

    /** A press on the body (move) or, when selected, on a handle (scale, rotate). The
        sticker is always reported selected; the gesture starts and the pointer is captured
        only if both boxes can be measured. */
    method StartInteraction(e: PointerEvent, mode: Mode, previewRect: Option<Rect>,
                            selfRect: Option<Rect>, distance: real) returns (fired: seq<Callback>)
      requires mode != Move ==> isSelected
      requires selfRect.Some? ==>
        IsDistance(distance, e.clientX, e.clientY, CenterX(selfRect.value), CenterY(selfRect.value))
      modifies this
      ensures fired == [OnSelect]
      ensures sticker == old(sticker) && isSelected == old(isSelected)
      ensures previewRect.Some? && selfRect.Some? ==>
        interaction == Begin(old(sticker), e, mode, previewRect, selfRect, distance) &&
        captured == Some(e.pointerId)
      ensures previewRect.None? || selfRect.None? ==>
        interaction == old(interaction) && captured == old(captured)
    {
      fired := [OnSelect];
      var next := Begin(sticker, e, mode, previewRect, selfRect, distance);
      if next.Some? {
        interaction := next;
        captured := Some(e.pointerId);
      }
    }

    /** A pointer move: at most one change report, and nothing about the component changes. */
    method HandlePointerMove(e: PointerEvent, previewRect: Option<Rect>, distance: real,
                             angleDelta: real) returns (fired: seq<Callback>)
      requires interaction.Some? ==>
        IsDistance(distance, e.clientX, e.clientY,
                   interaction.value.centerClientX, interaction.value.centerClientY)
      requires previewRect.Some? ==> previewRect.value.width > 0.0 && previewRect.value.height > 0.0
      ensures |fired| <= 1
      ensures |fired| == 1 <==>
        interaction.Some? && interaction.value.pointerId == e.pointerId && previewRect.Some?
      ensures |fired| == 1 ==>
        fired[0] == OnChange(Respond(interaction, e, previewRect, distance, angleDelta).value)
    {
      var p := Respond(interaction, e, previewRect, distance, angleDelta);
      fired := if p.Some? then [OnChange(p.value)] else [];
    }

    /** Pointer up or cancel: the gesture ends whichever pointer it was; the capture is
        released only for the gesture's own pointer. */
    method EndInteraction(e: PointerEvent) returns (released: bool)
      modifies this
      ensures released <==> old(interaction).Some? && old(interaction).value.pointerId == e.pointerId
      ensures interaction.None?
      ensures captured == if released then None else old(captured)
      ensures sticker == old(sticker) && isSelected == old(isSelected)
    {
      released := interaction.Some? && interaction.value.pointerId == e.pointerId;
      if released {
        captured := None;
      }
      interaction := None;
    }

    /** A press on the remove button, which only a selected sticker shows. */
    method PressRemove() returns (fired: seq<Callback>)
      requires isSelected
      ensures fired == [OnRemove]
    {
      fired := [OnRemove];
    }
  }
}
