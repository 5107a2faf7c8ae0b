/** The export geometry of the editor canvas: resolution scaling, the rounded-corner
    radius cap, cover fitting and percent-to-pixel sticker placement. */
module Geometry {
  import opened Types

  /** Export resolution multiplier over the template's reference resolution. */
  const ExportScale: real := 2.0
  /** Scale of the interactive preview surface. */
  const PreviewScale: real := 0.5
  /** Nominal slot corner radius at the reference resolution. */
  const SlotBorderRadius: real := 40.0
  /** Side of a sticker image at scale 1, in reference pixels. */
  const StickerBaseSize: real := 80.0

  function Min(a: real, b: real): real { if a <= b then a else b }
  function Max(a: real, b: real): real { if a >= b then a else b }

  /** `r` lies inside `outer` (edges may touch). */
  predicate Contains(outer: Rect, r: Rect) {
    outer.x <= r.x && r.x + r.width <= outer.x + outer.width &&
    outer.y <= r.y && r.y + r.height <= outer.y + outer.height
  }

  /** A rectangle in reference coordinates mapped to a surface `k` times as large. */
  function ScaleRect(r: Rect, k: real): (s: Rect)
    requires k > 0.0
    ensures s.x == k * r.x && s.y == k * r.y
    ensures s.width == k * r.width && s.height == k * r.height
  {
    Rect(k * r.x, k * r.y, k * r.width, k * r.height)
  }

  /** Scaling preserves relative placement: every edge of a slot sits at the same
      fraction of the surface at preview scale and at export scale. */
  lemma ScalingPreservesProportion(r: Rect, canvasWidth: real, canvasHeight: real, k: real)
    requires k > 0.0 && canvasWidth > 0.0 && canvasHeight > 0.0
    ensures ScaleRect(r, k).x / (k * canvasWidth) == r.x / canvasWidth
    ensures ScaleRect(r, k).y / (k * canvasHeight) == r.y / canvasHeight
    ensures ScaleRect(r, k).width / (k * canvasWidth) == r.width / canvasWidth
    ensures ScaleRect(r, k).height / (k * canvasHeight) == r.height / canvasHeight
  {
    CancelFactor(r.x, canvasWidth, k);
    CancelFactor(r.y, canvasHeight, k);
    CancelFactor(r.width, canvasWidth, k);
    CancelFactor(r.height, canvasHeight, k);
  }

  lemma CancelFactor(a: real, b: real, k: real)
    requires b > 0.0 && k > 0.0
    ensures (k * a) / (k * b) == a / b
  {
    var q := a / b;
    assert a == q * b;
    assert k * a == q * (k * b);
  }

  /** The clip radius of a slot of export size `sw` x `sh`: the nominal radius at export
      scale, capped at half of each side. */
  function CornerRadius(sw: real, sh: real): (r: real)
    ensures r <= SlotBorderRadius * ExportScale && r <= sw / 2.0 && r <= sh / 2.0
    ensures r == SlotBorderRadius * ExportScale || r == sw / 2.0 || r == sh / 2.0
    ensures r == 80.0 <==> sw >= 160.0 && sh >= 160.0
  {
    Min(Min(SlotBorderRadius * ExportScale, sw / 2.0), sh / 2.0)
  }

  /** The rectangle an image of `imgW` x `imgH` is drawn into so that it covers the slot
      `slot` without distortion: it matches the slot on one axis and overflows it, centred,
      on the other. */
  function CoverFit(imgW: Extent, imgH: Extent, slot: Rect): (d: Rect)
    requires slot.width > 0.0 && slot.height > 0.0
    ensures Contains(d, slot)
    ensures d.width * imgH == d.height * imgW
    ensures (d.height == slot.height && d.y == slot.y &&
             slot.x - d.x == (d.x + d.width) - (slot.x + slot.width))
         || (d.width == slot.width && d.x == slot.x &&
             slot.y - d.y == (d.y + d.height) - (slot.y + slot.height))
  {
    var imgRatio := imgW / imgH;
    var slotRatio := slot.width / slot.height;
    if imgRatio > slotRatio then
      var drawH := slot.height;
      var drawW := drawH * imgRatio;
      WiderCovers(imgW, imgH, slot.width, slot.height);
      Rect(slot.x + (slot.width - drawW) / 2.0, slot.y, drawW, drawH)
    else
      var drawW := slot.width;
      var drawH := drawW / imgRatio;
      TallerCovers(imgW, imgH, slot.width, slot.height);
      Rect(slot.x, slot.y + (slot.height - drawH) / 2.0, drawW, drawH)
  }

  /** A 1600 x 900 image in a 400 x 400 slot is fitted to the slot's height, 6400/9 (about
      711) wide, with 1400/9 (about 155.6) cropped off each side. */
  lemma CoverFitLandscapeInSquare()
    ensures CoverFit(1600.0, 900.0, Rect(0.0, 0.0, 400.0, 400.0)) ==
            Rect(-1400.0 / 9.0, 0.0, 6400.0 / 9.0, 400.0)
  {
  }

  /** An image relatively wider than the slot, scaled to the slot's height, is at least as wide. */
  lemma WiderCovers(iw: real, ih: real, w: real, h: real)
    requires iw > 0.0 && ih > 0.0 && w > 0.0 && h > 0.0
    requires iw / ih > w / h
    ensures h * (iw / ih) >= w
    ensures h * (iw / ih) * ih == h * iw
  {
    var a := iw / ih;
    var b := w / h;
    assert w == b * h;
    assert h * a > h * b;
    assert iw == a * ih;
  }

  /** An image relatively taller than the slot, scaled to the slot's width, is at least as tall. */
  lemma TallerCovers(iw: real, ih: real, w: real, h: real)
    requires iw > 0.0 && ih > 0.0 && w > 0.0 && h > 0.0
    requires iw / ih <= w / h
    ensures w / (iw / ih) >= h
    ensures w * ih == w / (iw / ih) * iw
  {
    var a := iw / ih;
    var b := w / h;
    assert a > 0.0;
    assert w == b * h;
    assert iw == a * ih;
    var q := w / a;
    assert w == q * a;
    assert q * a >= h * a by { assert b * h >= a * h; }
    assert q >= h;
    assert w * ih == q * a * ih == q * iw;
  }

  /** The point a sticker's centre is drawn at on a surface of `width` x `height`. */
  function StickerCentre(x: real, y: real, width: real, height: real): (c: (real, real))
    ensures width > 0.0 ==> c.0 / width == x / 100.0
    ensures height > 0.0 ==> c.1 / height == y / 100.0
  {
    var cx := (x / 100.0) * width;
    var cy := (y / 100.0) * height;
    assert width > 0.0 ==> cx / width == x / 100.0;
    assert height > 0.0 ==> cy / height == y / 100.0;
    (cx, cy)
  }

  /** Side of a sticker at export scale. */
  function StickerExportSize(scale: real): (size: real)
    ensures scale > 0.0 ==> size > 0.0
    ensures size / ExportScale == StickerBaseSize * scale
  {
    StickerBaseSize * scale * ExportScale
  }
}
