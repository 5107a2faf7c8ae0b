/** The export render as a draw log: background, then each slot that has a photo, then the
    stickers in list order, then the frame overlay. Image loads are an abstract per-resource
    outcome; a failed load aborts the pass before anything else is drawn. */
module Compositor {
  import opened Types
  import opened Geometry

  /** The outcome of loading one image resource: its natural size, or an error. */
  datatype Load = Loaded(width: Extent, height: Extent) | LoadError

  /** One drawing call on the export canvas, with the geometry it was given. */
  datatype DrawOp =
    | DrawBackground(src: string, width: real, height: real)
    | DrawPhoto(slot: nat, src: string, clip: Rect, radius: real, dest: Rect)
    | DrawSticker(id: string, src: string, centerX: real, centerY: real, rotation: real, size: real)
    | DrawFrame(src: string, width: real, height: real)

  /** A finished pass hands its drawing on; a failed one names the resource that did not load
      and keeps what had been drawn before it. */
  datatype ExportResult =
    | Exported(log: seq<DrawOp>)
    | RenderFailed(log: seq<DrawOp>, resource: string)

  /** The z-order layer of a drawing call. */
  function Layer(op: DrawOp): nat {
    match op
    case DrawBackground(_, _, _) => 0
    case DrawPhoto(_, _, _, _, _) => 1
    case DrawSticker(_, _, _, _, _, _) => 2
    case DrawFrame(_, _, _) => 3
  }

  /** No call is drawn after a call of a higher layer. */
  predicate Layered(log: seq<DrawOp>) {
    forall i, j :: 0 <= i < j < |log| ==> Layer(log[i]) <= Layer(log[j])
  }

  predicate PositiveSlots(t: Template) {
    forall i :: 0 <= i < |t.slotDefinitions| ==>
      t.slotDefinitions[i].width > 0.0 && t.slotDefinitions[i].height > 0.0
  }

  predicate AllLoaded(urls: seq<string>, load: string -> Load) {
    forall i :: 0 <= i < |urls| ==> load(urls[i]).Loaded?
  }

  function MinNat(a: nat, b: nat): nat { if a <= b then a else b }

  /** The index of the first resource that fails to load, or the length when all load. */
  function FirstFailure(urls: seq<string>, load: string -> Load): (k: nat)
    ensures k <= |urls|
    ensures forall i :: 0 <= i < k ==> load(urls[i]).Loaded?
    ensures k < |urls| ==> load(urls[k]).LoadError?
  {
    if urls == [] then 0
    else if load(urls[0]).LoadError? then 0
    else 1 + FirstFailure(urls[1..], load)
  }

  /** The first failure is the only index whose predecessors all load and that itself fails. */
  lemma FirstFailureUnique(urls: seq<string>, load: string -> Load, k: nat)
    requires k <= |urls|
    requires forall i :: 0 <= i < k ==> load(urls[i]).Loaded?
    requires k < |urls| ==> load(urls[k]).LoadError?
    ensures FirstFailure(urls, load) == k
  {
  }

  function Sources(stickers: seq<StickerInstance>): (srcs: seq<string>)
    ensures |srcs| == |stickers|
    ensures forall i :: 0 <= i < |stickers| ==> srcs[i] == stickers[i].src
  {
    seq(|stickers|, i requires 0 <= i < |stickers| => stickers[i].src)
  }

  /** The drawing of photo `i` into slot `i`: clipped to the slot at export scale with the
      capped corner radius, cover-fitted. */
  function SlotOp(t: Template, photos: seq<string>, load: string -> Load, i: nat): (op: DrawOp)
    requires PositiveSlots(t) && i < |t.slotDefinitions| && i < |photos|
    requires load(photos[i]).Loaded?
    ensures op.DrawPhoto? && op.slot == i && op.src == photos[i]
    ensures op.clip == ScaleRect(t.slotDefinitions[i], ExportScale)
    ensures Contains(op.dest, op.clip)
    ensures op.radius <= SlotBorderRadius * ExportScale &&
            op.radius <= op.clip.width / 2.0 && op.radius <= op.clip.height / 2.0
  {
    var clip := ScaleRect(t.slotDefinitions[i], ExportScale);
    var img := load(photos[i]);
    DrawPhoto(i, photos[i], clip, CornerRadius(clip.width, clip.height),
              CoverFit(img.width, img.height, clip))
  }

  /** The photo layer for the first `k` slots: slots without a photo draw nothing. */
  function SlotOps(t: Template, photos: seq<string>, load: string -> Load, k: nat): (ops: seq<DrawOp>)
    requires PositiveSlots(t) && k <= |t.slotDefinitions| && AllLoaded(photos, load)
    ensures |ops| == MinNat(k, |photos|)
    ensures forall n :: 0 <= n < |ops| ==> ops[n].DrawPhoto? && ops[n].slot == n
  {
    if k == 0 then []
    else SlotOps(t, photos, load, k - 1) +
         (if k - 1 < |photos| then [SlotOp(t, photos, load, k - 1)] else [])
  }

  /** The photo layer holds one call per slot that has a photo, in slot order. */
  lemma {:induction false} SlotOpsShape(t: Template, photos: seq<string>, load: string -> Load, k: nat)
    requires PositiveSlots(t) && k <= |t.slotDefinitions| && AllLoaded(photos, load)
    ensures |SlotOps(t, photos, load, k)| == MinNat(k, |photos|)
    ensures forall n :: 0 <= n < MinNat(k, |photos|) ==>
      SlotOps(t, photos, load, k)[n] == SlotOp(t, photos, load, n)
  {
    if k > 0 {
      SlotOpsShape(t, photos, load, k - 1);
    }
  }

  /** The drawing of one sticker on an export canvas of `width` x `height`. */
  function StickerOp(s: StickerInstance, width: real, height: real): (op: DrawOp)
    ensures op.DrawSticker? && op.id == s.id && op.src == s.src && op.rotation == s.rotation
    ensures width > 0.0 ==> op.centerX / width == s.x / 100.0
    ensures height > 0.0 ==> op.centerY / height == s.y / 100.0
    ensures op.size / ExportScale == StickerBaseSize * s.scale
  {
    var c := StickerCentre(s.x, s.y, width, height);
    DrawSticker(s.id, s.src, c.0, c.1, s.rotation, StickerExportSize(s.scale))
  }

  /** The sticker layer for the first `k` stickers, in list order. */
  function StickerOps(stickers: seq<StickerInstance>, width: real, height: real, k: nat): (ops: seq<DrawOp>)
    requires k <= |stickers|
    ensures |ops| == k
    ensures forall n :: 0 <= n < k ==> ops[n].DrawSticker? && ops[n].id == stickers[n].id
  {
    if k == 0 then [] else StickerOps(stickers, width, height, k - 1) + [StickerOp(stickers[k - 1], width, height)]
  }

  lemma {:induction false} StickerOpsShape(stickers: seq<StickerInstance>, width: real, height: real, k: nat)
    requires k <= |stickers|
    ensures |StickerOps(stickers, width, height, k)| == k
    ensures forall n :: 0 <= n < k ==>
      StickerOps(stickers, width, height, k)[n] == StickerOp(stickers[n], width, height)
  {
    if k > 0 {
      StickerOpsShape(stickers, width, height, k - 1);
    }
  }

  /** The export surface: the template canvas at export scale, larger than the canvas. */
  function ExportWidth(t: Template): (w: real)
    ensures w / ExportScale == t.canvasWidth
    ensures t.canvasWidth > 0.0 ==> w > t.canvasWidth
  {
    t.canvasWidth * ExportScale
  }

  function ExportHeight(t: Template): (h: real)
    ensures h / ExportScale == t.canvasHeight
    ensures t.canvasHeight > 0.0 ==> h > t.canvasHeight
  {
    t.canvasHeight * ExportScale
  }

  /** The export pass with the background `bg`: what it draws and whether it completes. */
  function ExportPass(t: Template, bg: string, photos: seq<string>, stickers: seq<StickerInstance>,
                      load: string -> Load): (r: ExportResult)
    requires PositiveSlots(t)
    ensures r.RenderFailed? ==> load(r.resource).LoadError?
    ensures r.Exported? ==>
      (|r.log| >= 2 &&
       r.log[0] == DrawBackground(bg, ExportWidth(t), ExportHeight(t)) &&
       r.log[|r.log| - 1] == DrawFrame(t.frameImageUrl, ExportWidth(t), ExportHeight(t)))
  {
    var w, h := ExportWidth(t), ExportHeight(t);
    if load(bg).LoadError? then RenderFailed([], bg)
    else
      var p := FirstFailure(photos, load);
      if p < |photos| then RenderFailed([DrawBackground(bg, w, h)], photos[p])
      else
        var painted := [DrawBackground(bg, w, h)] + SlotOps(t, photos, load, |t.slotDefinitions|);
        var k := FirstFailure(Sources(stickers), load);
        if k < |stickers| then
          RenderFailed(painted + StickerOps(stickers, w, h, k), stickers[k].src)
        else if load(t.frameImageUrl).LoadError? then
          RenderFailed(painted + StickerOps(stickers, w, h, k), t.frameImageUrl)
        else
          Exported(painted + StickerOps(stickers, w, h, k) + [DrawFrame(t.frameImageUrl, w, h)])
  }

  /** Draws the export pass call by call: the slot loop and the sticker loop, aborting at
      the first image that does not load. */
  method Composite(t: Template, bg: string, photos: seq<string>, stickers: seq<StickerInstance>,
                   load: string -> Load) returns (r: ExportResult)
    requires PositiveSlots(t)
    ensures r == ExportPass(t, bg, photos, stickers, load)
  {
    var w, h := t.canvasWidth * ExportScale, t.canvasHeight * ExportScale;
    if load(bg).LoadError? {
      return RenderFailed([], bg);
    }
    // every photo is loaded before any slot is drawn
    var p := FirstFailure(photos, load);
    if p < |photos| {
      return RenderFailed([DrawBackground(bg, w, h)], photos[p]);
    }
    var log := DrawSlots(t, bg, photos, load, w, h);
    var k;
    log, k := DrawStickers(stickers, load, log, w, h);
    if k < |stickers| {
      return RenderFailed(log, stickers[k].src);
    }
    if load(t.frameImageUrl).LoadError? {
      return RenderFailed(log, t.frameImageUrl);
    }
    r := Exported(log + [DrawFrame(t.frameImageUrl, w, h)]);
  }

  /** The background and the slot loop, once every photo has loaded. */
  method DrawSlots(t: Template, bg: string, photos: seq<string>, load: string -> Load,
                   w: real, h: real) returns (log: seq<DrawOp>)
    requires PositiveSlots(t) && AllLoaded(photos, load)
    ensures log == [DrawBackground(bg, w, h)] + SlotOps(t, photos, load, |t.slotDefinitions|)
  {
    log := [DrawBackground(bg, w, h)];
    var i := 0;
    while i < |t.slotDefinitions|
      invariant 0 <= i <= |t.slotDefinitions|
      invariant log == [DrawBackground(bg, w, h)] + SlotOps(t, photos, load, i)
    {
      if i < |photos| {
        var clip := ScaleRect(t.slotDefinitions[i], ExportScale);
        var img := load(photos[i]);
        var radius := CornerRadius(clip.width, clip.height);
        log := log + [DrawPhoto(i, photos[i], clip, radius, CoverFit(img.width, img.height, clip))];
        assert SlotOps(t, photos, load, i + 1) ==
               SlotOps(t, photos, load, i) + [SlotOp(t, photos, load, i)];
      }
      i := i + 1;
    }
  }

  /** The sticker loop after `painted`: it stops at the first sticker whose image fails,
      whose index it returns, or returns the sticker count once all are drawn. */
  method DrawStickers(stickers: seq<StickerInstance>, load: string -> Load, painted: seq<DrawOp>,
                      w: real, h: real) returns (log: seq<DrawOp>, k: nat)
    ensures k == FirstFailure(Sources(stickers), load)
    ensures log == painted + StickerOps(stickers, w, h, k)
  {
    log := painted;
    var j := 0;
    while j < |stickers|
      invariant 0 <= j <= |stickers|
      invariant forall m :: 0 <= m < j ==> load(stickers[m].src).Loaded?
      invariant log == painted + StickerOps(stickers, w, h, j)
    {
      var s := stickers[j];
      if load(s.src).LoadError? {
        FirstFailureUnique(Sources(stickers), load, j);
        return log, j;
      }
      var c := StickerCentre(s.x, s.y, w, h);
      log := log + [DrawSticker(s.id, s.src, c.0, c.1, s.rotation, StickerExportSize(s.scale))];
      assert StickerOps(stickers, w, h, j + 1) == StickerOps(stickers, w, h, j) + [StickerOp(s, w, h)];
      j := j + 1;
    }
    FirstFailureUnique(Sources(stickers), load, j);
    k := j;
  }

  /** The pass completes exactly when the background, every photo, every sticker and the
      frame load; otherwise it names a resource that failed. */
  lemma ExportCompletesIff(t: Template, bg: string, photos: seq<string>,
                           stickers: seq<StickerInstance>, load: string -> Load)
    requires PositiveSlots(t)
    ensures ExportPass(t, bg, photos, stickers, load).Exported? <==>
      load(bg).Loaded? && AllLoaded(photos, load) && AllLoaded(Sources(stickers), load) &&
      load(t.frameImageUrl).Loaded?
    ensures ExportPass(t, bg, photos, stickers, load).RenderFailed? ==>
      var res := ExportPass(t, bg, photos, stickers, load).resource;
      load(res).LoadError? &&
      (res == bg || res in photos || res in Sources(stickers) || res == t.frameImageUrl)
  {
  }

  /** A completed pass is: the background stretched over the export canvas, then one
      cover-fitted call per slot that has a photo (slot order), then one call per sticker
      (list order) centred at its percent position, then the frame stretched on top. */
  lemma ExportedLayout(t: Template, bg: string, photos: seq<string>,
                       stickers: seq<StickerInstance>, load: string -> Load)
    requires PositiveSlots(t)
    requires ExportPass(t, bg, photos, stickers, load).Exported?
    ensures var log := ExportPass(t, bg, photos, stickers, load).log;
      var n := MinNat(|t.slotDefinitions|, |photos|);
      |log| == n + |stickers| + 2 &&
      log[0] == DrawBackground(bg, ExportWidth(t), ExportHeight(t)) &&
      (forall i :: 0 <= i < n ==> log[1 + i] == SlotOp(t, photos, load, i)) &&
      (forall k :: 0 <= k < |stickers| ==>
        log[1 + n + k] == StickerOp(stickers[k], ExportWidth(t), ExportHeight(t))) &&
      log[|log| - 1] == DrawFrame(t.frameImageUrl, ExportWidth(t), ExportHeight(t))
  {
    var w, h := ExportWidth(t), ExportHeight(t);
    ExportedLog(t, bg, photos, stickers, load);
    SlotOpsShape(t, photos, load, |t.slotDefinitions|);
    StickerOpsShape(stickers, w, h, |stickers|);
    LayoutOfParts(t, photos, load, stickers, bg, SlotOps(t, photos, load, |t.slotDefinitions|),
                  StickerOps(stickers, w, h, |stickers|), ExportPass(t, bg, photos, stickers, load).log);
  }

  /** The positions in a log made of the background, a photo layer given call by call, a
      sticker layer given call by call, and the frame. */
  lemma LayoutOfParts(t: Template, photos: seq<string>, load: string -> Load,
                      stickers: seq<StickerInstance>, bg: string,
                      a: seq<DrawOp>, b: seq<DrawOp>, log: seq<DrawOp>)
    requires PositiveSlots(t) && AllLoaded(photos, load)
    requires |a| == MinNat(|t.slotDefinitions|, |photos|)
    requires forall i :: 0 <= i < |a| ==> a[i] == SlotOp(t, photos, load, i)
    requires |b| == |stickers|
    requires forall k :: 0 <= k < |b| ==> b[k] == StickerOp(stickers[k], ExportWidth(t), ExportHeight(t))
    requires log == [DrawBackground(bg, ExportWidth(t), ExportHeight(t))] + a + b +
      [DrawFrame(t.frameImageUrl, ExportWidth(t), ExportHeight(t))]
    ensures var n := MinNat(|t.slotDefinitions|, |photos|);
      |log| == n + |stickers| + 2 &&
      log[0] == DrawBackground(bg, ExportWidth(t), ExportHeight(t)) &&
      (forall i :: 0 <= i < n ==> log[1 + i] == SlotOp(t, photos, load, i)) &&
      (forall k :: 0 <= k < |stickers| ==>
        log[1 + n + k] == StickerOp(stickers[k], ExportWidth(t), ExportHeight(t))) &&
      log[|log| - 1] == DrawFrame(t.frameImageUrl, ExportWidth(t), ExportHeight(t))
  {
    JoinedPositions(DrawBackground(bg, ExportWidth(t), ExportHeight(t)), a, b,
                    DrawFrame(t.frameImageUrl, ExportWidth(t), ExportHeight(t)));
  }

  /** A completed pass draws the background, the slot calls, every sticker and the frame. */
  lemma ExportedLog(t: Template, bg: string, photos: seq<string>,
                    stickers: seq<StickerInstance>, load: string -> Load)
    requires PositiveSlots(t)
    requires ExportPass(t, bg, photos, stickers, load).Exported?
    ensures FirstFailure(Sources(stickers), load) == |stickers| && AllLoaded(photos, load)
    ensures ExportPass(t, bg, photos, stickers, load).log ==
      [DrawBackground(bg, ExportWidth(t), ExportHeight(t))] +
      SlotOps(t, photos, load, |t.slotDefinitions|) +
      StickerOps(stickers, ExportWidth(t), ExportHeight(t), |stickers|) +
      [DrawFrame(t.frameImageUrl, ExportWidth(t), ExportHeight(t))]
  {
  }

  /** Where each part of `[first] + a + b + [last]` sits. */
  lemma JoinedPositions(first: DrawOp, a: seq<DrawOp>, b: seq<DrawOp>, last: DrawOp)
    ensures var c := [first] + a + b + [last];
      |c| == |a| + |b| + 2 && c[0] == first && c[|c| - 1] == last &&
      (forall m :: 1 <= m <= |a| ==> c[m] == a[m - 1]) &&
      (forall m :: 1 + |a| <= m < 1 + |a| + |b| ==> c[m] == b[m - 1 - |a|])
  {
  }

  /** Completed or not, the pass never draws a lower layer after a higher one:
      background < photos < stickers < frame. */
  lemma ExportIsLayered(t: Template, bg: string, photos: seq<string>,
                        stickers: seq<StickerInstance>, load: string -> Load)
    requires PositiveSlots(t)
    ensures Layered(ExportPass(t, bg, photos, stickers, load).log)
  {
    var w, h := ExportWidth(t), ExportHeight(t);
    if load(bg).Loaded? && FirstFailure(photos, load) == |photos| {
      var k := FirstFailure(Sources(stickers), load);
      LayeredParts(DrawBackground(bg, w, h), SlotOps(t, photos, load, |t.slotDefinitions|),
                   StickerOps(stickers, w, h, k), DrawFrame(t.frameImageUrl, w, h));
    }
  }

  /** The background, a photo layer, a sticker layer and the frame are layered in that
      order, with or without the frame. */
  lemma LayeredParts(first: DrawOp, a: seq<DrawOp>, b: seq<DrawOp>, last: DrawOp)
    requires first.DrawBackground? && last.DrawFrame?
    requires forall i :: 0 <= i < |a| ==> a[i].DrawPhoto?
    requires forall k :: 0 <= k < |b| ==> b[k].DrawSticker?
    ensures Layered([first] + a + b) && Layered([first] + a + b + [last])
  {
    var painted := [first] + a;
    LayeredJoin([first], a, 1);
    forall i | 0 <= i < |painted| ensures Layer(painted[i]) <= 2 {
      if i > 0 { assert painted[i] == a[i - 1]; }
    }
    LayeredJoin(painted, b, 2);
    forall i | 0 <= i < |painted + b| ensures Layer((painted + b)[i]) <= 3 {
    }
    LayeredJoin(painted + b, [last], 3);
  }

  /** Two layered logs joined are layered when no call of the first is above layer `m` and
      no call of the second is below it. */
  lemma LayeredJoin(a: seq<DrawOp>, b: seq<DrawOp>, m: nat)
    requires Layered(a)
    requires forall i :: 0 <= i < |a| ==> Layer(a[i]) <= m
    requires forall j :: 0 <= j < |b| ==> Layer(b[j]) == m
    ensures Layered(a + b)
  {
    var c := a + b;
    forall i, j | 0 <= i < j < |c| ensures Layer(c[i]) <= Layer(c[j]) {
      if j < |a| {
        assert c[i] == a[i] && c[j] == a[j];
      } else if i >= |a| {
        assert c[i] == b[i - |a|] && c[j] == b[j - |a|];
      } else {
        assert c[i] == a[i] && c[j] == b[j - |a|];
      }
    }
  }

  /** Every photo call of a pass covers its clip rectangle, the slot at export scale, and
      clips with a radius no greater than the nominal one or half of either side. */
  lemma PhotosCoverSlots(t: Template, bg: string, photos: seq<string>,
                         stickers: seq<StickerInstance>, load: string -> Load)
    requires PositiveSlots(t)
    ensures var log := ExportPass(t, bg, photos, stickers, load).log;
      forall op :: op in log && op.DrawPhoto? ==>
        op.slot < |t.slotDefinitions| && op.slot < |photos| && op.src == photos[op.slot] &&
        op.clip == ScaleRect(t.slotDefinitions[op.slot], ExportScale) &&
        Contains(op.dest, op.clip) &&
        op.radius <= SlotBorderRadius * ExportScale &&
        op.radius <= op.clip.width / 2.0 && op.radius <= op.clip.height / 2.0
  {
    var w, h := ExportWidth(t), ExportHeight(t);
    if load(bg).Loaded? && FirstFailure(photos, load) == |photos| {
      var slots := SlotOps(t, photos, load, |t.slotDefinitions|);
      SlotOpsShape(t, photos, load, |t.slotDefinitions|);
      var k := FirstFailure(Sources(stickers), load);
      var stk := StickerOps(stickers, w, h, k);
      var frame := if k < |stickers| || load(t.frameImageUrl).LoadError? then []
                   else [DrawFrame(t.frameImageUrl, w, h)];
      assert ExportPass(t, bg, photos, stickers, load).log ==
             [DrawBackground(bg, w, h)] + slots + stk + frame;
      PhotoCallsAreSlotCalls(t, photos, load, DrawBackground(bg, w, h), slots, stk, frame);
    }
  }

  /** In a log whose only photo calls are the photo layer, every photo call is slot `n`'s
      call for its own slot number `n`. */
  lemma PhotoCallsAreSlotCalls(t: Template, photos: seq<string>, load: string -> Load,
                               first: DrawOp, a: seq<DrawOp>, b: seq<DrawOp>, rest: seq<DrawOp>)
    requires PositiveSlots(t) && AllLoaded(photos, load)
    requires !first.DrawPhoto?
    requires |a| == MinNat(|t.slotDefinitions|, |photos|)
    requires forall i :: 0 <= i < |a| ==> a[i] == SlotOp(t, photos, load, i)
    requires forall k :: 0 <= k < |b| ==> !b[k].DrawPhoto?
    requires forall k :: 0 <= k < |rest| ==> !rest[k].DrawPhoto?
    ensures forall op :: op in [first] + a + b + rest && op.DrawPhoto? ==>
      op.slot < |t.slotDefinitions| && op.slot < |photos| && op == SlotOp(t, photos, load, op.slot)
  {
    forall op | op in [first] + a + b + rest && op.DrawPhoto?
      ensures op.slot < |t.slotDefinitions| && op.slot < |photos| &&
              op == SlotOp(t, photos, load, op.slot)
    {
      assert op in a;
      var n :| 0 <= n < |a| && a[n] == op;
    }
  }
}
