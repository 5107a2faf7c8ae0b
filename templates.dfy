/** The layout catalog: five constant templates at a 1080 x 1920 reference resolution and
    the geometry facts the templates are authored to satisfy. */
module Templates {
  import opened Types
  import opened Geometry

  const Vertical2: Template := Template(1080.0, 1920.0,
    "/assets/frames/vertical2.png", "assets/layouts/vertical2.png",
    [Rect(123.0, 212.0, 834.0, 728.0),
     Rect(123.0, 1020.0, 834.0, 728.0)])

  const Vertical3: Template := Template(1080.0, 1920.0,
    "/assets/frames/vertical3.png", "/assets/layouts/vertical3.png",
    [Rect(108.0, 192.0, 864.0, 480.0),
     Rect(108.0, 702.0, 864.0, 480.0),
     Rect(108.0, 1212.0, 864.0, 480.0)])

  const Vertical4: Template := Template(1080.0, 1920.0,
    "/assets/frames/vertical4.png", "/assets/layouts/vertical4.png",
    [Rect(108.0, 192.0, 864.0, 360.0),
     Rect(108.0, 582.0, 864.0, 360.0),
     Rect(108.0, 972.0, 864.0, 360.0),
     Rect(108.0, 1362.0, 864.0, 360.0)])

  const Grid2x2: Template := Template(1080.0, 1920.0,
    "assets/frames/grid2x2.png", "public/assets/layouts/grid2x2.png",
    [Rect(108.0, 192.0, 414.0, 414.0),
     Rect(558.0, 192.0, 414.0, 414.0),
     Rect(108.0, 642.0, 414.0, 414.0),
     Rect(558.0, 642.0, 414.0, 414.0)])

  /** Reuses the grid frame overlay. */
  const Staggered2x2: Template := Template(1080.0, 1920.0,
    "/assets/frames/grid2x2.png", "/assets/layouts/grid2x2.png",
    [Rect(108.0, 215.0, 417.0, 650.0),
     Rect(108.0, 895.0, 417.0, 650.0),
     Rect(555.0, 375.0, 417.0, 650.0),
     Rect(555.0, 1055.0, 417.0, 650.0)])

  /** The templates offered for selection, in order; the grid layout is not among them. */
  const AvailableTemplates: seq<Template> := [Vertical2, Vertical3, Vertical4, Staggered2x2]

  /** A slot lies on the template's reference canvas and has a positive size. */
  predicate SlotWithin(t: Template, s: Rect) {
    0.0 <= s.x && s.x + s.width <= t.canvasWidth &&
    0.0 <= s.y && s.y + s.height <= t.canvasHeight &&
    s.width > 0.0 && s.height > 0.0
  }

  /** Two rectangles share no interior point. */
  predicate Disjoint(a: Rect, b: Rect) {
    a.x + a.width <= b.x || b.x + b.width <= a.x ||
    a.y + a.height <= b.y || b.y + b.height <= a.y
  }

  predicate PairwiseDisjoint(slots: seq<Rect>) {
    forall i, j :: 0 <= i < j < |slots| ==> Disjoint(slots[i], slots[j])
  }

  /** Every slot lies on the canvas and no two slots overlap. */
  predicate WellFormed(t: Template) {
    t.canvasWidth > 0.0 && t.canvasHeight > 0.0 &&
    (forall i :: 0 <= i < |t.slotDefinitions| ==> SlotWithin(t, t.slotDefinitions[i])) &&
    PairwiseDisjoint(t.slotDefinitions)
  }

  /** Each slot ends (with a gap of at least `gap`) above where the next one starts. */
  predicate StackedDown(slots: seq<Rect>, gap: real) {
    forall i :: 0 <= i < |slots| - 1 ==> slots[i].y + slots[i].height + gap <= slots[i + 1].y
  }

  /** A slot's vertical extent is non-negative, so its top is at most its bottom. */
  predicate NonNegativeHeights(slots: seq<Rect>) {
    forall i :: 0 <= i < |slots| ==> slots[i].height >= 0.0
  }

  /** In a downward stack every slot ends above where any later slot starts. */
  lemma {:induction false} StackedOrder(slots: seq<Rect>, gap: real, i: nat, j: nat)
    requires StackedDown(slots, gap) && NonNegativeHeights(slots) && gap >= 0.0
    requires i < j < |slots|
    ensures slots[i].y + slots[i].height <= slots[j].y
    decreases j - i
  {
    if j > i + 1 {
      StackedOrder(slots, gap, i + 1, j);
      assert slots[i].y + slots[i].height <= slots[i + 1].y;
    }
  }

  /** A downward stack of slots is pairwise disjoint. */
  lemma StackedIsDisjoint(slots: seq<Rect>, gap: real)
    requires StackedDown(slots, gap) && NonNegativeHeights(slots) && gap >= 0.0
    ensures PairwiseDisjoint(slots)
  {
    forall i, j | 0 <= i < j < |slots| ensures Disjoint(slots[i], slots[j]) {
      StackedOrder(slots, gap, i, j);
    }
  }

  /** The two-photo strip: two 834 x 728 slots at x = 123, 80 apart, ending at x 957 and
      y 1748; at export scale the corner-radius cap does not bite. */
  lemma Vertical2Geometry()
    ensures Vertical2.canvasWidth == 1080.0 && Vertical2.canvasHeight == 1920.0
    ensures |Vertical2.slotDefinitions| == 2
    ensures forall s :: s in Vertical2.slotDefinitions ==>
      s.x == 123.0 && s.width == 834.0 && s.height == 728.0 &&
      s.x + s.width == 957.0 &&
      CornerRadius(ExportScale * s.width, ExportScale * s.height) == SlotBorderRadius * ExportScale
    ensures Vertical2.slotDefinitions[1].y + Vertical2.slotDefinitions[1].height == 1748.0
    ensures StackedDown(Vertical2.slotDefinitions, 80.0)
    ensures Vertical2.slotDefinitions[1].y -
            (Vertical2.slotDefinitions[0].y + Vertical2.slotDefinitions[0].height) == 80.0
    ensures WellFormed(Vertical2)
  {
    StackedIsDisjoint(Vertical2.slotDefinitions, 80.0);
  }

  /** The three-photo strip: 864 x 480 slots at x = 108, one every 510, ending at y 1692. */
  lemma Vertical3Geometry()
    ensures Vertical3.canvasWidth == 1080.0 && Vertical3.canvasHeight == 1920.0
    ensures |Vertical3.slotDefinitions| == 3
    ensures forall s :: s in Vertical3.slotDefinitions ==>
      s.x == 108.0 && s.width == 864.0 && s.height == 480.0
    ensures forall i :: 0 <= i < 2 ==>
      Vertical3.slotDefinitions[i + 1].y == Vertical3.slotDefinitions[i].y + 510.0
    ensures Vertical3.slotDefinitions[2].y + Vertical3.slotDefinitions[2].height == 1692.0
    ensures WellFormed(Vertical3)
  {
    assert StackedDown(Vertical3.slotDefinitions, 30.0);
    StackedIsDisjoint(Vertical3.slotDefinitions, 30.0);
  }

  /** The four-photo strip: 864 x 360 slots at x = 108, one every 390 (a 30 gap), ending at y 1722. */
  lemma Vertical4Geometry()
    ensures Vertical4.canvasWidth == 1080.0 && Vertical4.canvasHeight == 1920.0
    ensures |Vertical4.slotDefinitions| == 4
    ensures forall s :: s in Vertical4.slotDefinitions ==>
      s.x == 108.0 && s.width == 864.0 && s.height == 360.0
    ensures forall i :: 0 <= i < 3 ==>
      Vertical4.slotDefinitions[i + 1].y == Vertical4.slotDefinitions[i].y + 390.0
    ensures StackedDown(Vertical4.slotDefinitions, 30.0)
    ensures Vertical4.slotDefinitions[3].y + Vertical4.slotDefinitions[3].height == 1722.0
    ensures WellFormed(Vertical4)
  {
    StackedIsDisjoint(Vertical4.slotDefinitions, 30.0);
  }

  /** The 2 x 2 grid: four 414 x 414 squares listed row by row. */
  lemma Grid2x2Geometry()
    ensures Grid2x2.canvasWidth == 1080.0 && Grid2x2.canvasHeight == 1920.0
    ensures |Grid2x2.slotDefinitions| == 4
    ensures forall s :: s in Grid2x2.slotDefinitions ==> s.width == 414.0 && s.height == 414.0
    ensures forall r :: 0 <= r < 2 ==>
      Grid2x2.slotDefinitions[2 * r].y == Grid2x2.slotDefinitions[2 * r + 1].y &&
      Grid2x2.slotDefinitions[2 * r].x + Grid2x2.slotDefinitions[2 * r].width
        <= Grid2x2.slotDefinitions[2 * r + 1].x
    ensures Grid2x2.slotDefinitions[0].y + Grid2x2.slotDefinitions[0].height
        <= Grid2x2.slotDefinitions[2].y
    ensures WellFormed(Grid2x2)
  {
  }

  /** Slots 0 and 1 form a left column at x 108-525, slots 2 and 3 a right column at
      x 555-972, each right slot 160 below its left neighbour. */
  predicate StaggeredColumns(slots: seq<Rect>)
    requires |slots| == 4
  {
    forall i :: 0 <= i < 2 ==> LeftRight(slots[i], slots[i + 2])
  }

  predicate LeftRight(left: Rect, right: Rect) {
    left.x == 108.0 && left.x + left.width == 525.0 &&
    right.x == 555.0 && right.x + right.width == 972.0 &&
    right.y == left.y + 160.0
  }

  /** The staggered grid: four 417 x 650 slots in two columns (x 108-525 and 555-972),
      the right column 160 lower, sharing the grid frame. */
  lemma Staggered2x2Geometry()
    ensures Staggered2x2.canvasWidth == 1080.0 && Staggered2x2.canvasHeight == 1920.0
    ensures Staggered2x2.frameImageUrl == "/assets/frames/grid2x2.png"
    ensures |Staggered2x2.slotDefinitions| == 4
    ensures forall s :: s in Staggered2x2.slotDefinitions ==> s.width == 417.0 && s.height == 650.0
    ensures StaggeredColumns(Staggered2x2.slotDefinitions)
    ensures WellFormed(Staggered2x2)
  {
  }

  /** The catalog is exactly the two, three and four strips and the staggered grid; every
      template in it is well formed and has at least two slots. */
  lemma CatalogFacts()
    ensures AvailableTemplates == [Vertical2, Vertical3, Vertical4, Staggered2x2]
    ensures Grid2x2 !in AvailableTemplates
    ensures forall t :: t in AvailableTemplates ==> WellFormed(t) && 2 <= |t.slotDefinitions| <= 4
    ensures forall t, s :: t in AvailableTemplates + [Grid2x2] && s in t.slotDefinitions ==>
      CornerRadius(ExportScale * s.width, ExportScale * s.height) == SlotBorderRadius * ExportScale
  {
    Vertical2Geometry();
    Vertical3Geometry();
    Vertical4Geometry();
    Staggered2x2Geometry();
    RadiusNeverCapped();
    assert AvailableTemplates + [Grid2x2] == [Vertical2, Vertical3, Vertical4, Staggered2x2, Grid2x2];
  }

  /** Every slot of every table, the unlisted grid included, gets the full export-scale corner radius. */
  lemma RadiusNeverCapped()
    ensures forall t, s :: t in [Vertical2, Vertical3, Vertical4, Staggered2x2, Grid2x2] && s in t.slotDefinitions ==>
      CornerRadius(ExportScale * s.width, ExportScale * s.height) == SlotBorderRadius * ExportScale
  {
    forall t, s | t in [Vertical2, Vertical3, Vertical4, Staggered2x2, Grid2x2] && s in t.slotDefinitions
      ensures CornerRadius(ExportScale * s.width, ExportScale * s.height) == SlotBorderRadius * ExportScale
    {
      SlotsTakeFullRadius(t, s);
    }
  }

  /** No slot of any table is small enough for its corner radius to be capped. */
  lemma SlotsTakeFullRadius(t: Template, s: Rect)
    requires t in [Vertical2, Vertical3, Vertical4, Staggered2x2, Grid2x2] && s in t.slotDefinitions
    ensures CornerRadius(ExportScale * s.width, ExportScale * s.height) == SlotBorderRadius * ExportScale
  {
    assert s.width >= 80.0 && s.height >= 80.0 by {
      if t == Vertical2 { Vertical2Geometry(); }
      else if t == Vertical3 { Vertical3Geometry(); }
      else if t == Vertical4 { Vertical4Geometry(); }
      else if t == Staggered2x2 { Staggered2x2Geometry(); }
      else { Grid2x2Geometry(); }
    }
  }
}
