/** The shared vocabulary of the photobooth: screens, theme keys, sticker instances,
    layout templates and the theme records they are drawn with. */
module Types {

  datatype Option<T> = None | Some(value: T)

  /** A strictly positive length: the measured size of a loaded image or a slot side. */
  type Extent = r: real | r > 0.0 witness 1.0

  datatype AppScreen = Landing | Theme | Layout | Capture | Editing | Export

  datatype ThemeKey = Coquette | Valentines | SummerFruits | CherryGirl | BossBabe

  /** One user-placed sticker. `x` and `y` are the centre in percent of the canvas
      width and height, `rotation` is in degrees, `scale` a unitless multiplier. */
  datatype StickerInstance = StickerInstance(
    id: string,
    src: string,
    x: real,
    y: real,
    rotation: real,
    scale: real)

  /** A partial sticker: the fields that are present overwrite the sticker's own. */
  datatype Patch = Patch(
    id: Option<string>,
    src: Option<string>,
    x: Option<real>,
    y: Option<real>,
    rotation: Option<real>,
    scale: Option<real>)

  const EmptyPatch := Patch(None, None, None, None, None, None)

  /** An axis-aligned rectangle: left edge, top edge, width and height. */
  datatype Rect = Rect(x: real, y: real, width: real, height: real)

  /** A layout template: its reference canvas size, its frame overlay and preview
      thumbnail, and its photo slots in drawing order. */
  datatype Template = Template(
    canvasWidth: real,
    canvasHeight: real,
    frameImageUrl: string,
    previewImageUrl: string,
    slotDefinitions: seq<Rect>)

  /** The part of a theme the editor uses: its two background variants and its sticker palette. */
  datatype ThemeConfig = ThemeConfig(
    key: ThemeKey,
    backgroundMainUrl: string,
    backgroundAltUrl: string,
    stickers: seq<string>)

  /** The theme table. */
  function Themes(k: ThemeKey): (c: ThemeConfig)
    ensures c.key == k
    ensures |c.stickers| > 0
  {
    match k
    case Coquette => ThemeConfig(Coquette,
      "/assets/themes/coquette/backgrounds/main-1080x1920.png",
      "/assets/themes/coquette/backgrounds/alt-1080x1920.png",
      ["/assets/themes/coquette/stickers/bow.png",
       "/assets/themes/coquette/stickers/bow2.png",
       "/assets/themes/coquette/stickers/bunny.png",
       "/assets/themes/coquette/stickers/cuteflower.png"])
    case Valentines => ThemeConfig(Valentines,
      "/assets/themes/valentines/backgrounds/main-1080x1920.png",
      "/assets/themes/valentines/backgrounds/alt-1080x1920.png",
      ["/assets/themes/valentines/stickers/cupid.png",
       "/assets/themes/valentines/stickers/flower.png",
       "/assets/themes/valentines/stickers/heart.png",
       "/assets/themes/valentines/stickers/valday.png"])
    case SummerFruits => ThemeConfig(SummerFruits,
      "/assets/themes/summerfruits/backgrounds/main-1080x1920.png",
      "/assets/themes/summerfruits/backgrounds/alt-1080x1920.png",
      ["/assets/themes/summerfruits/stickers/flowerblue.png",
       "/assets/themes/summerfruits/stickers/lemon.png",
       "/assets/themes/summerfruits/stickers/lemonsunnies.png",
       "/assets/themes/summerfruits/stickers/seashell.png"])
    case CherryGirl => ThemeConfig(CherryGirl,
      "/assets/themes/cherrygirl/backgrounds/main-1080x1920.png",
      "/assets/themes/cherrygirl/backgrounds/alt-1080x1920.png",
      ["/assets/themes/cherrygirl/stickers/cherry.png",
       "/assets/themes/cherrygirl/stickers/cherrysunnies.png",
       "/assets/themes/cherrygirl/stickers/pixelcherry.png"])
    case BossBabe => ThemeConfig(BossBabe,
      "/assets/themes/bossbabe/backgrounds/main-1080x1920.png",
      "/assets/themes/bossbabe/backgrounds/alt-1080x1920.png",
      ["/assets/themes/bossbabe/stickers/advise.png",
       "/assets/themes/bossbabe/stickers/butterfly.png",
       "/assets/themes/bossbabe/stickers/disco.png",
       "/assets/themes/bossbabe/stickers/star.png"])
  }
}
