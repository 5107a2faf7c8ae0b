/** The session held by the top-level component and the screen flow it drives:
    landing, theme, layout, capture, editing, export. Each callback is available only on the
    screen that renders it. */
module AppFlow {
  import opened Types
  import opened Templates
  import opened Compositor

  /** The screen the primary action on `s` leads to (none from export, which only resets). */
  function Forward(s: AppScreen): (r: Option<AppScreen>)
    ensures r.None? <==> s == Export
    ensures r.Some? ==> r.value != Landing && r.value != s
  {
    match s
    case Landing => Some(Theme)
    case Theme => Some(Layout)
    case Layout => Some(Capture)
    case Capture => Some(Editing)
    case Editing => Some(Export)
    case Export => None
  }

  /** The screen the back button on `s` leads to (the landing page has none). */
  function Back(s: AppScreen): (r: Option<AppScreen>)
    ensures r.None? <==> s == Landing
    ensures r.Some? ==> r.value != Export && r.value != s
  {
    match s
    case Landing => None
    case Theme => Some(Landing)
    case Layout => Some(Theme)
    case Capture => Some(Layout)
    case Editing => Some(Capture)
    case Export => Some(Editing)
  }

  /** Back undoes forward on every screen that has a forward step, and forward undoes back
      on every screen that has a back button. */
  lemma BackUndoesForward(s: AppScreen)
    ensures Forward(s).Some? ==> Back(Forward(s).value) == Some(s)
    ensures Back(s).Some? ==> Forward(Back(s).value) == Some(s)
  {
  }

  /** Every template in the catalog has between two and four slots of positive size. */
  lemma CatalogIsDrawable(t: Template)
    requires t in AvailableTemplates
    ensures PositiveSlots(t) && 2 <= |t.slotDefinitions| <= 4
  {
    CatalogFacts();
    assert WellFormed(t);
  }

  class App {
    var screen: AppScreen
    var capturedPhotos: seq<string>
    var template: Template
    var theme: ThemeKey
    var stickers: seq<StickerInstance>
    var finalResult: Option<string>

    /** The state a fresh session starts in. */
    predicate Initial()
      reads this
    {
      screen == Landing && capturedPhotos == [] && template == AvailableTemplates[0] &&
      theme == Valentines && stickers == [] && finalResult == None
    }

    /** The chosen template is always one of the catalog's. */
    predicate Valid()
      reads this
    {
      template in AvailableTemplates
    }

    constructor()
      ensures Initial() && Valid()
    {
      screen := Landing;
      capturedPhotos := [];
      template := AvailableTemplates[0];
      theme := Valentines;
      stickers := [];
      finalResult := None;
    }

    /** The number of shots the capture screen asks for: one per slot of the template. */
    function CaptureTarget(): (n: nat)
      reads this
      requires Valid()
      ensures n == |template.slotDefinitions| && 2 <= n <= 4
    {
      CatalogIsDrawable(template);
      |template.slotDefinitions|
    }

    /** The image the export screen shows: the final result, or the empty string. */
    function ExportImageUrl(): (url: string)
      reads this
      ensures finalResult.Some? && finalResult.value != "" ==> url == finalResult.value
      ensures finalResult.None? || finalResult.value == "" ==> url == ""
    {
      if finalResult.Some? then finalResult.value else ""
    }

    /** Back to the initial state, from anywhere the reset button is shown. */
    method ResetApp()
      modifies this
      ensures Initial() && Valid()
    {
      screen := Landing;
      capturedPhotos := [];
      template := AvailableTemplates[0];
      theme := Valentines;
      stickers := [];
      finalResult := None;
    }

    /** A back button: only the screen changes. */
    method GoBack()
      requires Back(screen).Some?
      modifies this
      ensures screen == Back(old(screen)).value
      ensures capturedPhotos == old(capturedPhotos) && template == old(template)
      ensures theme == old(theme) && stickers == old(stickers) && finalResult == old(finalResult)
    {
      screen := Back(screen).value;
    }

    /** The landing page's start button. */
    method Start()
      requires screen == Landing
      modifies this
      ensures screen == Theme && screen == Forward(old(screen)).value
      ensures capturedPhotos == old(capturedPhotos) && template == old(template)
      ensures theme == old(theme) && stickers == old(stickers) && finalResult == old(finalResult)
    {
      screen := Theme;
    }

    /** A theme has been picked. */
    method ThemeComplete(t: ThemeKey)
      requires screen == Theme
      modifies this
      ensures theme == t && screen == Layout && screen == Forward(old(screen)).value
      ensures capturedPhotos == old(capturedPhotos) && template == old(template)
      ensures stickers == old(stickers) && finalResult == old(finalResult)
    {
      theme := t;
      screen := Layout;
    }

    /** A layout has been picked from the catalog: a new capture session starts with no
        photos and no stickers. */
    method LayoutComplete(tpl: Template)
      requires screen == Layout && tpl in AvailableTemplates
      modifies this
      ensures template == tpl && capturedPhotos == [] && stickers == []
      ensures screen == Capture && screen == Forward(old(screen)).value
      ensures theme == old(theme) && finalResult == old(finalResult)
      ensures Valid()
    {
      template := tpl;
      capturedPhotos := [];
      stickers := [];
      screen := Capture;
    }

    /** The capture screen has its photos. */
    method CaptureComplete(photos: seq<string>)
      requires screen == Capture
      modifies this
      ensures capturedPhotos == photos && screen == Editing && screen == Forward(old(screen)).value
      ensures template == old(template) && theme == old(theme)
      ensures stickers == old(stickers) && finalResult == old(finalResult)
    {
      capturedPhotos := photos;
      screen := Editing;
    }

    /** The editor reports a changed sticker list. */
    method StickersUpdate(s: seq<StickerInstance>)
      requires screen == Editing
      modifies this
      ensures stickers == s && screen == old(screen)
      ensures capturedPhotos == old(capturedPhotos) && template == old(template)
      ensures theme == old(theme) && finalResult == old(finalResult)
    {
      stickers := s;
    }

    /** The editor has rendered the finished strip. */
    method EditorComplete(dataUrl: string)
      requires screen == Editing
      modifies this
      ensures finalResult == Some(dataUrl) && screen == Export && screen == Forward(old(screen)).value
      ensures capturedPhotos == old(capturedPhotos) && template == old(template)
      ensures theme == old(theme) && stickers == old(stickers)
    {
      finalResult := Some(dataUrl);
      screen := Export;
    }

    /** The export screen's start-over button. */
    method ExportReset()
      requires screen == Export
      modifies this
      ensures Initial() && Valid()
    {
      ResetApp();
    }
  }
}
