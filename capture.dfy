/** The capture screen: shots are taken one at a time into a preview, then kept or retaken;
    the session completes when the kept photos reach the target count. A captured frame is
    an input (absent when the camera or its canvas is not ready). */
module Capture {
  import opened Types

  /** The shot number shown: one past the kept photos, never beyond the target. */
  function ShotLabel(kept: nat, targetCount: int): (n: int)
    ensures n <= targetCount
    ensures kept < targetCount ==> n == kept + 1
    ensures kept >= targetCount ==> n == targetCount
  {
    if kept + 1 <= targetCount then kept + 1 else targetCount
  }

  /** The progress bar's width in percent of the target. */
  function Progress(kept: nat, targetCount: int): (p: real)
    requires targetCount > 0
    ensures p >= 0.0
    ensures p * (targetCount as real) == 100.0 * (kept as real)
    ensures kept <= targetCount ==> p <= 100.0
    ensures p == 100.0 <==> kept == targetCount
  {
    var p := ((kept as real) / (targetCount as real)) * 100.0;
    assert p * (targetCount as real) == 100.0 * (kept as real);
    assert kept <= targetCount ==> (kept as real) / (targetCount as real) <= 1.0;
    p
  }

  /** The keep button reads "FINISH & VIEW" exactly when the kept count is one short of the
      target (`CapturePage.KeepLabelAnnouncesCompletion` ties this to what keeping does). */
  function KeepLabel(kept: nat, targetCount: int): (text: string)
    ensures text == "FINISH & VIEW" <==> kept + 1 == targetCount
    ensures text == "KEEP PHOTO" <==> kept + 1 != targetCount
  {
    if kept + 1 == targetCount then "FINISH & VIEW" else "KEEP PHOTO"
  }

  class CapturePage {
    const targetCount: int
    var photos: seq<string>
    var currentPreview: Option<string>

    /** The kept photos never exceed the target, and a preview is only pending while there
        is room for it. */
    predicate Valid()
      reads this
    {
      |photos| <= targetCount && (currentPreview.Some? ==> |photos| < targetCount)
    }

    constructor(targetCount: int, existingPhotos: seq<string>)
      ensures this.targetCount == targetCount && photos == existingPhotos && currentPreview.None?
      ensures |existingPhotos| <= targetCount ==> Valid()
    {
      this.targetCount := targetCount;
      photos := existingPhotos;
      currentPreview := None;
    }

    /** The take-photo button is shown with no preview pending and room for another shot. */
    function CanTakePhoto(): (b: bool)
      reads this
      ensures currentPreview.None? ==> (b <==> !CanFinish())
      ensures b && Valid() ==> |photos| + 1 <= targetCount
    {
      currentPreview.None? && |photos| < targetCount
    }

    /** Retake-last and continue are shown with no preview pending and the target reached. */
    function CanFinish(): (b: bool)
      reads this
      ensures b && Valid() ==> |photos| == targetCount
    {
      currentPreview.None? && |photos| >= targetCount
    }

    /** The owner supplies a new list of existing photos. */
    method SyncExisting(existingPhotos: seq<string>)
      modifies this
      ensures photos == existingPhotos && currentPreview == old(currentPreview)
    {
      photos := existingPhotos;
    }

    /** A shot: the preview is cleared and replaced by the captured frame, if there is one. */
    method TakePhoto(frame: Option<string>)
      requires CanTakePhoto()
      modifies this
      ensures currentPreview == frame && photos == old(photos)
      ensures old(Valid()) ==> Valid()
    {
      currentPreview := None;
      if frame.Some? {
        currentPreview := frame;
      }
    }

    /** While a preview is pending on a valid page, the keep button announces completion
        exactly when keeping it completes the session. */
    lemma KeepLabelAnnouncesCompletion()
      requires Valid() && currentPreview.Some?
      ensures KeepLabel(|photos|, targetCount) == "FINISH & VIEW" <==> |photos| + 1 >= targetCount
    {
    }

    /** Discards the pending preview. */
    method Retake()
      modifies this
      ensures currentPreview.None? && photos == old(photos)
      ensures old(Valid()) ==> Valid()
    {
      currentPreview := None;
    }

    /** Keeps the pending preview, if any; reports the kept photos once they reach the target. */
    method Keep() returns (completed: Option<seq<string>>)
      modifies this
      ensures old(currentPreview).None? ==>
        photos == old(photos) && currentPreview.None? && completed.None?
      ensures old(currentPreview).Some? ==>
        photos == old(photos) + [old(currentPreview).value] && currentPreview.None?
      ensures completed.Some? <==> old(currentPreview).Some? && |photos| >= targetCount
      ensures completed.Some? ==> completed.value == photos
      ensures old(Valid()) ==> Valid()
    {
      completed := None;
      if currentPreview.Some? {
        var updatedPhotos := photos + [currentPreview.value];
        photos := updatedPhotos;
        currentPreview := None;
        if |updatedPhotos| >= targetCount {
          completed := Some(updatedPhotos);
        }
      }
    }

    /** Drops the last kept photo, if there is one, and any pending preview. */
    method RetakeLast()
      modifies this
      ensures old(photos) == [] ==> photos == [] && currentPreview == old(currentPreview)
      ensures old(photos) != [] ==>
        photos + [old(photos)[|old(photos)| - 1]] == old(photos) && currentPreview.None?
      ensures old(Valid()) ==> Valid()
    {
      if |photos| == 0 {
        return;
      }
      photos := photos[..|photos| - 1];
      currentPreview := None;
    }

    /** The continue button hands on the kept photos. */
    method Continue() returns (completed: seq<string>)
      requires CanFinish()
      ensures completed == photos && |completed| >= targetCount
    {
      completed := photos;
    }
  }
}
