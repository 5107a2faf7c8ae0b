/** The upload screen's photo list: files picked from the device are admitted up to the
    remaining capacity and appended; a photo can be removed or moved one place up or down;
    the screen can be left once enough photos are present. Each picked file is represented by
    the data URL it reads as. */
module Upload {
  import opened Types

  /** The files a selection admits: the first `remaining` files, where a negative count
      leaves out that many files from the back. */
  function Admitted(files: seq<string>, remaining: int): (a: seq<string>)
    ensures |a| <= |files| && a == files[..|a|]
    ensures remaining >= 0 ==> |a| == if remaining <= |files| then remaining else |files|
    ensures remaining < 0 ==> |a| == if |files| + remaining > 0 then |files| + remaining else 0
  {
    var end := if remaining >= 0 then remaining else |files| + remaining;
    if end <= 0 then [] else if end >= |files| then files else files[..end]
  }

  /** Appending what a selection admits keeps a list within the capacity it started within. */
  lemma SelectionStaysWithinCapacity(photos: seq<string>, files: seq<string>, maxPhotos: int)
    requires |photos| <= maxPhotos
    ensures var next := photos + Admitted(files, maxPhotos - |photos|);
      |next| <= maxPhotos && next[..|photos|] == photos &&
      next[|photos|..] == files[..|next| - |photos|]
  {
    var next := photos + Admitted(files, maxPhotos - |photos|);
    assert next[|photos|..] == Admitted(files, maxPhotos - |photos|);
  }

  /** Every photo except the one at position `index`, in order. */
  function WithoutIndex(photos: seq<string>, index: int): (r: seq<string>)
    ensures 0 <= index < |photos| ==> r == photos[..index] + photos[index + 1..]
    ensures !(0 <= index < |photos|) ==> r == photos
  {
    if photos == [] then []
    else
      var n := |photos| - 1;
      var front := WithoutIndex(photos[..n], index);
      assert photos[..n] + [photos[n]] == photos;
      if n == index then front
      else
        assert 0 <= index < n ==> photos[..n][..index] == photos[..index];
        assert 0 <= index < n ==> photos[..n][index + 1..] + [photos[n]] == photos[index + 1..];
        front + [photos[n]]
  }

  /** `s` with the elements at `i` and `j` exchanged. */
  function Swap(s: seq<string>, i: nat, j: nat): (r: seq<string>)
    requires i < |s| && j < |s|
    ensures |r| == |s| && r[i] == s[j] && r[j] == s[i]
    ensures forall k :: 0 <= k < |s| && k != i && k != j ==> r[k] == s[k]
  {
    s[j := s[i]][i := s[j]]
  }

  /** The list after moving the photo at `index` by `direction` (one place up or down):
      a swap with its neighbour, or the list itself when the neighbour does not exist. */
  function Moved(prev: seq<string>, index: nat, direction: int): (r: seq<string>)
    requires index < |prev| && (direction == -1 || direction == 1)
    ensures |r| == |prev|
    ensures !(0 <= index + direction < |prev|) ==> r == prev
    ensures 0 <= index + direction < |prev| ==>
      r[index + direction] == prev[index] && r[index] == prev[index + direction] &&
      forall k :: 0 <= k < |prev| && k != index && k != index + direction ==> r[k] == prev[k]
  {
    var target := index + direction;
    if target < 0 || target >= |prev| then prev else Swap(prev, index, target)
  }

  /** A move keeps the length and the multiset of photos: it only reorders. */
  lemma MovedIsPermutation(prev: seq<string>, index: nat, direction: int)
    requires index < |prev| && (direction == -1 || direction == 1)
    ensures |Moved(prev, index, direction)| == |prev|
    ensures multiset(Moved(prev, index, direction)) == multiset(prev)
  {
    var target := index + direction;
    if 0 <= target < |prev| {
      var r := prev[target := prev[index]];
      assert multiset(r) == multiset(prev) - multiset{prev[target]} + multiset{prev[index]};
      assert multiset(r[index := prev[target]]) ==
             multiset(r) - multiset{r[index]} + multiset{prev[target]};
    }
  }

  /** Moving a photo down and then moving it back up restores the list. */
  lemma MoveDownThenUp(prev: seq<string>, index: nat)
    requires index + 1 < |prev|
    ensures Moved(Moved(prev, index, 1), index + 1, -1) == prev
  {
    var once := Moved(prev, index, 1);
    var twice := Moved(once, index + 1, -1);
    assert |twice| == |prev|;
    forall k | 0 <= k < |prev| ensures twice[k] == prev[k] {
    }
  }

  /** `movePhoto`: copy the list into an array, swap the two cells through a temporary, and
      hand back the array's contents; or hand back the list itself when out of range. */
  method MovedPhoto(prev: seq<string>, index: nat, direction: int) returns (next: seq<string>)
    requires index < |prev| && (direction == -1 || direction == 1)
    ensures next == Moved(prev, index, direction)
  {
    var arr := new string[|prev|](k requires 0 <= k < |prev| => prev[k]);
    var target := index + direction;
    if target < 0 || target >= arr.Length {
      return prev;
    }
    var temp := arr[target];
    arr[target] := arr[index];
    arr[index] := temp;
    next := arr[..];
  }

  class UploadPage {
    const maxPhotos: int
    const minPhotos: int
    var photos: seq<string>

    constructor(maxPhotos: int, minPhotos: int)
      ensures this.maxPhotos == maxPhotos && this.minPhotos == minPhotos && photos == []
    {
      this.maxPhotos := maxPhotos;
      this.minPhotos := minPhotos;
      photos := [];
    }

    /** A file picker change: nothing when no file list is present, otherwise the admitted
        files' data URLs appended in selection order. */
    method HandleFilesSelected(files: Option<seq<string>>)
      modifies this
      ensures files.None? ==> photos == old(photos)
      ensures files.Some? ==> photos == old(photos) + Admitted(files.value, maxPhotos - |old(photos)|)
      ensures |old(photos)| <= maxPhotos ==> |photos| <= maxPhotos
    {
      if files.None? {
        return;
      }
      var remainingSlots := maxPhotos - |photos|;
      var newUrls := Admitted(files.value, remainingSlots);
      if |photos| <= maxPhotos {
        SelectionStaysWithinCapacity(photos, files.value, maxPhotos);
      }
      photos := photos + newUrls;
    }

    method HandleRemove(index: int)
      modifies this
      ensures photos == WithoutIndex(old(photos), index)
    {
      photos := WithoutIndex(photos, index);
    }

    method MovePhoto(index: nat, direction: int)
      requires index < |photos| && (direction == -1 || direction == 1)
      modifies this
      ensures photos == Moved(old(photos), index, direction)
      ensures multiset(photos) == multiset(old(photos))
    {
      MovedIsPermutation(photos, index, direction);
      photos := MovedPhoto(photos, index, direction);
    }

    /** The continue button: the photos are handed on exactly when there are at least
        `minPhotos` of them. */
    method Continue() returns (completed: Option<seq<string>>)
      ensures completed.Some? <==> |photos| >= minPhotos
      ensures completed.Some? ==> completed.value == photos
    {
      var canContinue := |photos| >= minPhotos;
      completed := if canContinue then Some(photos) else None;
    }
  }
}
