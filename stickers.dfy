/** The editor's sticker list: adding a sticker from the palette, patching one by id and
    removing one by id. The list order is the stacking order (later = on top). */
module Stickers {
  import opened Types

  /** Where a freshly added sticker is placed: the canvas centre, unrotated, at scale 1. */
  function NewSticker(id: string, src: string): StickerInstance {
    StickerInstance(id, src, 50.0, 50.0, 0.0, 1.0)
  }

  /** The ids of a sticker list, in order. */
  function Ids(stickers: seq<StickerInstance>): (ids: seq<string>)
    ensures |ids| == |stickers|
    ensures forall i :: 0 <= i < |stickers| ==> ids[i] == stickers[i].id
  {
    seq(|stickers|, i requires 0 <= i < |stickers| => stickers[i].id)
  }

  /** No two stickers share an id. */
  predicate UniqueIds(stickers: seq<StickerInstance>) {
    forall i, j :: 0 <= i < j < |stickers| ==> stickers[i].id != stickers[j].id
  }

  /** The list after a palette pick: one new sticker with a fresh id appended at the end. */
  function Add(stickers: seq<StickerInstance>, src: string, freshId: string): (r: seq<StickerInstance>)
    requires freshId !in Ids(stickers)
    ensures |r| == |stickers| + 1 && r[..|stickers|] == stickers
    ensures r[|stickers|] == StickerInstance(freshId, src, 50.0, 50.0, 0.0, 1.0)
    ensures UniqueIds(stickers) ==> UniqueIds(r)
  {
    stickers + [NewSticker(freshId, src)]
  }

  /** A sticker with the fields present in `patch` overwritten. */
  function Merge(s: StickerInstance, patch: Patch): (m: StickerInstance)
    ensures patch.id.Some? ==> m.id == patch.id.value
    ensures patch.id.None? ==> m.id == s.id
    ensures patch.src.Some? ==> m.src == patch.src.value
    ensures patch.src.None? ==> m.src == s.src
    ensures patch.x.Some? ==> m.x == patch.x.value
    ensures patch.x.None? ==> m.x == s.x
    ensures patch.y.Some? ==> m.y == patch.y.value
    ensures patch.y.None? ==> m.y == s.y
    ensures patch.rotation.Some? ==> m.rotation == patch.rotation.value
    ensures patch.rotation.None? ==> m.rotation == s.rotation
    ensures patch.scale.Some? ==> m.scale == patch.scale.value
    ensures patch.scale.None? ==> m.scale == s.scale
  {
    StickerInstance(
      if patch.id.Some? then patch.id.value else s.id,
      if patch.src.Some? then patch.src.value else s.src,
      if patch.x.Some? then patch.x.value else s.x,
      if patch.y.Some? then patch.y.value else s.y,
      if patch.rotation.Some? then patch.rotation.value else s.rotation,
      if patch.scale.Some? then patch.scale.value else s.scale)
  }

  /** Applying the same patch twice is applying it once. */
  lemma MergeIdempotent(s: StickerInstance, patch: Patch)
    ensures Merge(Merge(s, patch), patch) == Merge(s, patch)
  {
  }

  /** Merging the empty patch changes nothing. */
  lemma MergeEmpty(s: StickerInstance)
    ensures Merge(s, EmptyPatch) == s
  {
  }

  /** The list with every sticker whose id is `id` patched; the others are kept as they are. */
  function Update(stickers: seq<StickerInstance>, id: string, patch: Patch): (r: seq<StickerInstance>)
    ensures |r| == |stickers|
    ensures forall i :: 0 <= i < |stickers| ==>
      r[i] == if stickers[i].id == id then Merge(stickers[i], patch) else stickers[i]
  {
    seq(|stickers|, i requires 0 <= i < |stickers| =>
      if stickers[i].id == id then Merge(stickers[i], patch) else stickers[i])
  }

  /** A patch that leaves the id alone keeps ids, their order and their uniqueness. */
  lemma UpdateKeepsIds(stickers: seq<StickerInstance>, id: string, patch: Patch)
    requires patch.id.None?
    ensures Ids(Update(stickers, id, patch)) == Ids(stickers)
    ensures UniqueIds(stickers) ==> UniqueIds(Update(stickers, id, patch))
  {
    var r := Update(stickers, id, patch);
    forall i | 0 <= i < |stickers| ensures r[i].id == stickers[i].id {
    }
  }

  /** The list without the stickers whose id is `id`, the others in their original order. */
  function Remove(stickers: seq<StickerInstance>, id: string): (r: seq<StickerInstance>)
    ensures |r| <= |stickers|
    ensures forall s :: s in r ==> s in stickers && s.id != id
    ensures forall s :: s in stickers && s.id != id ==> s in r
  {
    if stickers == [] then []
    else if stickers[0].id == id then Remove(stickers[1..], id)
    else [stickers[0]] + Remove(stickers[1..], id)
  }

  /** Removal distributes over concatenation, which is to say it keeps the relative
      order of everything it keeps. */
  lemma {:induction false} RemoveAppend(a: seq<StickerInstance>, b: seq<StickerInstance>, id: string)
    ensures Remove(a + b, id) == Remove(a, id) + Remove(b, id)
  {
    if a == [] {
      assert a + b == b;
    } else {
      assert (a + b)[0] == a[0];
      assert (a + b)[1..] == a[1..] + b;
      RemoveAppend(a[1..], b, id);
    }
  }

  /** Removing an id that no sticker has leaves the list as it is. */
  lemma {:induction false} RemoveAbsent(stickers: seq<StickerInstance>, id: string)
    requires id !in Ids(stickers)
    ensures Remove(stickers, id) == stickers
  {
    if stickers != [] {
      assert stickers[0].id == Ids(stickers)[0];
      assert Ids(stickers[1..]) == Ids(stickers)[1..];
      RemoveAbsent(stickers[1..], id);
      assert stickers == [stickers[0]] + stickers[1..];
    }
  }

  /** Removing a sticker right after adding it restores the list. */
  lemma AddThenRemove(stickers: seq<StickerInstance>, src: string, freshId: string)
    requires freshId !in Ids(stickers)
    ensures Remove(Add(stickers, src, freshId), freshId) == stickers
  {
    RemoveAppend(stickers, [NewSticker(freshId, src)], freshId);
    RemoveAbsent(stickers, freshId);
    assert Remove([NewSticker(freshId, src)], freshId) == [];
  }

  /** A list is id-unique exactly when its tail is and its head's id is not in the tail. */
  lemma UniqueCons(h: StickerInstance, t: seq<StickerInstance>)
    ensures UniqueIds([h] + t) <==> UniqueIds(t) && h.id !in Ids(t)
  {
    var r := [h] + t;
    if UniqueIds(t) && h.id !in Ids(t) {
      forall i, j | 0 <= i < j < |r| ensures r[i].id != r[j].id {
        assert r[j] == t[j - 1];
        if i > 0 { assert r[i] == t[i - 1]; } else { assert Ids(t)[j - 1] == r[j].id; }
      }
    }
    if UniqueIds(r) {
      forall i, j | 0 <= i < j < |t| ensures t[i].id != t[j].id {
        assert t[i] == r[i + 1] && t[j] == r[j + 1];
      }
      forall k | 0 <= k < |t| ensures Ids(t)[k] != h.id {
        assert r[0] == h && t[k] == r[k + 1];
      }
    }
  }

  /** An id that no sticker of a list has is not among the ids of what removal keeps. */
  lemma RemoveKeepsAbsence(stickers: seq<StickerInstance>, id: string, other: string)
    requires other !in Ids(stickers)
    ensures other !in Ids(Remove(stickers, id))
  {
    var tail := Remove(stickers, id);
    forall k | 0 <= k < |tail| ensures Ids(tail)[k] != other {
      var m :| 0 <= m < |stickers| && stickers[m] == tail[k];
      assert Ids(stickers)[m] == tail[k].id;
    }
  }

  /** Removal keeps ids unique, and no kept sticker carries the removed id. */
  lemma {:induction false} RemoveKeepsUnique(stickers: seq<StickerInstance>, id: string)
    requires UniqueIds(stickers)
    ensures UniqueIds(Remove(stickers, id))
  {
    if stickers != [] {
      var h, rest := stickers[0], stickers[1..];
      assert stickers == [h] + rest;
      UniqueCons(h, rest);
      RemoveKeepsUnique(rest, id);
      if h.id != id {
        RemoveKeepsAbsence(rest, id, h.id);
        UniqueCons(h, Remove(rest, id));
      }
    }
  }

  /** No sticker that removal keeps carries the removed id. */
  lemma RemoveDropsId(stickers: seq<StickerInstance>, id: string)
    ensures id !in Ids(Remove(stickers, id))
  {
    var r := Remove(stickers, id);
    forall k | 0 <= k < |r| ensures Ids(r)[k] != id {
      assert r[k] in r;
    }
  }

  /** The selection after removing `id`: cleared exactly when it was `id`. */
  function SelectionAfterRemove(selected: Option<string>, id: string): (r: Option<string>)
    ensures r == None <==> selected == None || selected == Some(id)
    ensures r != None ==> r == selected
  {
    if selected == Some(id) then None else selected
  }
}
