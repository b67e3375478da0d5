/**
 * Pointer-down hit-testing: stickers are searched from the top of the paint
 * order down, and the first whose closed box holds the point wins.
 */
module HitTest {
  import opened Geometry
  import opened SceneModel

  /** `isPointInSticker`: the point lies in the sticker's closed box. */
  predicate IsPointInSticker(p: Point, t: Sticker) {
    Contains(t.box, p)
  }

  /** `stickers.slice().reverse()`: the stickers from topmost to bottommost. */
  function Reverse(st: seq<Sticker>): (r: seq<Sticker>)
    ensures |r| == |st|
    ensures forall i :: 0 <= i < |st| ==> r[i] == st[|st| - 1 - i]
  {
    seq(|st|, i requires 0 <= i < |st| => st[|st| - 1 - i])
  }

  /** `findIndex` with `isPointInSticker`: the first sticker holding `p`, or -1. */
  function FindIndex(st: seq<Sticker>, p: Point): (k: int)
    ensures -1 <= k < |st|
    ensures k == -1 <==> forall j :: 0 <= j < |st| ==> !IsPointInSticker(p, st[j])
    ensures k >= 0 ==> IsPointInSticker(p, st[k])
    ensures k >= 0 ==> forall j :: 0 <= j < k ==> !IsPointInSticker(p, st[j])
  {
    if |st| == 0 then -1
    else if IsPointInSticker(p, st[0]) then 0
    else
      var k := FindIndex(st[1..], p);
      if k == -1 then -1 else k + 1
  }

  /**
   * The index `handleStart` selects, `stickers.length - 1 - clickedIndex`:
   * the highest-indexed (topmost) sticker holding `p`, or -1 when none does.
   */
  function TopmostHit(st: seq<Sticker>, p: Point): (k: int)
    ensures -1 <= k < |st|
    ensures k == -1 <==> forall j :: 0 <= j < |st| ==> !IsPointInSticker(p, st[j])
    ensures k >= 0 ==> IsPointInSticker(p, st[k])
    ensures k >= 0 ==> forall j :: k < j < |st| ==> !IsPointInSticker(p, st[j])
  {
    var rev := Reverse(st);
    var c := FindIndex(rev, p);
    if c == -1 then
      assert forall j :: 0 <= j < |st| ==> rev[|st| - 1 - j] == st[j];
      -1
    else
      assert forall j :: c > |st| - 1 - j >= 0 ==> rev[|st| - 1 - j] == st[j];
      |st| - 1 - c
  }

  /**
   * Stacking: a sticker added on top of others wins every point inside it,
   * whatever lies beneath.
   */
  lemma NewestStickerWins(st: seq<Sticker>, b: Sticker, p: Point)
    requires IsPointInSticker(p, b)
    ensures TopmostHit(st + [b], p) == |st|
  {
  }

  /**
   * A point outside the newest sticker is hit-tested exactly as it was before
   * that sticker was added.
   */
  lemma MissedNewestKeepsHit(st: seq<Sticker>, b: Sticker, p: Point)
    requires !IsPointInSticker(p, b)
    ensures TopmostHit(st + [b], p) == TopmostHit(st, p)
  {
    var s2 := st + [b];
    var k := TopmostHit(s2, p);
    var k0 := TopmostHit(st, p);
    assert forall j :: 0 <= j < |st| ==> s2[j] == st[j];
    if k == -1 {
      assert k0 == -1;
    } else {
      assert k < |st|;
      assert IsPointInSticker(p, st[k]);
    }
  }
}
