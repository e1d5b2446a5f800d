/** What one run of MainActivity.checkCollision looks at, and which child it reports. */
module Scan {
  import opened Geometry
  import opened Views

  /** Everything one collision scan reads: the player's box, the root layout's children in
      order with the box of each, the ids of the right and left buttons, and the set of
      obstacles already resolved. */
  datatype Frame = Frame(
    player: Box,
    children: seq<View>,
    boxes: seq<Box>,
    rightId: int,
    leftId: int,
    checked: set<View>)
  {
    /** Every child has a box. */
    predicate WellFormed() { |boxes| == |children| }
  }

  /** The children the scan passes over before looking at positions: the right and left
      buttons, recognised by id, and every ImageView. Nothing else is filtered out. */
  predicate Skipped(v: View, rightId: int, leftId: int)
    // an obstacle is passed over only when its id is a button's id
    ensures v.kind.Obstacle? ==> (Skipped(v, rightId, leftId) <==> v.id == rightId || v.id == leftId)
    // a button other than the right and left ones, the centre button say, is tested
    ensures v.kind.Button? && v.id != rightId && v.id != leftId ==> !Skipped(v, rightId, leftId)
  {
    v.id == rightId || v.id == leftId || v.kind.Image?
  }

  /** The scan tests the k-th child and finds that it collides with the player. */
  predicate HitAt(f: Frame, k: nat)
    requires f.WellFormed() && k < |f.children|
    ensures HitAt(f, k) ==>
      && !f.children[k].kind.Image? && f.children[k] !in f.checked
      && HorizontalOverlap(f.player, f.boxes[k])
  {
    !Skipped(f.children[k], f.rightId, f.leftId)
    && f.children[k] !in f.checked
    && Collides(f.player, f.boxes[k])
  }

  /** The position of the first child, at or after `from`, that the scan reports: the first
      colliding child that is neither filtered out nor already resolved. */
  function FirstHit(f: Frame, from: nat): (r: Option<nat>)
    requires f.WellFormed() && from <= |f.children|
    ensures r.Some? ==> from <= r.value < |f.children| && HitAt(f, r.value)
    ensures r.Some? ==> forall j :: from <= j < r.value ==> !HitAt(f, j)
    ensures r.None? ==> forall j :: from <= j < |f.children| ==> !HitAt(f, j)
    decreases |f.children| - from
  {
    if from == |f.children| then None
    else if HitAt(f, from) then Some(from)
    else FirstHit(f, from + 1)
  }

  /** The reported child is never one the scan filters out, and never one already resolved:
      an obstacle is reported at most once until it leaves `checked`. */
  lemma ReportedChildIsFresh(f: Frame)
    requires f.WellFormed() && FirstHit(f, 0).Some?
    ensures var k := FirstHit(f, 0).value;
      !Skipped(f.children[k], f.rightId, f.leftId) && f.children[k] !in f.checked
  {
  }

  /** Once the reported child is added to `checked`, a scan over the same children and
      boxes reports the next colliding child after it, never that child again. */
  lemma {:induction false} NextScanSkipsResolved(f: Frame)
    requires f.WellFormed() && NoDuplicates(f.children) && FirstHit(f, 0).Some?
    ensures var k := FirstHit(f, 0).value;
      FirstHit(f.(checked := f.checked + {f.children[k]}), 0) == FirstHit(f, k + 1)
  {
    var k := FirstHit(f, 0).value;
    var g := f.(checked := f.checked + {f.children[k]});
    assert g.WellFormed();
    // g tests exactly the children f tests, except the k-th
    forall j | 0 <= j < |f.children| ensures HitAt(g, j) <==> HitAt(f, j) && j != k {
      if j != k {
        assert f.children[j] != f.children[k];
      }
    }
    match FirstHit(f, k + 1)
    case None =>
      assert forall j :: 0 <= j < |g.children| ==> !HitAt(g, j);
    case Some(m) =>
      assert HitAt(g, m);
      assert forall j :: 0 <= j < m ==> !HitAt(g, j);
  }

  /** A scan reports nothing exactly when no child passes the filter and collides; it
      reports position k exactly when k is the first such child. */
  lemma FirstHitIsFirstCollision(f: Frame, k: nat)
    requires f.WellFormed() && k < |f.children|
    ensures FirstHit(f, 0) == Some(k) <==> HitAt(f, k) && forall j :: 0 <= j < k ==> !HitAt(f, j)
  {
  }
}
