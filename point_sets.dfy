/** The landmark list of the landmark transformation tool: a list of
    [fixed, moving] pairs whose sides are filled in one pick at a time, the
    count and the compaction of the complete pairs that feed the landmark
    solver, the choice of solver mode, and what one pick does to the list. */
module PointSets {
  import opened Geometry

  /** Which volume a landmark belongs to: the flag "fixed" or "moving". */
  datatype Side = Fixed | Moving {
    function Other(): (s: Side)
      ensures s != this
    {
      if this == Fixed then Moving else Fixed
    }
  }

  /** One entry of the landmark list: index 0 is the fixed side, index 1 the
      moving side, and either may still be None. */
  datatype PointSet = PointSet(fixed: Option<Point>, moving: Option<Point>) {

    /** Both landmarks of the pair are set. */
    predicate Complete() {
      fixed.Some? && moving.Some?
    }

    function Get(side: Side): Option<Point> {
      if side == Fixed then fixed else moving
    }

    /** The pair with one side set to `p`; the other side is kept. */
    function Put(side: Side, p: Point): (r: PointSet)
      ensures r.Get(side) == Some(p)
      ensures r.Get(side.Other()) == Get(side.Other())
    {
      if side == Fixed then PointSet(Some(p), moving) else PointSet(fixed, Some(p))
    }

    /** How many of the two sides are set. */
    function Filled(): (n: nat)
      ensures n <= 2
      ensures n == 2 <==> Complete()
    {
      (if fixed.Some? then 1 else 0) + (if moving.Some? then 1 else 0)
    }
  }

  const EmptySet: PointSet := PointSet(None, None)

  // ---------------------------------------------------------------------------
  // Counting complete pairs. Every count and list below is taken over the
  // first `n` pairs of `ps`; the whole list is `n == |ps|`.

  /** The number of complete pairs among the first `n`. */
  function CompleteCount(ps: seq<PointSet>, n: nat): (c: nat)
    requires n <= |ps|
    ensures c <= n
  {
    if n == 0 then 0 else CompleteCount(ps, n - 1) + (if ps[n - 1].Complete() then 1 else 0)
  }

  /** The number of set sides among the first `n` pairs. */
  function FilledSides(ps: seq<PointSet>, n: nat): (c: nat)
    requires n <= |ps|
    ensures c <= 2 * n
  {
    if n == 0 then 0 else FilledSides(ps, n - 1) + ps[n - 1].Filled()
  }

  /** The positions of the complete pairs among the first `n`, in increasing
      order, each of them once. */
  function CompleteIndices(ps: seq<PointSet>, n: nat): (r: seq<nat>)
    requires n <= |ps|
    ensures |r| == CompleteCount(ps, n)
    ensures forall k :: 0 <= k < |r| ==> r[k] < n && ps[r[k]].Complete()
    ensures forall k, l :: 0 <= k < l < |r| ==> r[k] < r[l]
    ensures forall j :: 0 <= j < n && ps[j].Complete() ==> j in r
  {
    if n == 0 then []
    else
      var r0 := CompleteIndices(ps, n - 1);
      if ps[n - 1].Complete() then r0 + [n - 1] else r0
  }

  /** The fixed landmarks of the complete pairs among the first `n`, in
      list order. */
  function FixedLandmarks(ps: seq<PointSet>, n: nat): (r: seq<Point>)
    requires n <= |ps|
    ensures |r| == CompleteCount(ps, n)
  {
    if n == 0 then []
    else FixedLandmarks(ps, n - 1) + (if ps[n - 1].Complete() then [ps[n - 1].fixed.value] else [])
  }

  /** The moving landmarks of the complete pairs among the first `n`, in
      list order. */
  function MovingLandmarks(ps: seq<PointSet>, n: nat): (r: seq<Point>)
    requires n <= |ps|
    ensures |r| == CompleteCount(ps, n)
  {
    if n == 0 then []
    else MovingLandmarks(ps, n - 1) + (if ps[n - 1].Complete() then [ps[n - 1].moving.value] else [])
  }

  /** Two lists that agree on their first `n` pairs have the same counts and
      landmark lists over them. */
  lemma {:induction false} PrefixAgree(ps: seq<PointSet>, qs: seq<PointSet>, n: nat)
    requires n <= |ps| && n <= |qs|
    requires forall j :: 0 <= j < n ==> ps[j] == qs[j]
    ensures CompleteCount(ps, n) == CompleteCount(qs, n)
    ensures FilledSides(ps, n) == FilledSides(qs, n)
    ensures FixedLandmarks(ps, n) == FixedLandmarks(qs, n)
    ensures MovingLandmarks(ps, n) == MovingLandmarks(qs, n)
  {
    if n > 0 {
      PrefixAgree(ps, qs, n - 1);
    }
  }

  /** A longer prefix holds at least as many complete pairs. */
  lemma {:induction false} CompleteCountGrows(ps: seq<PointSet>, i: nat, j: nat)
    requires i <= j <= |ps|
    ensures CompleteCount(ps, i) <= CompleteCount(ps, j)
  {
    if i < j {
      CompleteCountGrows(ps, i, j - 1);
    }
  }

  /** The count is zero exactly when no pair is complete. */
  lemma {:induction false} NoCompleteSets(ps: seq<PointSet>, n: nat)
    requires n <= |ps|
    ensures CompleteCount(ps, n) == 0 <==> forall i :: 0 <= i < n ==> !ps[i].Complete()
  {
    if n > 0 {
      NoCompleteSets(ps, n - 1);
    }
  }

  /** True when no pair in `points` has both landmarks set. */
  function PointsSetsIsEmpty(points: seq<PointSet>): (r: bool)
    ensures r <==> forall i :: 0 <= i < |points| ==> !points[i].Complete()
  {
    NoCompleteSets(points, |points|);
    CompleteCount(points, |points|) == 0
  }

  /** The number of pairs whose fixed and moving landmarks are both set. */
  method NumberOfSets(points: seq<PointSet>) returns (count: nat)
    ensures count == CompleteCount(points, |points|)
    ensures count <= |points|
  {
    count := 0;
    for i := 0 to |points|
      invariant count == CompleteCount(points, i)
    {
      if points[i].fixed.Some? && points[i].moving.Some? {
        count := count + 1;
      }
    }
  }

  // ---------------------------------------------------------------------------
  // Compacting the complete pairs

  /** Entry k of the fixed list and entry k of the moving list come from the
      same pair: the k-th complete pair of the list. */
  lemma {:induction false} LandmarksArePaired(ps: seq<PointSet>, n: nat, k: nat)
    requires n <= |ps|
    requires k < CompleteCount(ps, n)
    ensures var j := CompleteIndices(ps, n)[k];
      FixedLandmarks(ps, n)[k] == ps[j].fixed.value && MovingLandmarks(ps, n)[k] == ps[j].moving.value
  {
    if k < CompleteCount(ps, n - 1) {
      LandmarksArePaired(ps, n - 1, k);
    }
  }

  /** Each point of `pts` mapped through `transformPoint` with matrix `m`. */
  function Transformed(transformPoint: (Matrix, Point) -> Point, m: Matrix, pts: seq<Point>): seq<Point> {
    seq(|pts|, k requires 0 <= k < |pts| => transformPoint(m, pts[k]))
  }

  /** The compaction step of the transform update: two point buffers sized by
      the number of complete pairs, filled slot by slot with the complete
      pairs in list order; each moving landmark goes through the transform
      that was in place before the tool started. */
  method CompactSets(ps: seq<PointSet>, original: Matrix, transformPoint: (Matrix, Point) -> Point)
    returns (fixedPoints: array<Point>, movingPoints: array<Point>)
    ensures fixedPoints.Length == CompleteCount(ps, |ps|) && movingPoints.Length == CompleteCount(ps, |ps|)
    ensures fixedPoints[..] == FixedLandmarks(ps, |ps|)
    ensures movingPoints[..] == Transformed(transformPoint, original, MovingLandmarks(ps, |ps|))
  {
    var numberOfSets := NumberOfSets(ps);
    fixedPoints := new Point[numberOfSets];
    movingPoints := new Point[numberOfSets];
    var pointsetIndex := 0;
    for index := 0 to |ps|
      invariant pointsetIndex == CompleteCount(ps, index) <= numberOfSets
      invariant forall j :: 0 <= j < pointsetIndex ==> fixedPoints[j] == FixedLandmarks(ps, index)[j]
      invariant forall j :: 0 <= j < pointsetIndex ==>
        movingPoints[j] == transformPoint(original, MovingLandmarks(ps, index)[j])
    {
      var pointset := ps[index];
      if pointset.fixed.Some? && pointset.moving.Some? {
        CompleteCountGrows(ps, index + 1, |ps|);
        fixedPoints[pointsetIndex] := pointset.fixed.value;
        movingPoints[pointsetIndex] := transformPoint(original, pointset.moving.value);
        pointsetIndex := pointsetIndex + 1;
      }
    }
  }

  // ---------------------------------------------------------------------------
  // Solver mode

  /** The position of a mode in the tool's "Transform type" combo box. */
  function ComboIndex(mode: SolverMode): nat {
    match mode
    case RigidBody => 0
    case Similarity => 1
    case Affine => 2
  }

  /** The solver mode selected by a type code: the mode listed at that
      position of the combo box, and none for any other code. */
  function ModeOf(code: int): (m: Option<SolverMode>)
    ensures m.Some? <==> 0 <= code <= 2
    ensures m.Some? ==> ComboIndex(m.value) == code
  {
    if code == 0 then Some(RigidBody)
    else if code == 1 then Some(Similarity)
    else if code == 2 then Some(Affine)
    else None
  }

  // ---------------------------------------------------------------------------
  // One pick

  /** The pair a pick with active index `a` writes. Below the list length
      the index is read as Python reads it (a negative index counts from the
      end, and one before the start is None: an IndexError). At or beyond
      the length, a new pair is appended at the end, whatever `a` is. */
  function PickSlot(ps: seq<PointSet>, a: int): (r: Option<nat>)
    ensures r == None <==> a < -|ps|
    ensures r.Some? ==> r.value <= |ps|
    ensures r.Some? && r.value == |ps| <==> a >= |ps|
    ensures r.Some? && 0 <= a < |ps| ==> r.value == a
    ensures -|ps| <= a < 0 ==> r == Some(|ps| + a)
  {
    if a >= |ps| then Some(|ps|)
    else if a >= 0 then Some(a)
    else if a >= -|ps| then Some(|ps| + a)
    else None
  }

  /** The landmark list after a pick of `loc` on `side` with active index `a`. */
  function PickedSets(ps: seq<PointSet>, a: int, side: Side, loc: Point): (r: seq<PointSet>)
    requires PickSlot(ps, a).Some?
    ensures var s := PickSlot(ps, a).value;
      && |r| == (if s == |ps| then |ps| + 1 else |ps|)
      && r[s].Get(side) == Some(loc)
      && r[s].Get(side.Other()) == (if s == |ps| then None else ps[s].Get(side.Other()))
      && (forall j :: 0 <= j < |ps| && j != s ==> r[j] == ps[j])
  {
    var s := PickSlot(ps, a).value;
    if s < |ps| then ps[s := ps[s].Put(side, loc)]
    else ps + [EmptySet.Put(side, loc)]
  }

  /** Whether a pick fills a side that was empty, which is when the tool
      adds indicators: a new pair, or an empty side of an existing pair. */
  predicate FillsEmptySide(ps: seq<PointSet>, a: int, side: Side) {
    match PickSlot(ps, a)
    case None => false
    case Some(s) => s == |ps| || ps[s].Get(side) == None
  }

  lemma {:induction false} FilledSidesUpdate(ps: seq<PointSet>, i: nat, x: PointSet, n: nat)
    requires i < n <= |ps|
    ensures FilledSides(ps[i := x], n) + ps[i].Filled() == FilledSides(ps, n) + x.Filled()
  {
    if i < n - 1 {
      FilledSidesUpdate(ps, i, x, n - 1);
    } else {
      PrefixAgree(ps[i := x], ps, n - 1);
    }
  }

  lemma {:induction false} CompleteCountUpdate(ps: seq<PointSet>, i: nat, x: PointSet, n: nat)
    requires i < n <= |ps|
    ensures CompleteCount(ps[i := x], n) + (if ps[i].Complete() then 1 else 0)
         == CompleteCount(ps, n) + (if x.Complete() then 1 else 0)
  {
    if i < n - 1 {
      CompleteCountUpdate(ps, i, x, n - 1);
    } else {
      PrefixAgree(ps[i := x], ps, n - 1);
    }
  }

  /** A pick sets exactly one more side when it fills an empty one, and
      none when it overwrites a set side. */
  lemma PickFillsOneSide(ps: seq<PointSet>, a: int, side: Side, loc: Point)
    requires PickSlot(ps, a).Some?
    ensures var ps' := PickedSets(ps, a, side, loc);
      FilledSides(ps', |ps'|) == FilledSides(ps, |ps|) + (if FillsEmptySide(ps, a, side) then 1 else 0)
  {
    var s := PickSlot(ps, a).value;
    if s < |ps| {
      FilledSidesUpdate(ps, s, ps[s].Put(side, loc), |ps|);
    } else {
      PrefixAgree(ps + [EmptySet.Put(side, loc)], ps, |ps|);
    }
  }

  /** A pick never loses a complete pair and completes at most one: the
      written pair, exactly when its other side was already set. */
  lemma PickCompletesAtMostOne(ps: seq<PointSet>, a: int, side: Side, loc: Point)
    requires PickSlot(ps, a).Some?
    ensures var s := PickSlot(ps, a).value;
      var ps' := PickedSets(ps, a, side, loc);
      var completes := s < |ps| && !ps[s].Complete() && ps[s].Get(side.Other()).Some?;
      CompleteCount(ps', |ps'|) == CompleteCount(ps, |ps|) + (if completes then 1 else 0)
  {
    var s := PickSlot(ps, a).value;
    if s < |ps| {
      CompleteCountUpdate(ps, s, ps[s].Put(side, loc), |ps|);
      assert ps[s].Put(side, loc).Complete() <==> ps[s].Get(side.Other()).Some? by {
        assert side == Fixed || side == Moving;
      }
    } else {
      var x := EmptySet.Put(side, loc);
      PrefixAgree(ps + [x], ps, |ps|);
      assert !x.Complete() by {
        assert x.Get(side.Other()) == None;
        assert side == Fixed || side == Moving;
      }
    }
  }

  /** With the active index past the end of the list, a fixed pick and then
      a moving pick land in two different new pairs, and no pair is
      completed; at the end of the list the second pick completes the pair
      the first one opened. */
  lemma PicksPastTheEndNeverPair(ps: seq<PointSet>, a: int, p: Point, q: Point)
    requires a >= |ps|
    ensures var once := PickedSets(ps, a, Fixed, p);
      var twice := PickedSets(once, a, Moving, q);
      && |twice| == (if a == |ps| then |ps| + 1 else |ps| + 2)
      && CompleteCount(twice, |twice|) == CompleteCount(ps, |ps|) + (if a == |ps| then 1 else 0)
  {
    var once := PickedSets(ps, a, Fixed, p);
    PickCompletesAtMostOne(ps, a, Fixed, p);
    PickCompletesAtMostOne(once, a, Moving, q);
  }
}
