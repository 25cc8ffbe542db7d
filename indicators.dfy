/** The landmark indicators, seen as values: what a pick does to the list of
    indicators, and the agreement between that list and the landmark list
    that picks keep as long as the active index stays within the list. */
module Indicators {
  import opened Geometry
  import opened PointSets

  /** The render widget an indicator is drawn in. */
  datatype View = FixedView | MovingView | MultiView

  /** The widget of the volume a side belongs to. */
  function SideView(side: Side): View {
    if side == Fixed then FixedView else MovingView
  }

  /** One indicator as the tool sees it: the landmark index it was created
      for, its flag, the widget it is drawn in, and its position. */
  datatype Mark = Mark(id: int, flag: Side, view: View, position: Point)

  /** Every indicator of landmark `a` on `side` moved to `loc`. */
  function MovedMarks(marks: seq<Mark>, a: int, side: Side, loc: Point): seq<Mark> {
    seq(|marks|, k requires 0 <= k < |marks| =>
      if marks[k].id == a && marks[k].flag == side then marks[k].(position := loc) else marks[k])
  }

  /** The indicator list after a pick of `loc` on `side` with active index
      `a` and landmark list `ps`: when `a` is below the list length, the
      indicators of that landmark and side move to `loc` first; then, when
      the pick fills an empty side, two indicators are appended, one in the
      side's widget and one in the multi widget. */
  function PickedMarks(marks: seq<Mark>, ps: seq<PointSet>, a: int, side: Side, loc: Point): (r: seq<Mark>)
    ensures |r| == |marks| + (if FillsEmptySide(ps, a, side) then 2 else 0)
    ensures forall k :: 0 <= k < |marks| ==>
      r[k] == (if a < |ps| && marks[k].id == a && marks[k].flag == side
               then marks[k].(position := loc) else marks[k])
    ensures FillsEmptySide(ps, a, side) ==>
      r[|marks|] == Mark(a, side, SideView(side), loc) && r[|marks| + 1] == Mark(a, side, MultiView, loc)
  {
    var moved := if a < |ps| then MovedMarks(marks, a, side, loc) else marks;
    if FillsEmptySide(ps, a, side)
    then moved + [Mark(a, side, SideView(side), loc), Mark(a, side, MultiView, loc)]
    else moved
  }

  /** An indicator stands for a set side of an existing pair, sits at that
      side's location, and is drawn in the side's widget or the multi widget. */
  predicate MarkAgrees(m: Mark, ps: seq<PointSet>) {
    && 0 <= m.id < |ps|
    && ps[m.id].Get(m.flag) == Some(m.position)
    && (m.view == SideView(m.flag) || m.view == MultiView)
  }

  /** The number of indicators among the first `n` that stand for landmark
      `j` on side `s` and are drawn in widget `v`. */
  function MarkCount(marks: seq<Mark>, j: int, s: Side, v: View, n: nat): (c: nat)
    requires n <= |marks|
    ensures c <= n
  {
    if n == 0 then 0
    else
      var m := marks[n - 1];
      MarkCount(marks, j, s, v, n - 1) + (if m.id == j && m.flag == s && m.view == v then 1 else 0)
  }

  /** How many indicators landmark `j` on side `s` has in widget `v` while
      the indicators agree with `ps`: one in the side's widget and one in the
      multi widget when that side of an existing pair is set, none otherwise. */
  function WantedMarks(ps: seq<PointSet>, j: int, s: Side, v: View): nat {
    if 0 <= j < |ps| && ps[j].Get(s).Some? && (v == SideView(s) || v == MultiView) then 1 else 0
  }

  /** The indicators agree with the landmark list: every indicator agrees,
      every set side of a pair has exactly one indicator in its side's
      widget and one in the multi widget, and no other landmark or side has
      any; so there are twice as many indicators as set sides. */
  ghost predicate Consistent(marks: seq<Mark>, ps: seq<PointSet>) {
    && |marks| == 2 * FilledSides(ps, |ps|)
    && (forall k :: 0 <= k < |marks| ==> MarkAgrees(marks[k], ps))
    && (forall j, s, v :: MarkCount(marks, j, s, v, |marks|) == WantedMarks(ps, j, s, v))
  }

  /** Lists whose first `n` indicators have the same landmark index, flag
      and widget have the same counts over those `n`. */
  lemma {:induction false} MarkCountAgree(m1: seq<Mark>, m2: seq<Mark>, j: int, s: Side, v: View, n: nat)
    requires n <= |m1| && n <= |m2|
    requires forall k :: 0 <= k < n ==>
      m1[k].id == m2[k].id && m1[k].flag == m2[k].flag && m1[k].view == m2[k].view
    ensures MarkCount(m1, j, s, v, n) == MarkCount(m2, j, s, v, n)
  {
    if n > 0 {
      MarkCountAgree(m1, m2, j, s, v, n - 1);
    }
  }

  /** Two indicators appended to a list add their own matches to its counts. */
  lemma TwoMoreMarks(marks: seq<Mark>, x: Mark, y: Mark, j: int, s: Side, v: View)
    ensures var r := marks + [x, y];
      MarkCount(r, j, s, v, |r|) == MarkCount(marks, j, s, v, |marks|)
        + (if x.id == j && x.flag == s && x.view == v then 1 else 0)
        + (if y.id == j && y.flag == s && y.view == v then 1 else 0)
  {
    var r := marks + [x, y];
    MarkCountAgree(r, marks, j, s, v, |marks|);
    assert MarkCount(r, j, s, v, |r|) == MarkCount(r, j, s, v, |marks| + 1)
      + (if y.id == j && y.flag == s && y.view == v then 1 else 0);
  }

  /** A pick that fills an empty side asks for one indicator more in the
      side's widget and in the multi widget for that landmark and side, and
      asks for nothing else anew. */
  lemma FillingPickWants(ps: seq<PointSet>, a: int, side: Side, loc: Point, j: int, s: Side, v: View)
    requires 0 <= a <= |ps| && FillsEmptySide(ps, a, side)
    ensures WantedMarks(PickedSets(ps, a, side, loc), j, s, v) == WantedMarks(ps, j, s, v)
      + (if j == a && s == side && (v == SideView(side) || v == MultiView) then 1 else 0)
  {
    if j == a && s != side {
      assert s == side.Other() by {
        assert side == Fixed || side == Moving;
      }
    }
  }

  /** A pick that overwrites a set side asks for the same indicators. */
  lemma OverwritingPickWants(ps: seq<PointSet>, a: int, side: Side, loc: Point, j: int, s: Side, v: View)
    requires 0 <= a <= |ps| && !FillsEmptySide(ps, a, side)
    ensures WantedMarks(PickedSets(ps, a, side, loc), j, s, v) == WantedMarks(ps, j, s, v)
  {
    if j == a && s != side {
      assert s == side.Other() by {
        assert side == Fixed || side == Moving;
      }
    }
  }

  /** A pick with the active index at most the list length keeps, for one
      landmark, side and widget, the count of indicators at what the new
      landmark list asks for. */
  lemma PickKeepsCount(marks: seq<Mark>, ps: seq<PointSet>, a: int, side: Side, loc: Point, j: int, s: Side, v: View)
    requires Consistent(marks, ps)
    requires 0 <= a <= |ps|
    ensures var marks' := PickedMarks(marks, ps, a, side, loc);
      MarkCount(marks', j, s, v, |marks'|) == WantedMarks(PickedSets(ps, a, side, loc), j, s, v)
  {
    var moved := if a < |ps| then MovedMarks(marks, a, side, loc) else marks;
    MarkCountAgree(moved, marks, j, s, v, |marks|);
    if FillsEmptySide(ps, a, side) {
      TwoMoreMarks(moved, Mark(a, side, SideView(side), loc), Mark(a, side, MultiView, loc), j, s, v);
      FillingPickWants(ps, a, side, loc, j, s, v);
    } else {
      OverwritingPickWants(ps, a, side, loc, j, s, v);
    }
  }

  /** A pick whose active index is at most the list length keeps the
      indicators in agreement with the landmark list. */
  lemma PickKeepsConsistent(marks: seq<Mark>, ps: seq<PointSet>, a: int, side: Side, loc: Point)
    requires Consistent(marks, ps)
    requires 0 <= a <= |ps|
    ensures Consistent(PickedMarks(marks, ps, a, side, loc), PickedSets(ps, a, side, loc))
  {
    var ps' := PickedSets(ps, a, side, loc);
    var marks' := PickedMarks(marks, ps, a, side, loc);
    PickFillsOneSide(ps, a, side, loc);
    forall k | 0 <= k < |marks'|
      ensures MarkAgrees(marks'[k], ps')
    {
      if k < |marks| {
        var m := marks[k];
        assert MarkAgrees(m, ps);
        if m.id == a && m.flag == side {
          assert a < |ps|;
        } else if m.id == a {
          assert m.flag == side.Other() by {
            assert side == Fixed || side == Moving;
            assert m.flag == Fixed || m.flag == Moving;
          }
        }
      }
    }
    forall j, s, v
      ensures MarkCount(marks', j, s, v, |marks'|) == WantedMarks(ps', j, s, v)
    {
      PickKeepsCount(marks, ps, a, side, loc, j, s, v);
    }
  }

  /** A pick whose active index lies before the start of the list raises
      IndexError and writes no pair; while the indicators agree, none carries
      a negative index, so the indicator move touches none of them and the
      agreement is kept. */
  lemma {:induction false} PickBeforeStartKeepsConsistent(marks: seq<Mark>, ps: seq<PointSet>, a: int, side: Side, loc: Point)
    requires Consistent(marks, ps)
    requires a < -|ps|
    ensures PickSlot(ps, a) == None
    ensures Consistent(PickedMarks(marks, ps, a, side, loc), ps)
  {
    var marks' := PickedMarks(marks, ps, a, side, loc);
    forall k | 0 <= k < |marks|
      ensures marks'[k] == marks[k]
    {
      assert MarkAgrees(marks[k], ps);
    }
    assert marks' == marks;
  }

  /** A pick whose active index lies past the end of the list, or is a
      negative index naming a pair whose side is empty, creates indicators
      whose landmark index is not the position of the pair that was
      written, so the agreement is lost. */
  lemma PickOutOfRangeBreaksConsistency(marks: seq<Mark>, ps: seq<PointSet>, a: int, side: Side, loc: Point)
    requires Consistent(marks, ps)
    requires a > |ps| || (-|ps| <= a < 0 && ps[|ps| + a].Get(side) == None)
    ensures !Consistent(PickedMarks(marks, ps, a, side, loc), PickedSets(ps, a, side, loc))
  {
    var ps' := PickedSets(ps, a, side, loc);
    var marks' := PickedMarks(marks, ps, a, side, loc);
    assert FillsEmptySide(ps, a, side);
    assert marks'[|marks|].id == a;
    assert !MarkAgrees(marks'[|marks|], ps');
  }
}
