/** The landmark transformation tool: the objects whose fields it updates in
    place (its own landmark list, indicator list, active index and type code,
    the indicators themselves, and the multi widget's transformation stack)
    and the operations that update them. */
module LandmarkTool {
  import opened Geometry
  import opened PointSets
  import opened Indicators

  /** Whether an operation finished or stopped on Python's IndexError. */
  datatype Outcome = Done | IndexError

  /** A landmark indicator: a sphere drawn at a landmark in one widget. The
      tool reassigns its position and its active flag. */
  class Indicator {
    const id: int
    const flag: Side
    const view: View
    var position: Point
    var active: bool

    constructor (id: int, flag: Side, view: View, position: Point)
      ensures this.id == id && this.flag == flag && this.view == view
      ensures this.position == position
    {
      this.id := id;
      this.flag := flag;
      this.view := view;
      this.position := position;
      active := false;
    }

    function AsMark(): Mark
      reads this
    {
      Mark(id, flag, view, position)
    }
  }

  /** The indicators of `inds` as values. */
  function MarksOf(inds: seq<Indicator>): (r: seq<Mark>)
    reads set i | i in inds
    ensures |r| == |inds|
    ensures forall k :: 0 <= k < |inds| ==> r[k] == inds[k].AsMark()
  {
    seq(|inds|, k requires 0 <= k < |inds| reads set i | i in inds => inds[k].AsMark())
  }

  /** The multi widget's stack of transformations. */
  class TransformationStack {
    var entries: seq<Transformation>

    constructor (entries: seq<Transformation>)
      ensures this.entries == entries
    {
      this.entries := entries;
    }
  }

  /** The transformation the landmark solver yields for landmark list `ps`:
      the inverse of the solution for the fixed landmarks of the complete
      pairs as source and their moving landmarks, each carried through the
      original transform, as target, in the mode the type code selects. */
  function SolvedTransformation(lib: Library, original: Matrix, ps: seq<PointSet>, typeCode: int): Transformation {
    var target := Transformed(lib.transformPoint, original, MovingLandmarks(ps, |ps|));
    Transformation(lib.invert(lib.solve(ModeOf(typeCode), FixedLandmarks(ps, |ps|), target)), TypeLandmark)
  }

  class LandmarkTransformationTool {
    const lib: Library
    var landmarkPointSets: seq<PointSet>
    var landmarkIndicators: seq<Indicator>
    var originalTransform: Option<Matrix>
    var activeIndex: int
    var landmarkTransformType: int
    /** The multi widget's transformation stack; null until the render
        widgets are set. */
    var transformations: TransformationStack?

    constructor (lib: Library)
      ensures this.lib == lib
      ensures landmarkPointSets == [] && landmarkIndicators == []
      ensures originalTransform == None && transformations == null
      ensures activeIndex == 0 && landmarkTransformType == 0
      ensures IndicatorsAgree()
    {
      this.lib := lib;
      landmarkPointSets := [];
      landmarkIndicators := [];
      originalTransform := None;
      activeIndex := 0;
      landmarkTransformType := 0;
      transformations := null;
    }

    /** The render widgets are set, which also connects the pickers. */
    predicate Ready()
      reads this
    {
      transformations != null && originalTransform.Some?
    }

    /** The indicators as values. */
    function Marks(): seq<Mark>
      reads this, set i | i in landmarkIndicators
    {
      MarksOf(landmarkIndicators)
    }

    /** The indicators agree with the landmark list. */
    ghost predicate IndicatorsAgree()
      reads this, set i | i in landmarkIndicators
    {
      Consistent(Marks(), landmarkPointSets)
    }

    /** Records the transform in place so far and pushes a new landmark
        transformation, initially the identity, on the multi widget's stack. */
    method SetRenderWidgets(stack: TransformationStack)
      modifies this`transformations, this`originalTransform, stack
      ensures Ready() && transformations == stack
      ensures originalTransform == Some(lib.completeTransform(old(stack.entries)))
      ensures stack.entries == old(stack.entries) + [Transformation(Identity, TypeLandmark)]
    {
      transformations := stack;
      originalTransform := Some(lib.completeTransform(stack.entries));
      stack.entries := stack.entries + [Transformation(Identity, TypeLandmark)];
    }

    /** Removes the top of the transformation stack; an empty stack raises
        IndexError and stays empty. */
    method CancelTransform() returns (outcome: Outcome)
      requires transformations != null
      modifies transformations
      ensures old(transformations.entries) == [] ==> outcome == IndexError && transformations.entries == []
      ensures old(transformations.entries) != [] ==>
        outcome == Done && transformations.entries == old(transformations.entries)[..|old(transformations.entries)| - 1]
    {
      var n := |transformations.entries|;
      if n == 0 {
        return IndexError;
      }
      transformations.entries := transformations.entries[..n - 1];
      outcome := Done;
    }

    /** Empties the landmark list; the indicator list keeps its entries. */
    method CleanUp()
      modifies this`landmarkPointSets
      ensures landmarkPointSets == []
    {
      landmarkPointSets := [];
    }

    /** Marks as active exactly the indicators of the active landmark. */
    method Update()
      modifies set i | i in landmarkIndicators
      ensures forall k :: 0 <= k < |landmarkIndicators| ==>
        landmarkIndicators[k].active == (landmarkIndicators[k].id == activeIndex)
      ensures forall k :: 0 <= k < |landmarkIndicators| ==>
        landmarkIndicators[k].position == old(landmarkIndicators[k].position)
      ensures Marks() == old(Marks())
    {
      for k := 0 to |landmarkIndicators|
        invariant forall j :: 0 <= j < k ==>
          landmarkIndicators[j].active == (landmarkIndicators[j].id == activeIndex)
        invariant forall j :: 0 <= j < |landmarkIndicators| ==>
          landmarkIndicators[j].position == old(landmarkIndicators[j].position)
      {
        var landmark := landmarkIndicators[k];
        landmark.active := landmark.id == activeIndex;
      }
    }

    /** Replaces the top of the transformation stack with the landmark
        solution for the complete pairs; does nothing while no pair is
        complete, and raises IndexError on an empty stack. Complete pairs
        only come from picks, which the pickers deliver once the render
        widgets are set. */
    method UpdateTransform() returns (outcome: Outcome)
      requires Ready() || PointsSetsIsEmpty(landmarkPointSets)
      modifies transformations
      ensures PointsSetsIsEmpty(landmarkPointSets) ==> outcome == Done
      ensures PointsSetsIsEmpty(landmarkPointSets) && transformations != null ==>
        transformations.entries == old(transformations.entries)
      ensures !PointsSetsIsEmpty(landmarkPointSets) ==>
        var before := old(transformations.entries);
        if before == [] then
          outcome == IndexError && transformations.entries == before
        else
          && outcome == Done
          && transformations.entries == before[..|before| - 1] +
               [SolvedTransformation(lib, originalTransform.value, landmarkPointSets, landmarkTransformType)]
    {
      if PointsSetsIsEmpty(landmarkPointSets) {
        return Done;
      }
      var fixedPoints, movingPoints :=
        CompactSets(landmarkPointSets, originalTransform.value, lib.transformPoint);
      var mode := ModeOf(landmarkTransformType);
      var matrix := lib.solve(mode, fixedPoints[..], movingPoints[..]);
      var inverse := lib.invert(matrix);
      var n := |transformations.entries|;
      if n == 0 {
        return IndexError;
      }
      transformations.entries := transformations.entries[..n - 1] + [Transformation(inverse, TypeLandmark)];
      outcome := Done;
    }

    /** Selects another landmark and refreshes the active flags. */
    method SetActiveLandmark(index: int)
      modifies this`activeIndex, set i | i in landmarkIndicators
      ensures activeIndex == index
      ensures forall k :: 0 <= k < |landmarkIndicators| ==>
        landmarkIndicators[k].active == (landmarkIndicators[k].id == index)
      ensures Marks() == old(Marks())
    {
      activeIndex := index;
      Update();
    }

    /** Selects another solver mode and recomputes the landmark transform. */
    method LandmarkTypeChanged(value: int) returns (outcome: Outcome)
      requires Ready() || PointsSetsIsEmpty(landmarkPointSets)
      modifies this`landmarkTransformType, transformations
      ensures landmarkTransformType == value
      ensures PointsSetsIsEmpty(landmarkPointSets) ==> outcome == Done
      ensures PointsSetsIsEmpty(landmarkPointSets) && transformations != null ==>
        transformations.entries == old(transformations.entries)
      ensures !PointsSetsIsEmpty(landmarkPointSets) ==>
        var before := old(transformations.entries);
        if before == [] then
          outcome == IndexError && transformations.entries == before
        else
          && outcome == Done
          && transformations.entries == before[..|before| - 1] +
               [SolvedTransformation(lib, originalTransform.value, landmarkPointSets, value)]
    {
      landmarkTransformType := value;
      outcome := UpdateTransform();
    }

    /** Moves every indicator of the active landmark on `side` to `location`. */
    method MoveIndicators(location: Point, side: Side)
      modifies set i | i in landmarkIndicators
      ensures Marks() == MovedMarks(old(Marks()), activeIndex, side, location)
      ensures forall k :: 0 <= k < |landmarkIndicators| ==>
        landmarkIndicators[k].active == old(landmarkIndicators[k].active)
    {
      for k := 0 to |landmarkIndicators|
        invariant forall j :: 0 <= j < k && landmarkIndicators[j].id == activeIndex && landmarkIndicators[j].flag == side ==>
          landmarkIndicators[j].position == location
        invariant forall j :: 0 <= j < |landmarkIndicators| && !(landmarkIndicators[j].id == activeIndex && landmarkIndicators[j].flag == side) ==>
          landmarkIndicators[j].position == old(landmarkIndicators[j].position)
        invariant forall j :: 0 <= j < |landmarkIndicators| ==>
          landmarkIndicators[j].active == old(landmarkIndicators[j].active)
      {
        var landmark := landmarkIndicators[k];
        if landmark.id == activeIndex && landmark.flag == side {
          landmark.position := location;
        }
      }
    }

    /** Appends two new indicators for the active landmark at `location`:
        one in the picked side's widget, one in the multi widget. */
    method AddLandmarkIndicator(location: Point, side: Side)
      modifies this`landmarkIndicators
      ensures |landmarkIndicators| == |old(landmarkIndicators)| + 2
      ensures landmarkIndicators[..|old(landmarkIndicators)|] == old(landmarkIndicators)
      ensures fresh(landmarkIndicators[|old(landmarkIndicators)|])
      ensures fresh(landmarkIndicators[|old(landmarkIndicators)| + 1])
      ensures Marks() == old(Marks()) +
        [Mark(activeIndex, side, SideView(side), location), Mark(activeIndex, side, MultiView, location)]
    {
      var landmark := new Indicator(activeIndex, side, SideView(side), location);
      var landmarkMulti := new Indicator(activeIndex, side, MultiView, location);
      landmarkIndicators := landmarkIndicators + [landmark, landmarkMulti];
    }

    /** The list part of a pick of `location` on `side`: an existing pair
        is updated when the active index is below the list length, and a new
        pair is appended otherwise. */
    method RecordPick(location: Point, side: Side) returns (outcome: Outcome)
      modifies this`landmarkPointSets, this`landmarkIndicators, set i | i in landmarkIndicators
      ensures outcome == IndexError <==> PickSlot(old(landmarkPointSets), activeIndex) == None
      ensures outcome == IndexError ==> landmarkPointSets == old(landmarkPointSets)
      ensures outcome == Done ==>
        landmarkPointSets == PickedSets(old(landmarkPointSets), activeIndex, side, location)
      ensures Marks() == PickedMarks(old(Marks()), old(landmarkPointSets), activeIndex, side, location)
      ensures landmarkIndicators[..|old(landmarkIndicators)|] == old(landmarkIndicators)
      ensures forall k :: |old(landmarkIndicators)| <= k < |landmarkIndicators| ==> fresh(landmarkIndicators[k])
      ensures forall k :: 0 <= k < |old(landmarkIndicators)| ==>
        landmarkIndicators[k].active == old(landmarkIndicators[k].active)
      ensures old(IndicatorsAgree()) && 0 <= activeIndex <= |old(landmarkPointSets)| ==> IndicatorsAgree()
    {
      ghost var marks0, ps0 := Marks(), landmarkPointSets;
      if activeIndex < |landmarkPointSets| {
        outcome := UpdateLandmark(location, side);
      } else {
        AppendLandmark(location, side);
        outcome := Done;
      }
      if outcome == Done && Consistent(marks0, ps0) && 0 <= activeIndex <= |ps0| {
        PickKeepsConsistent(marks0, ps0, activeIndex, side, location);
      }
    }

    /** A pick while the active index is below the list length: the
        indicators of the active landmark on `side` move to `location`; then
        the index is read as Python reads it, and one before the start of the
        list raises IndexError; otherwise two indicators are added if that
        side of the pair was empty, and that side is set to `location`. */
    method UpdateLandmark(location: Point, side: Side) returns (outcome: Outcome)
      requires activeIndex < |landmarkPointSets|
      modifies this`landmarkPointSets, this`landmarkIndicators, set i | i in landmarkIndicators
      ensures outcome == IndexError <==> PickSlot(old(landmarkPointSets), activeIndex) == None
      ensures outcome == IndexError ==> landmarkPointSets == old(landmarkPointSets)
      ensures outcome == Done ==>
        landmarkPointSets == PickedSets(old(landmarkPointSets), activeIndex, side, location)
      ensures Marks() == PickedMarks(old(Marks()), old(landmarkPointSets), activeIndex, side, location)
      ensures landmarkIndicators[..|old(landmarkIndicators)|] == old(landmarkIndicators)
      ensures forall k :: |old(landmarkIndicators)| <= k < |landmarkIndicators| ==> fresh(landmarkIndicators[k])
      ensures forall k :: 0 <= k < |old(landmarkIndicators)| ==>
        landmarkIndicators[k].active == old(landmarkIndicators[k].active)
    {
      ghost var marks0, ps0 := Marks(), landmarkPointSets;
      MoveIndicators(location, side);
      ghost var moved := Marks();
      var index := if activeIndex >= 0 then activeIndex else |landmarkPointSets| + activeIndex;
      if index < 0 {
        assert !FillsEmptySide(ps0, activeIndex, side);
        return IndexError;
      }
      if landmarkPointSets[index].Get(side) == None {
        AddLandmarkIndicator(location, side);
        assert FillsEmptySide(ps0, activeIndex, side);
        assert Marks() == moved + [Mark(activeIndex, side, SideView(side), location),
                                   Mark(activeIndex, side, MultiView, location)];
      } else {
        assert !FillsEmptySide(ps0, activeIndex, side);
      }
      landmarkPointSets := landmarkPointSets[index := landmarkPointSets[index].Put(side, location)];
      outcome := Done;
    }

    /** A pick while the active index is at or past the list length: a new
        pair with only `side` set is appended, with two indicators. */
    method AppendLandmark(location: Point, side: Side)
      requires activeIndex >= |landmarkPointSets|
      modifies this`landmarkPointSets, this`landmarkIndicators
      ensures landmarkPointSets == PickedSets(old(landmarkPointSets), activeIndex, side, location)
      ensures Marks() == PickedMarks(old(Marks()), old(landmarkPointSets), activeIndex, side, location)
      ensures landmarkIndicators[..|old(landmarkIndicators)|] == old(landmarkIndicators)
      ensures forall k :: |old(landmarkIndicators)| <= k < |landmarkIndicators| ==> fresh(landmarkIndicators[k])
    {
      ghost var ps0 := landmarkPointSets;
      var landmarkSet := if side == Fixed then PointSet(Some(location), None) else PointSet(None, Some(location));
      landmarkPointSets := landmarkPointSets + [landmarkSet];
      AddLandmarkIndicator(location, side);
      assert FillsEmptySide(ps0, activeIndex, side);
    }

    /** A location picked on `side`: the list part of the pick, then the
        landmark transform is recomputed and the active flags refreshed.
        An IndexError stops the pick where it is raised. */
    method PickedLocation(location: Point, side: Side) returns (outcome: Outcome)
      requires Ready()
      modifies this`landmarkPointSets, this`landmarkIndicators, (set i | i in landmarkIndicators), transformations
      ensures PickSlot(old(landmarkPointSets), activeIndex) == None ==>
        && outcome == IndexError
        && landmarkPointSets == old(landmarkPointSets)
        && transformations.entries == old(transformations.entries)
      ensures PickSlot(old(landmarkPointSets), activeIndex).Some? ==>
        landmarkPointSets == PickedSets(old(landmarkPointSets), activeIndex, side, location)
      ensures Marks() == PickedMarks(old(Marks()), old(landmarkPointSets), activeIndex, side, location)
      ensures landmarkIndicators[..|old(landmarkIndicators)|] == old(landmarkIndicators)
      ensures forall k :: |old(landmarkIndicators)| <= k < |landmarkIndicators| ==> fresh(landmarkIndicators[k])
      ensures PickSlot(old(landmarkPointSets), activeIndex).Some? ==>
        var before := old(transformations.entries);
        if PointsSetsIsEmpty(landmarkPointSets) then
          outcome == Done && transformations.entries == before
        else if before == [] then
          outcome == IndexError && transformations.entries == before
        else
          && outcome == Done
          && transformations.entries == before[..|before| - 1] +
               [SolvedTransformation(lib, originalTransform.value, landmarkPointSets, landmarkTransformType)]
      ensures outcome == Done ==> forall k :: 0 <= k < |landmarkIndicators| ==>
        landmarkIndicators[k].active == (landmarkIndicators[k].id == activeIndex)
      ensures outcome == IndexError ==> forall k :: 0 <= k < |old(landmarkIndicators)| ==>
        landmarkIndicators[k].active == old(landmarkIndicators[k].active)
      ensures old(IndicatorsAgree()) && 0 <= activeIndex <= |old(landmarkPointSets)| ==> IndicatorsAgree()
    {
      outcome := RecordPick(location, side);
      if outcome == IndexError {
        return;
      }
      outcome := UpdateTransform();
      if outcome == IndexError {
        return;
      }
      Update();
    }
  }

  /** Starting the tool and then cancelling it leaves the multi widget's
      transformation stack as it was. */
  method StartThenCancel(tool: LandmarkTransformationTool, stack: TransformationStack)
    modifies tool, stack
    ensures stack.entries == old(stack.entries)
  {
    tool.SetRenderWidgets(stack);
    var outcome := tool.CancelTransform();
    assert outcome == Done;
  }
}
