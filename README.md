# Landmark bookkeeping of the landmark transformation tool

Registrationshop is a desktop application for registering medical volumes.
Its landmark transformation tool lets the user place pairs of landmarks, one
in the fixed volume and one in the moving volume, and keeps a landmark
transform on top of the multi widget's stack of transformations. This
project models the bookkeeping behind that tool, without the GUI toolkit
and without the visualisation library's numerics:

- the landmark list: a list of `[fixed, moving]` pairs, each side empty
  (None) or set to a picked location (`PointSets.PointSet`);
- the indicator list: spheres drawn at the landmarks, each created for a
  landmark index and a flag ("fixed" or "moving") in one widget, whose
  position and active flag the tool reassigns in place
  (`LandmarkTool.Indicator`, seen as values through `Indicators.Mark`);
- the active index and the transform type code;
- the multi widget's transformation stack, which the tool pushes when it
  starts, replaces on top while landmarks change, and pops on cancel
  (`LandmarkTool.TransformationStack`).

`LandmarkTool.LandmarkTransformationTool` is a class with these fields and
one method per operation of the tool. Each method is proved against value
functions: `PointSets.PickedSets` and `Indicators.PickedMarks` for a pick,
and `PointSets.CompleteCount`, `FixedLandmarks` and `MovingLandmarks` for
counting and compacting complete pairs. The lemmas about those functions
state what a pick does to the counts, and that indicators stay in agreement
with the landmark list.

The library calls are fields of a `Geometry.Library` value, and the model
knows nothing about them beyond their types. They are the landmark solver,
applying a matrix to a point, inverting a matrix, and composing the stack
into one transform.

Python semantics kept explicit:

- The active index is an `int`. Below the list length it indexes the way
  Python does: a negative index counts from the end, and an index before
  the start raises IndexError. By then the matching indicators have already
  moved.
- `lst[-1] = x` and `del lst[-1]` on an empty transformation stack raise
  IndexError. The model reports this as the `IndexError` outcome and leaves
  the stack unchanged.
- `NumberOfSets` tests `is not None` while `_updateTransform` and
  `_pickedLocation` test truthiness. A picked location is a list of three
  coordinates, so both tests agree, and the model uses `Some?` for both.

The tool starts with the indicators in agreement with the landmark list.
The agreement says that every indicator stands for a set side of an
existing pair and sits at that side's location. It also says that every set
side has exactly one indicator in its side's widget and one in the multi
widget, and that nothing else has any.

Every pick that sees `0 <= activeIndex <= len(landmarkPointSets)` keeps the
agreement (`Indicators.PickKeepsConsistent`). So does a pick whose index
lies before the start of the list: it raises IndexError and moves no
indicator (`Indicators.PickBeforeStartKeepsConsistent`).
`Indicators.PickOutOfRangeBreaksConsistency` shows two picks that break it:

- a pick past the end, because the new pair lands at the end of the list
  while its indicators carry the active index;
- a negative index naming an empty side, for the same reason.

`cleanUp` also breaks it, because it empties the landmark list and keeps
the indicator list. `PointSets.PicksPastTheEndNeverPair` shows that past
the end, a fixed pick and a moving pick never form a pair. The points
widget that sets the active index is not part of this model, so whether it
ever produces such indices is left open.

## Model

| member | source | states |
|---|---|---|
| `PointSets.PointSet.Put` | ui/transformations/LandmarkTransformationTool.py:176-184 | setting one side of a pair stores the location on that side and keeps the other side |
| `PointSets.CompleteCount` | ui/transformations/LandmarkTransformationTool.py:289-299 | the number of complete pairs among the first n never exceeds n |
| `PointSets.NoCompleteSets` | ui/transformations/LandmarkTransformationTool.py:281-299 | the count of complete pairs is zero exactly when no pair has both sides set |
| `PointSets.PointsSetsIsEmpty` | ui/transformations/LandmarkTransformationTool.py:281-286 | true exactly when no pair of the list has both landmarks set |
| `PointSets.NumberOfSets` | ui/transformations/LandmarkTransformationTool.py:289-299 | the loop's counter ends equal to the number of complete pairs, hence at most the list length |
| `PointSets.CompleteCountGrows` | ui/transformations/LandmarkTransformationTool.py:207-217 | a longer prefix never holds fewer complete pairs, so the running slot index stays below the buffer size |
| `PointSets.CompleteIndices` | ui/transformations/LandmarkTransformationTool.py:207-217 | the positions of the complete pairs: as many as the count, each one complete, strictly increasing, and none missing |
| `PointSets.FixedLandmarks` | ui/transformations/LandmarkTransformationTool.py:207-217 | the fixed side of each complete pair in list order; as many as there are complete pairs |
| `PointSets.MovingLandmarks` | ui/transformations/LandmarkTransformationTool.py:207-217 | the moving side of each complete pair in list order; as many as there are complete pairs |
| `PointSets.LandmarksArePaired` | ui/transformations/LandmarkTransformationTool.py:207-217 | the k-th fixed landmark and the k-th moving landmark come from the same pair, the k-th complete one |
| `PointSets.CompactSets` | ui/transformations/LandmarkTransformationTool.py:201-217 | both buffers have one slot per complete pair; every slot is written in range; the fixed buffer holds the fixed landmarks in list order and the moving buffer holds the moving landmarks carried through the original transform |
| `PointSets.ModeOf` | ui/transformations/LandmarkTransformationTool.py:219-225 | codes 0, 1 and 2 select the mode listed at that position of the combo box (rigid body, similarity, affine); every other code selects no mode |
| `PointSets.PickSlot` | ui/transformations/LandmarkTransformationTool.py:170-186 | a pick writes the pair at the active index read as Python reads it (pair `a` for `0 <= a < len`, pair `len + a` for `-len <= a < 0`), or appends at the end when the index is at or past the length, whatever the index; an index before the start is an IndexError |
| `PointSets.PickedSets` | ui/transformations/LandmarkTransformationTool.py:169-186 | after a pick the picked side of the written pair holds the location; its other side is kept, or None for a new pair; the length grows by one only on append; every other pair is unchanged |
| `PointSets.PickFillsOneSide` | ui/transformations/LandmarkTransformationTool.py:176-186 | a pick sets one more side exactly when it fills an empty side, and none when it overwrites a set side |
| `PointSets.PickCompletesAtMostOne` | ui/transformations/LandmarkTransformationTool.py:176-186 | a pick never loses a complete pair; it completes one exactly when it writes an existing, incomplete pair whose other side is set |
| `PointSets.PicksPastTheEndNeverPair` | ui/transformations/LandmarkTransformationTool.py:182-186 | with the active index past the end, a fixed pick then a moving pick append two pairs and complete none; at the end they append one pair and complete it |
| `Indicators.PickedMarks` | ui/transformations/LandmarkTransformationTool.py:172-186 | below the list length every indicator of the active landmark on the picked side moves to the location and all others are unchanged; two indicators are appended exactly when the pick fills an empty side, in the side's widget and the multi widget, with the active index, the side's flag and the location |
| `Indicators.PickKeepsConsistent` | ui/transformations/LandmarkTransformationTool.py:169-186 | a pick with `0 <= activeIndex <= len` keeps every indicator pointing at a set side of an existing pair at its location; it keeps exactly one indicator in the side's widget and one in the multi widget per set side, and none for anything else |
| `Indicators.PickKeepsCount` | ui/transformations/LandmarkTransformationTool.py:169-186 | for each landmark, side and widget, such a pick leaves the number of indicators equal to what the new landmark list asks for: one per widget for a set side, none otherwise |
| `Indicators.FillingPickWants` | ui/transformations/LandmarkTransformationTool.py:176-186 | a pick that fills an empty side asks for exactly one more indicator in that side's widget and one in the multi widget, for the picked landmark and side only |
| `Indicators.OverwritingPickWants` | ui/transformations/LandmarkTransformationTool.py:176-181 | a pick that overwrites a set side asks for no new indicator |
| `Indicators.PickBeforeStartKeepsConsistent` | ui/transformations/LandmarkTransformationTool.py:172-177 | a pick with the index before the start writes no pair and keeps the indicators in agreement, since no agreeing indicator carries a negative index |
| `Indicators.PickOutOfRangeBreaksConsistency` | ui/transformations/LandmarkTransformationTool.py:182-186 | a pick past the end, or a negative index naming an empty side, creates indicators whose index is not the written pair's, breaking that agreement |
| `LandmarkTool.Indicator.constructor` | ui/transformations/LandmarkTransformationTool.py:274-278 | a new indicator carries its landmark index, flag, widget and position |
| `LandmarkTool.LandmarkTransformationTool.constructor` | ui/transformations/LandmarkTransformationTool.py:34-47 | empty landmark and indicator lists, no original transform, active index 0, type code 0; the indicators start in agreement with the landmark list |
| `LandmarkTool.LandmarkTransformationTool.SetRenderWidgets` | ui/transformations/LandmarkTransformationTool.py:85-91 | records the composition of the stack as the original transform, then pushes one identity landmark transformation |
| `LandmarkTool.LandmarkTransformationTool.CancelTransform` | ui/transformations/LandmarkTransformationTool.py:106-107 | drops exactly the top of the stack; an empty stack is an IndexError |
| `LandmarkTool.StartThenCancel` | ui/transformations/LandmarkTransformationTool.py:89-107 | setting the render widgets and then cancelling leaves the stack as it was |
| `LandmarkTool.LandmarkTransformationTool.CleanUp` | ui/transformations/LandmarkTransformationTool.py:114-121 | the landmark list is empty afterwards; nothing else of the modelled state changes |
| `LandmarkTool.LandmarkTransformationTool.Update` | ui/transformations/LandmarkTransformationTool.py:236-240 | exactly the indicators whose index is the active index are active afterwards; positions are unchanged |
| `LandmarkTool.LandmarkTransformationTool.SetActiveLandmark` | ui/transformations/LandmarkTransformationTool.py:136-141 | the active index becomes the given index and the active flags follow it |
| `LandmarkTool.LandmarkTransformationTool.UpdateTransform` | ui/transformations/LandmarkTransformationTool.py:194-233 | with no complete pair the stack is untouched; otherwise only the top of the stack is replaced, by the inverted solution for the compacted pairs in the mode the type code selects; an empty stack is an IndexError |
| `LandmarkTool.LandmarkTransformationTool.LandmarkTypeChanged` | ui/transformations/LandmarkTransformationTool.py:144-151 | stores the new type code and replaces the top of the stack as the transform update does |
| `LandmarkTool.LandmarkTransformationTool.MoveIndicators` | ui/transformations/LandmarkTransformationTool.py:172-174 | every indicator of the active landmark on the picked side is at the location afterwards, even when one object sits twice in the list; no other indicator moves |
| `LandmarkTool.LandmarkTransformationTool.AddLandmarkIndicator` | ui/transformations/LandmarkTransformationTool.py:252-272 | appends two new indicators for the active landmark at the location, one in the side's widget and one in the multi widget; earlier entries are kept |
| `LandmarkTool.LandmarkTransformationTool.UpdateLandmark` | ui/transformations/LandmarkTransformationTool.py:170-181 | moves the matching indicators, raises IndexError for an index before the start, adds indicators only for an empty side, and sets that side of the pair; the existing indicators' active flags are unchanged |
| `LandmarkTool.LandmarkTransformationTool.AppendLandmark` | ui/transformations/LandmarkTransformationTool.py:182-186 | appends a pair with only the picked side set, and two indicators |
| `LandmarkTool.LandmarkTransformationTool.RecordPick` | ui/transformations/LandmarkTransformationTool.py:169-186 | the landmark list becomes `PickedSets` of the old one and the indicators become `PickedMarks` of the old ones; new indicator objects are fresh, the existing indicators' active flags are unchanged, and agreement is kept for an active index within the list |
| `LandmarkTool.LandmarkTransformationTool.PickedLocation` | ui/transformations/LandmarkTransformationTool.py:169-192 | a whole pick: the list effects above, then the stack effect of the transform update on the new list, then the active flags; an IndexError stops it where it is raised, so the active flags of the existing indicators stay as they were |

## Left out

- `LandmarkTool.Indicator.constructor`: does not state the active flag of a new indicator. The `Landmark` class sets its default, and that class is not part of this model.
- Numerics of the visualisation library: the landmark solver, the point transform, the matrix inverse and `completeTransform` are uninterpreted fields of `Geometry.Library`. The model states which arguments they receive, not what they compute.
- A mode of None means no mode setter is called. The model does not say which mode the solver then uses.
- `_updateLandmarkTransforms` (lines 242-250) is not modelled. It sets the display transform of moving-side indicators, a rendering concern of the indicator objects.
- `originalScalingTransform` (line 87) is not modelled, because nothing in the tool reads it.
- The indicator scale computed from image bounds (lines 253-256, 263, 269) is not modelled; it is floating point over image data.
- Qt and rendering plumbing is not modelled: pickers and their signal wiring, `getParameterWidget`, `setLandmarkWidgets`, the status text, `render()`, `setVisible`, `update()` on indicators, the `updatedLandmarks` and `toolFinished` signals, and the indicators' own `cleanUp` in `cleanUp`.
- `pickedFixedLocation` and `pickedMovingLocation` are one-line dispatches to `_pickedLocation`. They are the `side` argument of `PickedLocation`.
- `applyTransform` does nothing in the source and has no counterpart.
- The `Landmark` indicator class and the `Transformations` stack class are not part of this model. The stack is assumed to behave as a Python list under `append`, `[-1] =` and `del [-1]`.
- Exceptions other than IndexError are left out. For example, using the widgets before `setRenderWidgets` raises AttributeError. `PickedLocation` requires the render widgets to be set, because the pickers only deliver locations after `setRenderWidgets` connects them. `CancelTransform` requires the stack to be set. `UpdateTransform` requires the widgets only when a pair is complete.
- The strategy graph, the transform box widget, the parameter widget and the strategy-edge test are not part of this model. Their core classes are not available, and the rest is GUI code.
