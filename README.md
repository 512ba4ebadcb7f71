# AutoTrack add-on: a Dafny model

AutoTrack is a Blender add-on. When enabled, it gives every newly created
mesh, light or camera (the kinds enabled by three scene toggles) a
"Track To" constraint aimed at a marker object found by name. It also
offers three manual operators:
- apply the constraint to the selection;
- clear the selection's constraints;
- parent the marker to a chosen object, or unparent it.

This project models that bookkeeping over an abstract scene:
- `Scene` (`scene.dfy`) holds the host's data.
  - `SceneObject` is a class with a name, a kind, an exclusion flag, a constraint list (`seq<Constraint>`), a parent, a parent-inverse marker, a local transform and a `hideSelect` flag.
  - `Settings` is the scene's add-on properties.
  - A `map<string, SceneObject>` stands in for the host's name lookup `bpy.data.objects`.
- `TrackConstraint` (`track_constraint.dfy`) holds the constraint applier `add_track_constraint`.
  - It is an imperative method, `AddTrackConstraint`, proved against the function `TrackApplied`.
  - Lemmas prove the gating, what is appended, and idempotence.
- `AddHandler` (`add_handler.dfy`) holds the new-object detector.
  - The class `ObjectAddHandler` owns the `knownObjects` snapshot. Its methods are `InitKnownObjects` (`init_known_objects`) and `Handle` (`object_add_handler`).
  - A trace model (`Step`, `SnapshotAfter`) follows the snapshot across a whole session of loads and updates.
- `Operators` (`operators.dfy`) holds the three operators' `execute` methods.
  - Apply-to-selected and remove-constraints each loop over the selection with a counter. They are proved against counting functions that carry their own lemmas.
  - Parent/unparent is straight-line code on the marker object.

The settings and the object table that the source reads from
`bpy.context.scene` and `bpy.data` are parameters. The selection is a
sequence parameter. The handler's `scene` argument is given as the
sequence of its objects.

## Model

| member | source | states |
|---|---|---|
| TrackConstraint.TrackApplied | AutoTrackPlugin.py:16-43 | The result keeps the earlier constraints as a prefix and adds at most one. It grows exactly when the plugin is enabled, the object is not excluded, its kind is enabled, the target name resolves and it holds no Track-To. What it adds targets the named object with axis -Z, up Y, and world space for both owner and target. |
| TrackConstraint.AddTrackConstraint | AutoTrackPlugin.py:16-43 | Running the applier in place leaves the object's constraint list equal to `TrackApplied` of the old list. Its frame allows only that list to change. |
| TrackConstraint.TrackToConstraints | AutoTrackPlugin.py:36 | The filtered list holds exactly the Track-To constraints of the input, all taken from the input, and is no longer than it. |
| TrackConstraint.TrackToConstraintsAppend | AutoTrackPlugin.py:36 | The Track-To filter distributes over concatenation. |
| TrackConstraint.TrackAppliedTrackToConstraints | AutoTrackPlugin.py:36-43 | After the applier, the Track-To constraints are the old ones plus the appended one, if any. An object that had none ends with at most one. |
| TrackConstraint.TrackAppliedHasTrackTo | AutoTrackPlugin.py:31-43 | After the applier, the object holds a Track-To if and only if it already held one or it passed every gate. |
| TrackConstraint.TrackToConstraintsAll | AutoTrackPlugin.py:36 | The filter keeps the whole list if and only if every entry is a Track-To. |
| TrackConstraint.ApplyIdempotent | AutoTrackPlugin.py:36-37 | Applying twice yields the same list as applying once. |
| AddHandler.Detected | AutoTrackPlugin.py:49-53 | The names submitted by a notification are exactly the current names missing from the snapshot when the notification is an enabled update, and none otherwise. |
| AddHandler.LastRefreshCons | AutoTrackPlugin.py:48-65 | Prepending a notification changes the last refresh only when the rest has none. |
| AddHandler.SnapshotIsLastRefresh | AutoTrackPlugin.py:48-65 | After any session, the snapshot is exactly the names of the last load or enabled update, or the initial snapshot if there was none. It is a snapshot, not an accumulator. |
| AddHandler.DetectedOnReenable | AutoTrackPlugin.py:49-53 | A name absent from the snapshot and present at the first enabled update after any run of disabled updates is detected by that update. |
| AddHandler.ApplyToNamed | AutoTrackPlugin.py:56-59 | Every object that a submitted name resolves to has had the applier run on it exactly once, in effect. Every other object in the table keeps its constraints. |
| AddHandler.ObjectAddHandler.constructor | AutoTrackPlugin.py:61 | The snapshot starts empty. |
| AddHandler.ObjectAddHandler.InitKnownObjects | AutoTrackPlugin.py:64-65 | After a load, the snapshot is exactly the scene's object names. |
| AddHandler.ObjectAddHandler.Handle | AutoTrackPlugin.py:48-59 | A disabled tick changes neither the snapshot nor any constraint list. An enabled tick replaces the snapshot with the current names and applies the applier to exactly the objects that the new names resolve to. Every other object is unchanged. |
| Operators.CountGrownZero | AutoTrackPlugin.py:91-96 | The grown count is zero if and only if no list grew. |
| Operators.CountGrownIsQualifying | AutoTrackPlugin.py:91-96 | When each list is what the applier made of its old value, the number of grown lists equals the number of objects that passed every gate without holding a Track-To. |
| Operators.SecondApplyCountsZero | AutoTrackPlugin.py:89-99 | Once the operator has run, a second run on the same selection finds no qualifying object, so it reports zero. |
| Operators.AppliedToSelection | AutoTrackPlugin.py:91-96 | Per-object results of the loop give the operator's summary: every list was applied, and the grown count equals the qualifying count. |
| Operators.ApplyEach | AutoTrackPlugin.py:90-96 | The loop leaves each selected object with `TrackApplied` of its old list. The counter equals the number of objects that qualified without a Track-To. |
| Operators.ApplyTrackToSelected | AutoTrackPlugin.py:89-99 | Returns FINISHED. Every selected list is the applier's result. The count equals both the number of lists that grew and the number of qualifying objects, and is at most the selection size. |
| Operators.SumLengthsZero | AutoTrackPlugin.py:136-141 | The removed count is zero if and only if every selected list was already empty. |
| Operators.SumLengthsCoversTrackTo | AutoTrackPlugin.py:136-143 | Over the whole selection, the removed count is at least the total number of Track-To constraints held. It equals that total if and only if every removed constraint was a Track-To, which is the only case where the reported "Track To constraint(s)" count is exact. |
| Operators.RemoveTrackConstraints | AutoTrackPlugin.py:135-144 | Returns FINISHED. Every selected object's list is empty, whatever its constraint types. The count is the sum of the old list lengths. Unselected objects are outside the frame. |
| Operators.ParentTrackEmpty | AutoTrackPlugin.py:107-128 | Returns CANCELLED exactly when no object has the target name. The frame then allows no changes. With a parent target, the marker is parented to it, its parent inverse is reset to identity, its location and rotation are zeroed, its scale is one, and it becomes unselectable. Without one, it is unparented and selectable again, and its transform is kept. |
| Scene.SceneObject.constructor | AutoTrackPlugin.py:212 | A new object is not excluded, which is the registered default of the exclusion flag. Its other initial fields are assumptions about a fresh host object that this line does not state: no constraints, no parent, an identity transform, and selectable. |

## Left out

- `OBJECT_OT_CreateSphereEmptyOperator`: not modelled. It delegates to the host's `empty_add` and to its name-collision rules, which are not visible.
- The panel's `draw` method and `register`/`unregister` are not modelled: they are UI layout and host registration.
- Of the property defaults that `register` declares, only the exclusion flag's is modelled (in `Scene.SceneObject.constructor`). The scene settings' defaults are not modelled: `Settings` is always a parameter.
- `self.report` messages are not modelled; only the returned status and the count they report are.
- `@persistent`, saving and loading of the host's data are not modelled: the load notification is a call to `InitKnownObjects`.
- The orientation math of the Track-To constraint is not modelled; a constraint is a record of its settings.
- Transforms are integer vectors rather than floats. `matrix_parent_inverse.identity()` is a marker value, `IdentityMatrix`, not a matrix.
- `getattr(obj, "exclude_from_track_plugin", False)`: the model always has the attribute. The default only matters before the property is registered.
- Operators.ApplyTrackToSelected, Operators.RemoveTrackConstraints: require the selection to hold no object twice, as the host's selection does.
- Operators.RemoveTrackConstraints: the message says "Track To constraint(s)", but the count covers constraints of every type, because `clear()` empties the whole list. The model follows the code; `Operators.SumLengthsCoversTrackTo` proves when the two agree.
- Operators.ParentTrackEmpty: does not model what the host does when the parent target is the marker itself, or when parenting creates a cycle.
- AddHandler.ObjectAddHandler.Handle: the settings are the same value the applier reads, as both come from the context scene. Whether the handler's `scene` argument and the context scene differ is not modelled.
- Object renames are seen only as names, so a renamed object looks new to the detector, exactly as in the code.
