// The new-object detector: `object_add_handler`, run after every scene
// update, and `init_known_objects`, run after a file load, sharing the
// snapshot of known object names. A trace model below follows the snapshot
// across a whole session of loads and updates.
module AddHandler {
  import opened Scene
  import opened TrackConstraint

  datatype Option<T> = None | Some(value: T)

  /** A host notification as the detector sees it: a file load, or a scene
      update seen with the plugin enabled or not; each carries the names of
      the scene's objects at that moment. */
  datatype Event = Load(names: set<string>) | Update(enabled: bool, names: set<string>)

  /** The snapshot after one notification: replaced by a load or an enabled
      update, left alone by a disabled update. */
  function Step(known: set<string>, e: Event): set<string>
  {
    match e
    case Load(names) => names
    case Update(enabled, names) => if enabled then names else known
  }

  /** The names one notification submits for resolution: those of an enabled
      update that the snapshot does not hold. */
  function Detected(known: set<string>, e: Event): (r: set<string>)
    ensures r <= e.names && r !! known
    ensures e.Update? && e.enabled ==> forall n :: n in e.names && n !in known ==> n in r
    ensures !(e.Update? && e.enabled) ==> r == {}
  {
    if e.Update? && e.enabled then e.names - known else {}
  }

  /** The snapshot after a whole sequence of notifications, in order. */
  function SnapshotAfter(known: set<string>, events: seq<Event>): set<string>
    decreases events
  {
    if events == [] then known else SnapshotAfter(Step(known, events[0]), events[1..])
  }

  predicate Refreshes(e: Event)
  {
    e.Load? || e.enabled
  }

  /** The names of the last notification that refreshes the snapshot, if any
      (searched from the end). */
  function LastRefresh(events: seq<Event>): Option<set<string>>
  {
    if events == [] then None
    else if Refreshes(events[|events| - 1]) then Some(events[|events| - 1].names)
    else LastRefresh(events[..|events| - 1])
  }

  lemma {:induction false} LastRefreshCons(e: Event, events: seq<Event>)
    ensures LastRefresh([e] + events)
      == if LastRefresh(events).Some? then LastRefresh(events)
         else if Refreshes(e) then Some(e.names) else None
  {
    if events != [] {
      var last := |events| - 1;
      assert ([e] + events)[..|[e] + events| - 1] == [e] + events[..last];
      LastRefreshCons(e, events[..last]);
    }
  }

  /** The snapshot is a snapshot, not an accumulator: it holds exactly the
      names of the last load or enabled update, and the initial snapshot
      only if there was none. */
  lemma {:induction false} SnapshotIsLastRefresh(known: set<string>, events: seq<Event>)
    ensures SnapshotAfter(known, events)
      == match LastRefresh(events) case Some(names) => names case None => known
    decreases events
  {
    if events != [] {
      SnapshotIsLastRefresh(Step(known, events[0]), events[1..]);
      assert events == [events[0]] + events[1..];
      LastRefreshCons(events[0], events[1..]);
    }
  }

  /** Because a disabled update does not refresh the snapshot, an object
      created while the plugin is off is detected by the first enabled
      update, provided it is still there and no load came in between. */
  lemma {:induction false} DetectedOnReenable(known: set<string>, disabled: seq<Event>,
                                              names: set<string>, n: string)
    requires forall i :: 0 <= i < |disabled| ==> disabled[i] == Update(false, disabled[i].names)
    requires n !in known && n in names
    ensures n in Detected(SnapshotAfter(known, disabled), Update(true, names))
  {
    if disabled != [] {
      DetectedOnReenable(known, disabled[1..], names, n);
    }
  }

  /** `o` holds what the applier makes of `before` when `o` is one of the
      `applied` objects, and still holds `before` otherwise. */
  ghost predicate AppliedOnce(s: Settings, data: ObjectTable, applied: set<SceneObject>,
                              o: SceneObject, before: seq<Constraint>)
    reads o`constraints, o`excludeFromTrackPlugin
  {
    o.constraints
      == if o in applied then TrackApplied(s, data, o.kind, o.excludeFromTrackPlugin, before)
         else before
  }

  /** The loop of `object_add_handler`: every name that resolves in the
      object table has its object passed to the applier, in any order; names
      that no longer resolve are skipped. */
  method ApplyToNamed(s: Settings, data: ObjectTable, names: set<string>)
    modifies data.Values`constraints
    ensures forall o :: o in data.Values ==>
      AppliedOnce(s, data, Resolve(data, names), o, old(o.constraints))
  {
    var pending := names;
    ghost var done: set<string> := {};
    while pending != {}
      invariant pending <= names && done == names - pending
      invariant forall o :: o in data.Values ==>
        AppliedOnce(s, data, Resolve(data, done), o, old(o.constraints))
      decreases pending
    {
      var name :| name in pending;
      ghost var resolved := Resolve(data, done);
      if name in data {
        var obj := data[name];
        AddTrackConstraint(s, data, obj);
        assert Resolve(data, done + {name}) == resolved + {obj};
        forall o | o in data.Values
          ensures AppliedOnce(s, data, resolved + {obj}, o, old(o.constraints))
        {
          if o == obj {
            ApplyIdempotent(s, data, o.kind, o.excludeFromTrackPlugin, old(o.constraints));
          } else {
            assert AppliedOnce(s, data, resolved, o, old(o.constraints));
          }
        }
      } else {
        assert Resolve(data, done + {name}) == resolved;
      }
      pending := pending - {name};
      done := done + {name};
    }
  }

  /** The detector's state: the names it saw at the last refresh. */
  class ObjectAddHandler {
    var knownObjects: set<string>

    /** The snapshot starts empty. */
    constructor ()
      ensures knownObjects == {}
    {
      knownObjects := {};
    }

    /** `init_known_objects`: after a file load, the snapshot becomes exactly
        the names of the loaded scene's objects. */
    method InitKnownObjects(sceneObjects: seq<SceneObject>)
      modifies this`knownObjects
      ensures knownObjects == Step(old(knownObjects), Load(SceneNames(sceneObjects)))
      ensures knownObjects == SceneNames(sceneObjects)
    {
      knownObjects := set o | o in sceneObjects :: o.name;
    }

    /** `object_add_handler`: the settings come from the context scene, the
        names from the updated scene, the objects from the object table. */
    method Handle(s: Settings, data: ObjectTable, sceneObjects: seq<SceneObject>)
      modifies this`knownObjects, data.Values`constraints
      // a disabled tick changes nothing, not even the snapshot
      ensures !s.trackPluginEnabled ==>
        knownObjects == old(knownObjects)
        && forall o :: o in data.Values ==> o.constraints == old(o.constraints)
      // an enabled tick replaces the snapshot by the current names
      ensures s.trackPluginEnabled ==> knownObjects == SceneNames(sceneObjects)
      ensures knownObjects
        == Step(old(knownObjects), Update(s.trackPluginEnabled, SceneNames(sceneObjects)))
      // the applier runs on exactly the objects that new names resolve to
      ensures forall o :: o in data.Values ==>
        AppliedOnce(s, data,
                    Resolve(data, Detected(old(knownObjects),
                                           Update(s.trackPluginEnabled, SceneNames(sceneObjects)))),
                    o, old(o.constraints))
    {
      if !s.trackPluginEnabled {
        return;
      }
      var currentNames := set o | o in sceneObjects :: o.name;
      var newObjs := currentNames - knownObjects;
      knownObjects := currentNames;

      ApplyToNamed(s, data, newObjs);
    }
  }
}
