// The constraint applier, `add_track_constraint`: the gate that decides
// whether an object gets the Track-To constraint, and the one configured
// constraint it appends.
module TrackConstraint {
  import opened Scene

  /** The kinds the three scene toggles enable, written as a reference
      definition independent of how the applier builds its list. */
  predicate KindAllowed(s: Settings, kind: Kind)
  {
    (kind == Mesh && s.applyToMeshes)
    || (kind == Light && s.applyToLights)
    || (kind == Camera && s.applyToCameras)
  }

  /** All gates the applier checks before looking at the constraint list:
      plugin enabled, object not excluded, kind enabled, target present. */
  predicate Qualifies(s: Settings, data: ObjectTable, kind: Kind, excluded: bool)
  {
    s.trackPluginEnabled && !excluded && KindAllowed(s, kind) && s.trackTargetName in data
  }

  /** The constraint the applier creates: aimed at `target` along -Z with Y
      up, both spaces in world coordinates. */
  function TrackToConstraint(target: SceneObject): (c: Constraint)
  {
    Constraint(TrackTo, target, TrackNegativeZ, UpY, World, World)
  }

  /** The Track-To constraints already on an object, in stack order. */
  function TrackToConstraints(cs: seq<Constraint>): (r: seq<Constraint>)
    ensures |r| <= |cs|
    ensures forall c :: c in r ==> c in cs && c.ctype == TrackTo
    ensures forall c :: c in cs && c.ctype == TrackTo ==> c in r
  {
    if cs == [] then []
    else (if cs[0].ctype == TrackTo then [cs[0]] else []) + TrackToConstraints(cs[1..])
  }

  predicate HasTrackTo(cs: seq<Constraint>)
  {
    TrackToConstraints(cs) != []
  }

  /** The constraint list an object ends up with after the applier runs on it. */
  function TrackApplied(s: Settings, data: ObjectTable, kind: Kind, excluded: bool,
                        cs: seq<Constraint>): (r: seq<Constraint>)
    // earlier constraints are untouched and at most one is added
    ensures |cs| <= |r| <= |cs| + 1 && r[..|cs|] == cs
    // it grows exactly when every gate passes and no Track-To is present
    ensures |r| == |cs| + 1 <==> Qualifies(s, data, kind, excluded) && !HasTrackTo(cs)
    // what it adds is the configured constraint aimed at the named target
    ensures |r| == |cs| + 1 ==>
      r[|cs|].ctype == TrackTo && r[|cs|].target == data[s.trackTargetName]
      && r[|cs|].trackAxis == TrackNegativeZ && r[|cs|].upAxis == UpY
      && r[|cs|].ownerSpace == World && r[|cs|].targetSpace == World
  {
    if Qualifies(s, data, kind, excluded) && !HasTrackTo(cs)
    then cs + [TrackToConstraint(data[s.trackTargetName])]
    else cs
  }

  /** `add_track_constraint`: straight-line gating on the settings and the
      object, then an append to the object's constraint list. */
  method AddTrackConstraint(s: Settings, data: ObjectTable, obj: SceneObject)
    modifies obj`constraints
    ensures obj.constraints
      == TrackApplied(s, data, obj.kind, obj.excludeFromTrackPlugin, old(obj.constraints))
  {
    if !s.trackPluginEnabled {
      return;
    }
    if obj.excludeFromTrackPlugin {
      return;
    }
    var allowedTypes: seq<Kind> := [];
    if s.applyToMeshes {
      allowedTypes := allowedTypes + [Mesh];
    }
    if s.applyToLights {
      allowedTypes := allowedTypes + [Light];
    }
    if s.applyToCameras {
      allowedTypes := allowedTypes + [Camera];
    }
    if obj.kind !in allowedTypes {
      return;
    }
    if s.trackTargetName in data {
      var trackEmpty := data[s.trackTargetName];
      var existing := TrackToConstraints(obj.constraints);
      if existing == [] {
        obj.constraints := obj.constraints + [TrackToConstraint(trackEmpty)];
      }
    }
  }

  /** Filtering distributes over concatenation. */
  lemma {:induction false} TrackToConstraintsAppend(a: seq<Constraint>, b: seq<Constraint>)
    ensures TrackToConstraints(a + b) == TrackToConstraints(a) + TrackToConstraints(b)
  {
    if a == [] {
      assert a + b == b;
    } else {
      assert (a + b)[1..] == a[1..] + b;
      TrackToConstraintsAppend(a[1..], b);
    }
  }

  /** The filter keeps the whole list exactly when every entry is a Track-To. */
  lemma {:induction false} TrackToConstraintsAll(cs: seq<Constraint>)
    ensures |TrackToConstraints(cs)| == |cs| <==> forall i :: 0 <= i < |cs| ==> cs[i].ctype == TrackTo
  {
    if cs != [] {
      TrackToConstraintsAll(cs[1..]);
      assert forall i :: 1 <= i < |cs| ==> cs[i] == cs[1..][i - 1];
    }
  }

  /** The Track-To constraints after the applier are the ones before, plus
      the new one when it was added; so an object that had none ends with at
      most one. */
  lemma TrackAppliedTrackToConstraints(s: Settings, data: ObjectTable, kind: Kind, excluded: bool,
                                       cs: seq<Constraint>)
    ensures var r := TrackApplied(s, data, kind, excluded, cs);
      TrackToConstraints(r)
        == TrackToConstraints(cs) + (if |r| == |cs| + 1 then [r[|cs|]] else [])
    ensures !HasTrackTo(cs) ==> |TrackToConstraints(TrackApplied(s, data, kind, excluded, cs))| <= 1
  {
    var r := TrackApplied(s, data, kind, excluded, cs);
    if |r| == |cs| + 1 {
      TrackToConstraintsAppend(cs, [r[|cs|]]);
      assert r == cs + [r[|cs|]];
    }
  }

  /** After the applier, the object carries a Track-To exactly when it already
      did or it qualified. */
  lemma TrackAppliedHasTrackTo(s: Settings, data: ObjectTable, kind: Kind, excluded: bool,
                               cs: seq<Constraint>)
    ensures HasTrackTo(TrackApplied(s, data, kind, excluded, cs))
      <==> HasTrackTo(cs) || Qualifies(s, data, kind, excluded)
  {
    TrackAppliedTrackToConstraints(s, data, kind, excluded, cs);
  }

  /** Applying twice gives the same list as applying once. */
  lemma ApplyIdempotent(s: Settings, data: ObjectTable, kind: Kind, excluded: bool,
                        cs: seq<Constraint>)
    ensures var once := TrackApplied(s, data, kind, excluded, cs);
      TrackApplied(s, data, kind, excluded, once) == once
  {
    TrackAppliedHasTrackTo(s, data, kind, excluded, cs);
  }
}
