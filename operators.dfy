// The user-invoked operators of the add-on's panel: apply the constraint to
// the selection, clear the selection's constraints, and parent or unparent
// the target marker.
module Operators {
  import opened Scene
  import opened TrackConstraint

  /** What an operator's `execute` returns to the host. */
  datatype Status = Finished | Cancelled

  /** How many of the first `n` positions hold a longer list after than before. */
  function CountGrown(before: seq<seq<Constraint>>, after: seq<seq<Constraint>>, n: nat): (r: nat)
    requires n <= |before| == |after|
    ensures r <= n
  {
    if n == 0 then 0
    else CountGrown(before, after, n - 1) + (if |after[n - 1]| > |before[n - 1]| then 1 else 0)
  }

  /** The operator reports zero exactly when no list grew. */
  lemma {:induction false} CountGrownZero(before: seq<seq<Constraint>>,
                                          after: seq<seq<Constraint>>, n: nat)
    requires n <= |before| == |after|
    ensures CountGrown(before, after, n) == 0 <==> forall j :: 0 <= j < n ==> |after[j]| <= |before[j]|
  {
    if n > 0 {
      CountGrownZero(before, after, n - 1);
    }
  }

  /** How many of the first `n` objects, given by their kinds and exclusion
      flags, pass every gate while holding no Track-To in `before`. */
  function CountQualifying(s: Settings, data: ObjectTable, kinds: seq<Kind>, excluded: seq<bool>,
                           before: seq<seq<Constraint>>, n: nat): (r: nat)
    requires n <= |kinds| == |excluded| == |before|
    ensures r <= n
  {
    if n == 0 then 0
    else
      CountQualifying(s, data, kinds, excluded, before, n - 1)
        + (if Qualifies(s, data, kinds[n - 1], excluded[n - 1]) && !HasTrackTo(before[n - 1])
           then 1 else 0)
  }

  /** Position by position, `after` is what the applier makes of `before`. */
  ghost predicate AllApplied(s: Settings, data: ObjectTable, kinds: seq<Kind>, excluded: seq<bool>,
                             before: seq<seq<Constraint>>, after: seq<seq<Constraint>>)
  {
    |kinds| == |excluded| == |before| == |after|
    && forall j :: 0 <= j < |before| ==>
         after[j] == TrackApplied(s, data, kinds[j], excluded[j], before[j])
  }

  /** The number of lists that grew is the number of objects that qualified
      and had no Track-To yet. */
  lemma {:induction false} CountGrownIsQualifying(s: Settings, data: ObjectTable,
                                                  kinds: seq<Kind>, excluded: seq<bool>,
                                                  before: seq<seq<Constraint>>,
                                                  after: seq<seq<Constraint>>, n: nat)
    requires AllApplied(s, data, kinds, excluded, before, after) && n <= |before|
    ensures CountGrown(before, after, n) == CountQualifying(s, data, kinds, excluded, before, n)
  {
    if n > 0 {
      var k := n - 1;
      CountGrownIsQualifying(s, data, kinds, excluded, before, after, k);
      assert after[k] == TrackApplied(s, data, kinds[k], excluded[k], before[k]);
    }
  }

  /** Running the operator a second time on the same selection reports zero. */
  lemma {:induction false} SecondApplyCountsZero(s: Settings, data: ObjectTable,
                                                 kinds: seq<Kind>, excluded: seq<bool>,
                                                 before: seq<seq<Constraint>>,
                                                 after: seq<seq<Constraint>>, n: nat)
    requires AllApplied(s, data, kinds, excluded, before, after) && n <= |before|
    ensures CountQualifying(s, data, kinds, excluded, after, n) == 0
  {
    if n > 0 {
      var k := n - 1;
      SecondApplyCountsZero(s, data, kinds, excluded, before, after, k);
      assert after[k] == TrackApplied(s, data, kinds[k], excluded[k], before[k]);
      TrackAppliedHasTrackTo(s, data, kinds[k], excluded[k], before[k]);
    }
  }

  /** From the operator loop's per-object facts to its postconditions. */
  lemma AppliedToSelection(s: Settings, data: ObjectTable, selected: seq<SceneObject>,
                           kinds: seq<Kind>, excluded: seq<bool>, before: seq<seq<Constraint>>)
    requires |kinds| == |excluded| == |before| == |selected|
    requires forall j :: 0 <= j < |selected| ==>
      selected[j].constraints == TrackApplied(s, data, kinds[j], excluded[j], before[j])
    ensures AllApplied(s, data, kinds, excluded, before, ConstraintLists(selected))
    ensures CountGrown(before, ConstraintLists(selected), |selected|)
      == CountQualifying(s, data, kinds, excluded, before, |selected|)
  {
    CountGrownIsQualifying(s, data, kinds, excluded, before, ConstraintLists(selected), |selected|);
  }

  /** The operator's loop: the applier on each selected object in turn,
      counting the objects whose constraint list grew. */
  method ApplyEach(s: Settings, data: ObjectTable, selected: seq<SceneObject>,
                   ghost kinds: seq<Kind>, ghost excluded: seq<bool>,
                   ghost before: seq<seq<Constraint>>)
    returns (count: nat)
    requires Distinct(selected)
    requires |kinds| == |excluded| == |before| == |selected|
    requires forall j :: 0 <= j < |selected| ==>
      kinds[j] == selected[j].kind && excluded[j] == selected[j].excludeFromTrackPlugin
      && before[j] == selected[j].constraints
    modifies selected`constraints
    ensures forall j :: 0 <= j < |selected| ==>
      selected[j].constraints == TrackApplied(s, data, kinds[j], excluded[j], before[j])
    ensures count == CountQualifying(s, data, kinds, excluded, before, |selected|)
  {
    count := 0;
    for i := 0 to |selected|
      invariant forall j :: 0 <= j < i ==>
        selected[j].constraints == TrackApplied(s, data, kinds[j], excluded[j], before[j])
      invariant forall j :: i <= j < |selected| ==> selected[j].constraints == before[j]
      invariant count == CountQualifying(s, data, kinds, excluded, before, i)
    {
      var obj := selected[i];
      var n0 := |obj.constraints|;
      AddTrackConstraint(s, data, obj);
      var n1 := |obj.constraints|;
      if n1 > n0 {
        count := count + 1;
      }
    }
  }

  /** `OBJECT_OT_ApplyTrackToSelectedOperator.execute`: the applier on every
      selected object, counting those whose constraint list grew. */
  method ApplyTrackToSelected(s: Settings, data: ObjectTable, selected: seq<SceneObject>)
    returns (status: Status, count: nat)
    requires Distinct(selected)
    modifies selected`constraints
    ensures status == Finished
    ensures AllApplied(s, data, Kinds(selected), ExclusionFlags(selected),
                       old(ConstraintLists(selected)), ConstraintLists(selected))
    ensures count == CountGrown(old(ConstraintLists(selected)), ConstraintLists(selected), |selected|)
    ensures count == CountQualifying(s, data, Kinds(selected), ExclusionFlags(selected),
                                     old(ConstraintLists(selected)), |selected|)
    ensures count <= |selected|
  {
    ghost var before := ConstraintLists(selected);
    ghost var kinds := Kinds(selected);
    ghost var excluded := ExclusionFlags(selected);
    count := ApplyEach(s, data, selected, kinds, excluded, before);
    AppliedToSelection(s, data, selected, kinds, excluded, before);
    status := Finished;
  }

  /** The total length of a sequence of lists. */
  function SumLengths(lists: seq<seq<Constraint>>): nat
  {
    if lists == [] then 0
    else SumLengths(lists[..|lists| - 1]) + |lists[|lists| - 1]|
  }

  /** The removed count is zero exactly when every list was already empty. */
  lemma {:induction false} SumLengthsZero(lists: seq<seq<Constraint>>)
    ensures SumLengths(lists) == 0 <==> forall j :: 0 <= j < |lists| ==> lists[j] == []
  {
    if lists != [] {
      var k := |lists| - 1;
      SumLengthsZero(lists[..k]);
      assert forall j :: 0 <= j < k ==> lists[..k][j] == lists[j];
    }
  }

  /** The number of Track-To constraints across a sequence of lists. */
  function SumTrackTo(lists: seq<seq<Constraint>>): nat
  {
    if lists == [] then 0
    else SumTrackTo(lists[..|lists| - 1]) + |TrackToConstraints(lists[|lists| - 1])|
  }

  /** Across the whole selection, the removed count is at least the number of
      Track-To constraints held, and equals it exactly when every removed
      constraint was a Track-To. */
  lemma {:induction false} SumLengthsCoversTrackTo(lists: seq<seq<Constraint>>)
    ensures SumTrackTo(lists) <= SumLengths(lists)
    ensures SumTrackTo(lists) == SumLengths(lists) <==>
      forall j, i :: 0 <= j < |lists| && 0 <= i < |lists[j]| ==> lists[j][i].ctype == TrackTo
  {
    if lists != [] {
      var k := |lists| - 1;
      SumLengthsCoversTrackTo(lists[..k]);
      TrackToConstraintsAll(lists[k]);
      assert forall j :: 0 <= j < k ==> lists[..k][j] == lists[j];
    }
  }

  /** `OBJECT_OT_RemoveTrackConstraints.execute`: every selected object's
      whole constraint list is cleared, whatever the constraint types, and
      the count adds up what each list held. */
  method RemoveTrackConstraints(selected: seq<SceneObject>) returns (status: Status, count: nat)
    requires Distinct(selected)
    modifies selected`constraints
    ensures status == Finished
    ensures forall o :: o in selected ==> o.constraints == []
    ensures count == SumLengths(old(ConstraintLists(selected)))
  {
    ghost var before := ConstraintLists(selected);
    count := 0;
    for i := 0 to |selected|
      invariant forall j :: 0 <= j < i ==> selected[j].constraints == []
      invariant forall j :: i <= j < |selected| ==> selected[j].constraints == before[j]
      invariant count == SumLengths(before[..i])
    {
      var obj := selected[i];
      var n0 := |obj.constraints|;
      obj.constraints := [];
      var n1 := |obj.constraints|;
      count := count + (n0 - n1);
      assert before[..i + 1][..i] == before[..i];
    }
    assert before[..|selected|] == before;
    status := Finished;
  }

  /** The objects the parent operator may change: the marker, if it exists. */
  function Marker(s: Settings, data: ObjectTable): set<SceneObject>
  {
    if s.trackTargetName in data then {data[s.trackTargetName]} else {}
  }

  /** `OBJECT_OT_ParentTrackEmptyOperator.execute`: with no marker it cancels
      and, by its frame, changes nothing; otherwise it parents the marker to
      the parent target (resetting its local transform and locking its
      selection) or, with no parent target, unparents it and unlocks it. */
  method ParentTrackEmpty(s: Settings, data: ObjectTable) returns (status: Status)
    modifies Marker(s, data)`parent, Marker(s, data)`matrixParentInverse
    modifies Marker(s, data)`location, Marker(s, data)`rotationEuler, Marker(s, data)`scale
    modifies Marker(s, data)`hideSelect
    ensures status == Cancelled <==> s.trackTargetName !in data
    ensures s.trackTargetName in data && s.trackParentTarget != null ==>
      var m := data[s.trackTargetName];
      m.parent == s.trackParentTarget && m.matrixParentInverse == IdentityMatrix
      && m.location == Origin && m.rotationEuler == Origin && m.scale == UnitScale
      && m.hideSelect
    ensures s.trackTargetName in data && s.trackParentTarget == null ==>
      var m := data[s.trackTargetName];
      m.parent == null && !m.hideSelect
      && m.matrixParentInverse == old(m.matrixParentInverse)
      && m.location == old(m.location) && m.rotationEuler == old(m.rotationEuler)
      && m.scale == old(m.scale)
  {
    if s.trackTargetName !in data {
      return Cancelled;
    }
    var trackEmpty := data[s.trackTargetName];
    var target := s.trackParentTarget;
    if target != null {
      trackEmpty.parent := target;
      trackEmpty.matrixParentInverse := IdentityMatrix;
      trackEmpty.location := Origin;
      trackEmpty.rotationEuler := Origin;
      trackEmpty.scale := UnitScale;
      trackEmpty.hideSelect := true;
    } else {
      trackEmpty.parent := null;
      trackEmpty.hideSelect := false;
    }
    return Finished;
  }
}
