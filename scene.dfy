// The slice of the host application's scene graph that the AutoTrack add-on
// touches: objects with a kind, a per-object exclusion flag, a constraint
// list, a parent reference, a selectability flag and a local transform; the
// add-on's scene settings; and the name lookup standing in for the host's
// object table.
module Scene {

  /** The object kinds the add-on distinguishes; every other host kind is `OtherKind`. */
  datatype Kind = Mesh | Light | Camera | Empty | OtherKind

  /** A constraint's type tag: the orientation constraint this add-on manages, or any other type. */
  datatype ConstraintType = TrackTo | OtherConstraint

  datatype TrackAxis =
    | TrackX | TrackY | TrackZ
    | TrackNegativeX | TrackNegativeY | TrackNegativeZ

  datatype UpAxis = UpX | UpY | UpZ

  datatype Space = World | Local | Pose | LocalWithParent | Custom

  /** One entry of an object's constraint stack. */
  datatype Constraint = Constraint(
    ctype: ConstraintType,
    target: SceneObject?,
    trackAxis: TrackAxis,
    upAxis: UpAxis,
    ownerSpace: Space,
    targetSpace: Space)

  /** A vector of the transform; the host's floats are modelled as integers. */
  datatype Vec3 = Vec3(x: int, y: int, z: int)

  const Origin := Vec3(0, 0, 0)
  const UnitScale := Vec3(1, 1, 1)

  /** The parent-inverse matrix, only as "reset to identity" or "whatever the host holds". */
  datatype ParentInverse = IdentityMatrix | HostMatrix(id: nat)

  /** A scene object. The add-on only ever changes `constraints`, `parent`,
      `matrixParentInverse`, the transform and `hideSelect`. */
  class SceneObject {
    var name: string
    const kind: Kind
    var excludeFromTrackPlugin: bool
    var constraints: seq<Constraint>
    var parent: SceneObject?
    var matrixParentInverse: ParentInverse
    var location: Vec3
    var rotationEuler: Vec3
    var scale: Vec3
    var hideSelect: bool

    /** A freshly created object: not excluded (the registered default of the
        exclusion property), no constraints, no parent, identity transform. */
    constructor (name: string, kind: Kind)
      ensures this.name == name && this.kind == kind
      ensures !excludeFromTrackPlugin && constraints == []
      ensures parent == null && matrixParentInverse == IdentityMatrix
      ensures location == Origin && rotationEuler == Origin && scale == UnitScale
      ensures !hideSelect
    {
      this.name := name;
      this.kind := kind;
      excludeFromTrackPlugin := false;
      constraints := [];
      parent := null;
      matrixParentInverse := IdentityMatrix;
      location := Origin;
      rotationEuler := Origin;
      scale := UnitScale;
      hideSelect := false;
    }
  }

  /** The scene-level properties the add-on registers. */
  datatype Settings = Settings(
    trackPluginEnabled: bool,
    trackTargetName: string,
    applyToMeshes: bool,
    applyToLights: bool,
    applyToCameras: bool,
    trackParentTarget: SceneObject?)

  /** The host's object table, looked up by name. */
  type ObjectTable = map<string, SceneObject>

  /** The names of the objects linked to a scene. */
  function SceneNames(objs: seq<SceneObject>): set<string>
    reads objs`name
  {
    set o | o in objs :: o.name
  }

  /** The objects that the given names resolve to; names with no object are skipped. */
  function Resolve(data: ObjectTable, names: set<string>): set<SceneObject>
  {
    set n | n in names && n in data :: data[n]
  }

  /** The constraint lists of a sequence of objects, position by position. */
  function ConstraintLists(objs: seq<SceneObject>): (r: seq<seq<Constraint>>)
    reads objs`constraints
    ensures |r| == |objs|
    ensures forall i :: 0 <= i < |objs| ==> r[i] == objs[i].constraints
  {
    if objs == [] then [] else [objs[0].constraints] + ConstraintLists(objs[1..])
  }

  /** The kinds of a sequence of objects, position by position. */
  function Kinds(objs: seq<SceneObject>): (r: seq<Kind>)
    ensures |r| == |objs|
    ensures forall i :: 0 <= i < |objs| ==> r[i] == objs[i].kind
  {
    if objs == [] then [] else [objs[0].kind] + Kinds(objs[1..])
  }

  /** The exclusion flags of a sequence of objects, position by position. */
  function ExclusionFlags(objs: seq<SceneObject>): (r: seq<bool>)
    reads objs`excludeFromTrackPlugin
    ensures |r| == |objs|
    ensures forall i :: 0 <= i < |objs| ==> r[i] == objs[i].excludeFromTrackPlugin
  {
    if objs == [] then [] else [objs[0].excludeFromTrackPlugin] + ExclusionFlags(objs[1..])
  }

  /** No object occurs twice, as in the host's selection. */
  predicate Distinct(objs: seq<SceneObject>)
  {
    forall i, j :: 0 <= i < j < |objs| ==> objs[i] != objs[j]
  }
}
