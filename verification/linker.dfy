/** The positional linker (`linkMeshes`): a placement code and the two
    bounding-box maxima give the child's local offset, and the child is
    reparented under the parent. */
module Linker {

  import opened Wrappers
  import opened Geometry
  import opened SceneGraph

  /** The placement codes of index.js. */
  const LinkedUp: int := 1
  const LinkedDown: int := 2
  const LinkedLeft: int := 3
  const LinkedRight: int := 4
  const LinkedCenter: int := 5

  datatype Placement = Up | Down | Left | Right | Center

  function Code(p: Placement): int
  {
    match p
    case Up => LinkedUp
    case Down => LinkedDown
    case Left => LinkedLeft
    case Right => LinkedRight
    case Center => LinkedCenter
  }

  /** The placement a code selects in the `switch`, if any. */
  function Recognise(code: int): (r: Option<Placement>)
    ensures r.Some? ==> Code(r.value) == code
    ensures r.None? ==> forall p: Placement :: Code(p) != code
  {
    if code == LinkedUp then Some(Up)
    else if code == LinkedDown then Some(Down)
    else if code == LinkedLeft then Some(Left)
    else if code == LinkedRight then Some(Right)
    else if code == LinkedCenter then Some(Center)
    else None
  }

  /** Codes and placements are in one-to-one correspondence. */
  lemma CodeRoundTrip(p: Placement, code: int)
    ensures Recognise(Code(p)) == Some(p)
    ensures Recognise(code).Some? ==> Code(Recognise(code).value) == code
  {
  }

  /** The offset is along the X axis only. */
  predicate AlongX(v: Vec3) { v.y == 0.0 && v.z == 0.0 }

  /** The offset is along the Y axis only. */
  predicate AlongY(v: Vec3) { v.x == 0.0 && v.z == 0.0 }

  /** The child's local position chosen by `linkMeshes`; `None` is the
      source's `null`, left in place for a code no case matches. Each
      directional case puts the child's near edge exactly on the parent's
      far edge on one axis. */
  function Offset(code: int, parentMax: Vec3, childMax: Vec3): (r: Option<Vec3>)
    ensures r.Some? <==> Recognise(code).Some?
    ensures code == LinkedUp ==>
      r.Some? && AlongY(r.value) && r.value.y - childMax.y == parentMax.y
    ensures code == LinkedDown ==>
      r.Some? && AlongY(r.value) && r.value.y + childMax.y == -parentMax.y
    ensures code == LinkedRight ==>
      r.Some? && AlongX(r.value) && r.value.x - childMax.x == parentMax.x
    ensures code == LinkedLeft ==>
      r.Some? && AlongX(r.value) && r.value.x + childMax.x == -parentMax.x
    ensures code == LinkedCenter ==> r == Some(Origin)
  {
    match Recognise(code)
    case None => None
    case Some(Up) => Some(Vec3(0.0, parentMax.y + childMax.y, 0.0))
    case Some(Down) => Some(Vec3(0.0, -(parentMax.y + childMax.y), 0.0))
    case Some(Right) => Some(Vec3(parentMax.x + childMax.x, 0.0, 0.0))
    case Some(Left) => Some(Vec3(-(parentMax.x + childMax.x), 0.0, 0.0))
    case Some(Center) => Some(Origin)
  }

  /** Up and Down, and Right and Left, are mirror images of each other. */
  lemma OppositePlacements(parentMax: Vec3, childMax: Vec3)
    ensures var up := Offset(LinkedUp, parentMax, childMax).value;
            var down := Offset(LinkedDown, parentMax, childMax).value;
            down == Vec3(up.x, -up.y, up.z)
    ensures var right := Offset(LinkedRight, parentMax, childMax).value;
            var left := Offset(LinkedLeft, parentMax, childMax).value;
            left == Vec3(-right.x, right.y, right.z)
  {
  }

  /** The default argument: an omitted placement means `LINKED_CENTER`. */
  function PlacementArg(position: Option<int>): (code: int)
    ensures position.Some? ==> code == position.value
    ensures position.None? ==> Recognise(code) == Some(Center)
  {
    match position
    case Some(c) => c
    case None => LinkedCenter
  }

  /** `linkMeshes(parent, child, position)`: the child's parent becomes
      `parentId` in every case, its position becomes the offset (or `None`),
      and nothing else in the scene changes. */
  function Link(s: Scene, parentId: SurfaceId, childId: SurfaceId, position: Option<int>): (r: Scene)
    requires Valid(s) && parentId in s.size && childId in s.size
    ensures Valid(r)
    ensures r.live == s.live && r.size == s.size && r.next == s.next
    ensures childId in r.parent && r.parent[childId] == parentId
    ensures forall id :: id in s.parent && id != childId ==> id in r.parent && r.parent[id] == s.parent[id]
    ensures forall id :: id in r.parent ==> id in s.parent || id == childId
    ensures childId in r.position
    ensures r.position[childId] ==
      Offset(PlacementArg(position), BoundingMax(s.size[parentId]), BoundingMax(s.size[childId]))
    ensures forall id :: id in s.position && id != childId ==> id in r.position && r.position[id] == s.position[id]
    ensures forall id :: id in r.position ==> id in s.position || id == childId
  {
    var offset := Offset(PlacementArg(position), BoundingMax(s.size[parentId]), BoundingMax(s.size[childId]));
    s.(parent := s.parent[childId := parentId], position := s.position[childId := offset])
  }

  /** Linking with the placement omitted centres the child on the parent. */
  lemma DefaultLinkCentres(s: Scene, parentId: SurfaceId, childId: SurfaceId)
    requires Valid(s) && parentId in s.size && childId in s.size
    ensures Link(s, parentId, childId, None).position[childId] == Some(Origin)
    ensures Link(s, parentId, childId, None).parent[childId] == parentId
  {
  }

  /** A code outside 1..5 leaves the child's position `None`, yet the child
      is still reparented. */
  lemma UnknownCodeLeavesNull(s: Scene, parentId: SurfaceId, childId: SurfaceId, code: int)
    requires Valid(s) && parentId in s.size && childId in s.size
    requires code < LinkedUp || code > LinkedCenter
    ensures Link(s, parentId, childId, Some(code)).position[childId] == None
    ensures Link(s, parentId, childId, Some(code)).parent[childId] == parentId
  {
  }

}
