/** The abstract scene the composers work on: which surfaces exist, which
    are still live (not disposed), their sizes, parents and local positions.

    Surfaces are numbered by a counter, so a surface created later never
    shares an id with one created earlier, disposed or not. */
module SceneGraph {

  import opened Wrappers
  import opened Geometry

  type SurfaceId = nat

  datatype Scene = Scene(
    live: set<SurfaceId>,
    size: map<SurfaceId, Size>,
    parent: map<SurfaceId, SurfaceId>,
    position: map<SurfaceId, Option<Vec3>>,
    next: SurfaceId)

  /** Every surface ever created has a size and an id below the counter;
      live surfaces, parents and positions all belong to created ones. */
  predicate Valid(s: Scene)
  {
    && s.live <= s.size.Keys
    && s.parent.Keys <= s.size.Keys
    && s.position.Keys <= s.size.Keys
    && (forall id :: id in s.size ==> id < s.next)
  }

  /** True when `r` differs from `s` only by surfaces that did not exist in
      `s`: sizes, parents and positions of existing surfaces are kept. */
  predicate Extends(s: Scene, r: Scene)
  {
    && (forall id :: id in s.size ==> id in r.size && r.size[id] == s.size[id])
    && (forall id :: id in s.parent ==> id in r.parent && r.parent[id] == s.parent[id])
    && (forall id :: id in s.position ==> id in r.position && r.position[id] == s.position[id])
  }

  /** A new plane of the given size, live, unparented, at the origin. */
  function CreatePlane(s: Scene, sz: Size): (r: (Scene, SurfaceId))
    requires Valid(s)
    ensures Valid(r.0)
    ensures r.1 !in s.size
    ensures r.0.live == s.live + {r.1}
    ensures r.0.size == s.size[r.1 := sz]
    ensures r.0.parent == s.parent
    ensures r.0.position == s.position[r.1 := Some(Origin)]
    ensures Extends(s, r.0)
  {
    var id := s.next;
    (Scene(s.live + {id}, s.size[id := sz], s.parent, s.position[id := Some(Origin)], id + 1), id)
  }

  /** The engine's `dispose()` of one surface: it stops being live and
      nothing else changes. Disposing an already disposed surface changes
      nothing. */
  function Dispose(s: Scene, id: SurfaceId): (r: Scene)
    ensures id !in r.live
    ensures forall x :: x in r.live <==> x in s.live && x != id
    ensures r.size == s.size && r.parent == s.parent && r.position == s.position && r.next == s.next
    ensures id !in s.live ==> r == s
  {
    s.(live := s.live - {id})
  }

}
