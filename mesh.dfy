/**
 * The placement arithmetic of the builder's `createMesh`: without a pivot
 * the mesh itself is translated; with a pivot and a rotation the mesh sits
 * inside a parent group that is translated to the pivot and rotated, and the
 * mesh is offset within the group so that the box's unrotated position is
 * the same as without a pivot.
 *
 * The renderer's X axis runs opposite to the editor's, so every X coordinate
 * handed to the renderer is negated.
 */
module Mesh {
  import opened Geometry

  datatype Option<T> = None | Some(value: T)

  /**
   * What `createMesh` returns, reduced to its transform: a lone mesh at a
   * position, or a group at a position with an Euler rotation (in degrees,
   * before the renderer's degree-to-radian conversion) holding the mesh at
   * a position relative to the group.
   */
  datatype Placement =
    | Single(meshPosition: Vec3)
    | Pivoted(groupPosition: Vec3, groupRotation: Vec3, meshPosition: Vec3)

  function Add(a: Vec3, b: Vec3): Vec3
  {
    Vec3(a.x + b.x, a.y + b.y, a.z + b.z)
  }

  /** An editor point in the renderer's axes: X negated. */
  function ToRenderer(p: Vec3): Vec3
  {
    Vec3(-p.x, p.y, p.z)
  }

  /** The mesh position without a pivot: the origin in renderer axes, shifted by half the width. */
  function MeshOffset(width: real, origin: Vec3): Vec3
  {
    Vec3(-origin.x - width / 2.0, origin.y, origin.z)
  }

  /**
   * The transform `createMesh` builds. A pivot takes effect only when a
   * rotation is supplied with it; either one alone falls back to the lone
   * mesh.
   */
  function PlaceMesh(width: real, origin: Vec3, pivot: Option<Vec3>, rotation: Option<Vec3>): (p: Placement)
    ensures p.Pivoted? <==> pivot.Some? && rotation.Some?
    ensures p.Single? ==> p.meshPosition == MeshOffset(width, origin)
    ensures p.Pivoted? ==> p.groupPosition == ToRenderer(pivot.value)
    ensures p.Pivoted? ==> Add(p.groupPosition, p.meshPosition) == MeshOffset(width, origin)
    ensures p.Pivoted? ==> p.groupRotation == Vec3(-rotation.value.x, -rotation.value.y, rotation.value.z)
  {
    if pivot.Some? && rotation.Some? then
      var pv, r := pivot.value, rotation.value;
      Pivoted(Vec3(-pv.x, pv.y, pv.z),
              Vec3(-r.x, -r.y, r.z),
              Vec3(-origin.x - width / 2.0 + pv.x, origin.y - pv.y, origin.z - pv.z))
    else
      Single(Vec3(-origin.x - width / 2.0, origin.y, origin.z))
  }

  /** Where a point given in the mesh's own frame ends up, ignoring the group's rotation. */
  function UnrotatedPosition(p: Placement, local: Vec3): Vec3
  {
    match p
    case Single(m) => Add(m, local)
    case Pivoted(g, _, m) => Add(g, Add(m, local))
  }

  /**
   * Wrapping the mesh in a pivot group moves nothing by itself: with the
   * rotation left out, every point of the mesh lands where it lands without
   * a pivot, whatever the pivot and rotation are.
   */
  lemma PivotPreservesPlacement(width: real, origin: Vec3, pivot: Vec3, rotation: Vec3, local: Vec3)
    ensures UnrotatedPosition(PlaceMesh(width, origin, Some(pivot), Some(rotation)), local)
            == UnrotatedPosition(PlaceMesh(width, origin, None, None), local)
  {
  }
}
