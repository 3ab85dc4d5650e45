/**
 * Value records shared by the cuboid builder: the box specification, the
 * face table's records, and the numeric helpers the builder's formulas use
 * (`Math.floor` and `Number(boolean)`).
 */
module Geometry {

  /** A 3-component vector: a corner offset, a face direction or a position. */
  datatype Vec3 = Vec3(x: real, y: real, z: real)

  /** The flat-buffer form of a vector: x, y, z in that order. */
  function Components(v: Vec3): seq<real>
  {
    [v.x, v.y, v.z]
  }

  /** A corner's local UV coordinate; the face table uses 0 or 1 on each axis. */
  datatype UV = UV(u: real, v: real)

  /** One corner of a face: its offset from the box centre (in box units) and its UV corner. */
  datatype Corner = Corner(pos: Vec3, uv: UV)

  /**
   * One entry of the face table: the outward direction, the corners in
   * winding order, and the face's slot in the unfolded-box atlas layout
   * (`baseUVX` is the horizontal slot 0..3, `baseUVY` is 0 for the top
   * row of the layout and 1 for the side row).
   */
  datatype Face = Face(dir: Vec3, corners: seq<Corner>, baseUVX: int, baseUVY: int)

  /**
   * The builder's inputs: the box dimensions, the texel origin of the box in
   * the atlas, the atlas size in texels, and whether the box is mirrored
   * along X.
   */
  datatype Box = Box(
    width: real, height: real, depth: real,
    uvX: real, uvY: real,
    tW: real, tH: real,
    mirror: bool)

  /** The atlas has a non-zero size, so the UV normalisation is defined. */
  predicate ValidAtlas(box: Box)
  {
    box.tW > 0.0 && box.tH > 0.0
  }

  /** The same box with the mirror flag toggled. */
  function Mirrored(box: Box): Box
  {
    box.(mirror := !box.mirror)
  }

  /** `Math.floor`, kept as a real so it mixes with the other numbers. */
  function Floor(x: real): (r: real)
    ensures r <= x < r + 1.0
    ensures r == r.Floor as real
  {
    x.Floor as real
  }

  /** `Number(b)`: 1 for true and 0 for false. */
  function Number(b: bool): real
  {
    if b then 1.0 else 0.0
  }

  /** A face with exactly four corners, the shape the index pattern is written for. */
  predicate IsQuad(f: Face)
  {
    |f.corners| == 4
  }

  predicate AllQuads(faces: seq<Face>)
  {
    forall i :: 0 <= i < |faces| ==> IsQuad(faces[i])
  }
}
