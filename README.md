# Cuboid builder model

A Dafny model of the procedural cuboid builder of the Bridge editor
(`src/renderer/scripts/editor/Model/createCube.ts`). Given a box's width,
height and depth, the box's texel origin in a texture atlas, the atlas size,
a mirror flag and a face table, `createCube` fills four flat buffers:

- `positions`: three numbers per vertex, the corner offset scaled per axis,
  X negated when the box is mirrored;
- `normals`: three numbers per vertex, the face direction copied per corner;
- `uvs`: two numbers per vertex, the corner's place in the box's cell of an
  unfolded-box atlas layout, divided by the atlas size, V flipped so that
  texel row 0 is the top of the atlas;
- `indices`: six per face, the triangles (n, n+1, n+2) and (n+2, n+1, n+3)
  where n is the number of vertices emitted before the face.

Its `createMesh` then places the geometry: a lone mesh translated to the
origin (X negated, shifted by half the width), or, when a pivot and a
rotation are both given, a group at the pivot carrying the rotation with the
mesh offset inside it.

Files:

- `geometry.dfy` (module `Geometry`): the box, the face-table records
  (direction, corners with position offset and UV corner, base-UV slot pair),
  `Math.floor` and `Number(boolean)`.
- `flat.dfy` (module `Flat`): a flat buffer as the concatenation of the
  chunks appended to it, with its length and indexing lemmas.
- `atlas.dfy` (module `Atlas`): the per-corner UV formula and the layout of
  the atlas cells.
- `cube.dfy` (module `Cube`): the emission loop as the method `CreateCube`
  (the corner loop is its helper method `AppendFaceVertices`), the four
  buffers as specification functions (`Positions`, `Normals`, `UVs`,
  `Indices`), and the lemmas about their sizes, layout, index pattern, index
  bounds and mirroring.
- `mesh.dfy` (module `Mesh`): the translation arithmetic of `createMesh` as a
  value (`Placement`).

All numbers are `real`. The face table is a parameter (`seq<Face>`): the
table itself lives in a file that is not part of this model. The base-UV
pair is taken to be integers, the face table's slot numbers. The emission
method accepts faces with any number of corners, as the source's loop does;
the four-corners-per-face shape (`AllQuads`) is required only by the lemmas
about the index pattern and the vertex layout, since the index pattern is
written for quads.

A six-face table yields 36 indices (six per face), as the code emits them.

## Model

| member | source | states |
|---|---|---|
| `Geometry.Floor` | src/renderer/scripts/editor/Model/createCube.ts:43-64 | `Math.floor`: the result is an integer within 1 below its argument |
| `Cube.CreateCube` | src/renderer/scripts/editor/Model/createCube.ts:19-70 | the loop's four buffers are exactly `Positions`, `Normals`, `UVs` and `Indices` of the face table; each face's indices are based at `positions.length / 3`, the vertex count so far |
| `Cube.AppendFaceVertices` | src/renderer/scripts/editor/Model/createCube.ts:31-67 | the corner loop appends to the three vertex buffers exactly the face's per-corner positions, its direction once per corner, and the per-corner UVs |
| `Cube.QuadVertexCount` | src/renderer/scripts/editor/Model/createCube.ts:29 | with four corners per face, the vertex count after k faces is 4k, so the base index of face i is 4i |
| `Cube.BufferLengths` | src/renderer/scripts/editor/Model/createCube.ts:24-70 | for any corner counts: 3 position and 3 normal numbers and 2 UV numbers per vertex, 6 indices per face |
| `Cube.QuadBufferLengths` | src/renderer/scripts/editor/Model/createCube.ts:24-70 | for k four-cornered faces: 12k position numbers, 12k normal numbers, 8k UV numbers, 6k indices (36 for six faces) |
| `Cube.PositionAt` | src/renderer/scripts/editor/Model/createCube.ts:35 | vertex 4i+c holds corner c of face i's offset scaled by width, height, depth, X negated when mirrored |
| `Cube.NormalAt` | src/renderer/scripts/editor/Model/createCube.ts:36 | every vertex of face i has face i's direction as its normal, unchanged |
| `Cube.UVAt` | src/renderer/scripts/editor/Model/createCube.ts:38-66 | vertex 4i+c holds the atlas UV of corner c of face i |
| `Cube.IndexAt` | src/renderer/scripts/editor/Model/createCube.ts:69 | face i's six indices are 4i, 4i+1, 4i+2, 4i+2, 4i+1, 4i+3: two triangles sharing the diagonal 4i+1 to 4i+2 |
| `Cube.IndicesInRange` | src/renderer/scripts/editor/Model/createCube.ts:29-69 | there are 6 indices per face and each lies in [0, vertex count) |
| `Cube.MirrorNegatesOnlyX` | src/renderer/scripts/editor/Model/createCube.ts:35-66 | toggling `mirror` negates every X position and keeps every Y and Z position and every UV; normals and indices do not depend on the box |
| `Atlas.CornerUVStep` | src/renderer/scripts/editor/Model/createCube.ts:38-66 | UV is affine in the corner's UV coordinate: a change of u moves U by that change times the cell width over tW, a change of v moves V by that change times the cell height over tH |
| `Atlas.UnitCornerSpanU` | src/renderer/scripts/editor/Model/createCube.ts:46-50 | of two corners of one face, the u = 1 corner lies right of the u = 0 corner by the cell width over tW, whatever their v; the cell width is floor(depth) for slot 0 and side-row slot 2, floor(width) otherwise |
| `Atlas.UnitCornerSpanV` | src/renderer/scripts/editor/Model/createCube.ts:52-65 | of two corners of one face, the v = 1 corner has a V larger than the v = 0 corner by the cell height over tH, whatever their u; the cell height is floor(depth) in the top row, floor(height) in the side row |
| `Atlas.SideRowStrip` | src/renderer/scripts/editor/Model/createCube.ts:40-50 | the side row's four cells start at the box origin, are depth, width, depth, width wide, and abut without gap or overlap |
| `Atlas.TopRowCells` | src/renderer/scripts/editor/Model/createCube.ts:40-64 | the top row's two width-wide cells sit side by side above side-row slot 1 onward; the top row is depth high and ends where the height-high side row begins |
| `Atlas.UVIgnoresMirror` | src/renderer/scripts/editor/Model/createCube.ts:38-66 | a corner's UV does not depend on the mirror flag |
| `Atlas.DoublingPreservesUV` | src/renderer/scripts/editor/Model/createCube.ts:38-66 | for whole-texel dimensions, doubling the texel origin, the dimensions and the atlas size leaves every corner's UV unchanged |
| `Mesh.PlaceMesh` | src/renderer/scripts/editor/Model/createCube.ts:99-122 | a group is built exactly when both pivot and rotation are given; the group sits at the pivot in renderer axes with rotation (-rX, -rY, rZ) degrees, and group position plus mesh position equals the lone mesh's position |
| `Mesh.PivotPreservesPlacement` | src/renderer/scripts/editor/Model/createCube.ts:99-122 | ignoring rotation, every point of the mesh lands at the same place with and without a pivot group |

## Left out

- `createGeometry` (the conversion to the renderer's buffer-geometry and attribute objects and the narrowing to 32-bit floats): a foreign rendering library and float rounding.
- The `Mesh` and `Group` objects, `group.add` and the material: scene-graph objects of the renderer. `Mesh.Placement` keeps only their positions and the group's rotation.
- The degree-to-radian conversion of the rotation: floating-point arithmetic in the renderer. The rotation is kept in degrees with its sign pattern (-rX, -rY, rZ).
- `group.name`: a debugging label built from a global, with no effect on geometry.
- `Atlas.DoublingPreservesUV`: scale invariance of the UVs holds only for whole-texel dimensions. The cells are sized by floored dimensions, so with fractional ones it fails: depth 1.5 gives a depth-wide cell of 1 texel, but depth 3 gives one of 3 texels, not 2.
- IEEE-754 rounding throughout: all arithmetic is over `real`.
- The contents of the face table: it is a parameter, so facts about the six concrete faces (which directions they have, which atlas slot each takes) are not stated; the buffer lemmas hold for any table of four-cornered faces, six included.
- `Cube.CreateCube`: requires a positive atlas size (`ValidAtlas`). The source accepts any atlas size: with a zero width or height it divides by zero and emits non-finite UVs, and with a negative one it divides by that negative size without complaint. The model represents neither non-positive case.
- `Cube.AppendFaceVertices`: the source runs the corner loop inline inside the face loop; here it is a separate method with the same body, called once per face.
- The layout lemmas (`Cube.PositionAt`, `Cube.NormalAt`, `Cube.UVAt`, `Cube.IndexAt`, `Cube.IndicesInRange`) assume four corners per face; with other corner counts the source's fixed index pattern can reference vertices of the next face or past the end, and the model does not state what happens then.
