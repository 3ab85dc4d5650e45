/**
 * The cuboid builder's emission loop: for every face of the face table, and
 * for every corner of that face, it appends the corner's position, the
 * face's normal and the corner's UV to three flat buffers, and after the
 * face's corners it appends two triangles to the index buffer.
 *
 * The buffers are specified face by face as `Flat.Flatten` of per-corner
 * (or per-face) chunks; `CreateCube` is proved to build exactly these, and
 * the lemmas below state the buffer layout, the index pattern and bounds,
 * and what the mirror flag changes.
 */
module Cube {
  import opened Geometry
  import opened Flat
  import opened Atlas

  /** The position appended for corner `c`: its offset scaled per axis, X negated when mirrored. */
  function CornerPosition(box: Box, c: Corner): seq<real>
  {
    [(if box.mirror then -c.pos.x else c.pos.x) * box.width, c.pos.y * box.height, c.pos.z * box.depth]
  }

  /** The six indices appended for a face whose first vertex is `n`: triangles (n, n+1, n+2) and (n+2, n+1, n+3). */
  function QuadIndices(n: int): seq<int>
  {
    [n, n + 1, n + 2, n + 2, n + 1, n + 3]
  }

  /** The number of vertices the faces emit: one per corner. */
  function VertexCount(faces: seq<Face>): nat
  {
    if faces == [] then 0 else VertexCount(faces[..|faces| - 1]) + |faces[|faces| - 1].corners|
  }

  // ---- One face's chunks: what the inner loop appends, corner by corner ----

  function FacePositions(box: Box, cs: seq<Corner>): seq<real>
  {
    Flatten(seq(|cs|, k requires 0 <= k < |cs| => CornerPosition(box, cs[k])))
  }

  function FaceNormals(dir: Vec3, cs: seq<Corner>): seq<real>
  {
    Flatten(seq(|cs|, k requires 0 <= k < |cs| => Components(dir)))
  }

  function FaceUVs(box: Box, f: Face, cs: seq<Corner>): seq<real>
    requires ValidAtlas(box)
  {
    Flatten(seq(|cs|, k requires 0 <= k < |cs| => CornerUV(box, f, cs[k])))
  }

  // ---- The whole buffers: what the outer loop appends, face by face ----

  /** The `positions` buffer for the face table `faces`. */
  function Positions(box: Box, faces: seq<Face>): seq<real>
  {
    Flatten(seq(|faces|, i requires 0 <= i < |faces| => FacePositions(box, faces[i].corners)))
  }

  /** The `normals` buffer for the face table `faces`. */
  function Normals(faces: seq<Face>): seq<real>
  {
    Flatten(seq(|faces|, i requires 0 <= i < |faces| => FaceNormals(faces[i].dir, faces[i].corners)))
  }

  /** The `uvs` buffer for the face table `faces`. */
  function UVs(box: Box, faces: seq<Face>): seq<real>
    requires ValidAtlas(box)
  {
    Flatten(seq(|faces|, i requires 0 <= i < |faces| => FaceUVs(box, faces[i], faces[i].corners)))
  }

  /** The `indices` buffer: face `i` contributes its quad at the number of vertices emitted before it. */
  function Indices(faces: seq<Face>): seq<int>
  {
    Flatten(seq(|faces|, i requires 0 <= i < |faces| => QuadIndices(VertexCount(faces[..i]))))
  }

  // ---- Appending one corner / one face ----

  lemma FacePositionsStep(box: Box, cs: seq<Corner>, j: nat)
    requires j < |cs|
    ensures FacePositions(box, cs[..j + 1]) == FacePositions(box, cs[..j]) + CornerPosition(box, cs[j])
  {
    var p := seq(j, k requires 0 <= k < j => CornerPosition(box, cs[..j][k]));
    var p' := seq(j + 1, k requires 0 <= k < j + 1 => CornerPosition(box, cs[..j + 1][k]));
    assert p' == p + [CornerPosition(box, cs[j])];
    FlattenSnoc(p, CornerPosition(box, cs[j]));
  }

  lemma FaceNormalsStep(dir: Vec3, cs: seq<Corner>, j: nat)
    requires j < |cs|
    ensures FaceNormals(dir, cs[..j + 1]) == FaceNormals(dir, cs[..j]) + Components(dir)
  {
    var n := seq(j, k requires 0 <= k < j => Components(dir));
    var n' := seq(j + 1, k requires 0 <= k < j + 1 => Components(dir));
    assert n' == n + [Components(dir)];
    FlattenSnoc(n, Components(dir));
  }

  lemma FaceUVsStep(box: Box, f: Face, cs: seq<Corner>, j: nat)
    requires ValidAtlas(box)
    requires j < |cs|
    ensures FaceUVs(box, f, cs[..j + 1]) == FaceUVs(box, f, cs[..j]) + CornerUV(box, f, cs[j])
  {
    var u := seq(j, k requires 0 <= k < j => CornerUV(box, f, cs[..j][k]));
    var u' := seq(j + 1, k requires 0 <= k < j + 1 => CornerUV(box, f, cs[..j + 1][k]));
    assert u' == u + [CornerUV(box, f, cs[j])];
    FlattenSnoc(u, CornerUV(box, f, cs[j]));
  }

  lemma PositionsStep(box: Box, faces: seq<Face>, i: nat)
    requires i < |faces|
    ensures Positions(box, faces[..i + 1]) == Positions(box, faces[..i]) + FacePositions(box, faces[i].corners)
  {
    var fs, fs' := faces[..i], faces[..i + 1];
    var p := seq(|fs|, k requires 0 <= k < |fs| => FacePositions(box, fs[k].corners));
    var p' := seq(|fs'|, k requires 0 <= k < |fs'| => FacePositions(box, fs'[k].corners));
    assert p' == p + [FacePositions(box, faces[i].corners)];
    FlattenSnoc(p, FacePositions(box, faces[i].corners));
  }

  lemma NormalsStep(faces: seq<Face>, i: nat)
    requires i < |faces|
    ensures Normals(faces[..i + 1]) == Normals(faces[..i]) + FaceNormals(faces[i].dir, faces[i].corners)
  {
    var fs, fs' := faces[..i], faces[..i + 1];
    var n := seq(|fs|, k requires 0 <= k < |fs| => FaceNormals(fs[k].dir, fs[k].corners));
    var n' := seq(|fs'|, k requires 0 <= k < |fs'| => FaceNormals(fs'[k].dir, fs'[k].corners));
    assert n' == n + [FaceNormals(faces[i].dir, faces[i].corners)];
    FlattenSnoc(n, FaceNormals(faces[i].dir, faces[i].corners));
  }

  lemma UVsStep(box: Box, faces: seq<Face>, i: nat)
    requires ValidAtlas(box)
    requires i < |faces|
    ensures UVs(box, faces[..i + 1]) == UVs(box, faces[..i]) + FaceUVs(box, faces[i], faces[i].corners)
  {
    var fs, fs' := faces[..i], faces[..i + 1];
    var u := seq(|fs|, k requires 0 <= k < |fs| => FaceUVs(box, fs[k], fs[k].corners));
    var u' := seq(|fs'|, k requires 0 <= k < |fs'| => FaceUVs(box, fs'[k], fs'[k].corners));
    assert u' == u + [FaceUVs(box, faces[i], faces[i].corners)];
    FlattenSnoc(u, FaceUVs(box, faces[i], faces[i].corners));
  }

  lemma IndicesStep(faces: seq<Face>, i: nat)
    requires i < |faces|
    ensures Indices(faces[..i + 1]) == Indices(faces[..i]) + QuadIndices(VertexCount(faces[..i]))
    ensures VertexCount(faces[..i + 1]) == VertexCount(faces[..i]) + |faces[i].corners|
  {
    var fs, fs' := faces[..i], faces[..i + 1];
    assert fs'[..i] == fs;
    var x := seq(|fs|, k requires 0 <= k < |fs| => QuadIndices(VertexCount(fs[..k])));
    var x' := seq(|fs'|, k requires 0 <= k < |fs'| => QuadIndices(VertexCount(fs'[..k])));
    forall k | 0 <= k < i
      ensures x'[k] == x[k]
    {
      assert fs'[..k] == fs[..k];
    }
    assert x' == x + [QuadIndices(VertexCount(fs))];
    FlattenSnoc(x, QuadIndices(VertexCount(fs)));
  }

  lemma FacePositionsLength(box: Box, cs: seq<Corner>)
    ensures |FacePositions(box, cs)| == 3 * |cs|
  {
    FlattenLength(seq(|cs|, k requires 0 <= k < |cs| => CornerPosition(box, cs[k])), 3);
  }

  // ---- The builder ----

  /**
   * The inner loop over one face's corners: appends each corner's position,
   * the face's normal and the corner's UV to the three vertex buffers.
   */
  method AppendFaceVertices(box: Box, face: Face, positions: seq<real>, normals: seq<real>, uvs: seq<real>)
    returns (positions': seq<real>, normals': seq<real>, uvs': seq<real>)
    requires ValidAtlas(box)
    ensures positions' == positions + FacePositions(box, face.corners)
    ensures normals' == normals + FaceNormals(face.dir, face.corners)
    ensures uvs' == uvs + FaceUVs(box, face, face.corners)
  {
    positions', normals', uvs' := positions, normals, uvs;
    var j := 0;
    while j < |face.corners|
      invariant 0 <= j <= |face.corners|
      invariant positions' == positions + FacePositions(box, face.corners[..j])
      invariant normals' == normals + FaceNormals(face.dir, face.corners[..j])
      invariant uvs' == uvs + FaceUVs(box, face, face.corners[..j])
    {
      var c := face.corners[j];
      FacePositionsStep(box, face.corners, j);
      FaceNormalsStep(face.dir, face.corners, j);
      FaceUVsStep(box, face, face.corners, j);
      positions' := positions' + CornerPosition(box, c);
      normals' := normals' + Components(face.dir);
      uvs' := uvs' + CornerUV(box, face, c);
      j := j + 1;
    }
    assert face.corners[..j] == face.corners;
  }

  /**
   * The emission loop: walks the face table once, appending per corner its
   * position, its face's normal and its UV, and per face the six indices of
   * its two triangles, based at the vertex count so far
   * (`positions.length / 3`).
   */
  method CreateCube(box: Box, faces: seq<Face>)
    returns (positions: seq<real>, normals: seq<real>, uvs: seq<real>, indices: seq<int>)
    requires ValidAtlas(box)
    ensures positions == Positions(box, faces)
    ensures normals == Normals(faces)
    ensures uvs == UVs(box, faces)
    ensures indices == Indices(faces)
  {
    positions, normals, uvs, indices := [], [], [], [];
    var i := 0;
    while i < |faces|
      invariant 0 <= i <= |faces|
      invariant positions == Positions(box, faces[..i])
      invariant normals == Normals(faces[..i])
      invariant uvs == UVs(box, faces[..i])
      invariant indices == Indices(faces[..i])
      invariant |positions| == 3 * VertexCount(faces[..i])
    {
      var face := faces[i];
      var ndx := |positions| / 3;
      assert ndx == VertexCount(faces[..i]);
      positions, normals, uvs := AppendFaceVertices(box, face, positions, normals, uvs);
      PositionsStep(box, faces, i);
      NormalsStep(faces, i);
      UVsStep(box, faces, i);
      IndicesStep(faces, i);
      FacePositionsLength(box, face.corners);
      assert faces[i] == face;
      indices := indices + [ndx, ndx + 1, ndx + 2, ndx + 2, ndx + 1, ndx + 3];
      i := i + 1;
    }
    assert faces[..i] == faces;
  }

  // ---- Buffer sizes ----

  lemma FaceNormalsLength(dir: Vec3, cs: seq<Corner>)
    ensures |FaceNormals(dir, cs)| == 3 * |cs|
  {
    assert |Components(dir)| == 3;
    FlattenLength(seq(|cs|, k requires 0 <= k < |cs| => Components(dir)), 3);
  }

  lemma FaceUVsLength(box: Box, f: Face, cs: seq<Corner>)
    requires ValidAtlas(box)
    ensures |FaceUVs(box, f, cs)| == 2 * |cs|
  {
    FlattenLength(seq(|cs|, k requires 0 <= k < |cs| => CornerUV(box, f, cs[k])), 2);
  }

  /** With four corners per face, the faces emit four vertices each. */
  lemma {:induction false} QuadVertexCount(faces: seq<Face>)
    requires AllQuads(faces)
    ensures VertexCount(faces) == 4 * |faces|
  {
    if faces != [] {
      var n := |faces| - 1;
      assert AllQuads(faces[..n]);
      QuadVertexCount(faces[..n]);
      assert IsQuad(faces[n]);
    }
  }

  /**
   * Whatever the corner counts, `positions` and `normals` hold three numbers
   * per vertex, `uvs` two per vertex, and `indices` six per face.
   */
  lemma {:induction false} BufferLengths(box: Box, faces: seq<Face>)
    requires ValidAtlas(box)
    ensures |Positions(box, faces)| == 3 * VertexCount(faces)
    ensures |Normals(faces)| == 3 * VertexCount(faces)
    ensures |UVs(box, faces)| == 2 * VertexCount(faces)
    ensures |Indices(faces)| == 6 * |faces|
  {
    if faces != [] {
      var n := |faces| - 1;
      BufferLengths(box, faces[..n]);
      PositionsStep(box, faces, n);
      NormalsStep(faces, n);
      UVsStep(box, faces, n);
      IndicesStep(faces, n);
      FacePositionsLength(box, faces[n].corners);
      FaceNormalsLength(faces[n].dir, faces[n].corners);
      FaceUVsLength(box, faces[n], faces[n].corners);
      assert faces[..n + 1] == faces;
    }
  }

  /** For a table of k four-cornered faces: 12k position and normal numbers, 8k UV numbers, 6k indices. */
  lemma QuadBufferLengths(box: Box, faces: seq<Face>)
    requires ValidAtlas(box)
    requires AllQuads(faces)
    ensures |Positions(box, faces)| == 12 * |faces|
    ensures |Normals(faces)| == 12 * |faces|
    ensures |UVs(box, faces)| == 8 * |faces|
    ensures |Indices(faces)| == 6 * |faces|
  {
    BufferLengths(box, faces);
    QuadVertexCount(faces);
  }

  // ---- Where each vertex lands ----

  /** Component `a` of the position of vertex 4i + c is component `a` of corner c of face i. */
  lemma PositionAt(box: Box, faces: seq<Face>, i: nat, c: nat, a: nat)
    requires AllQuads(faces)
    requires i < |faces| && c < 4 && a < 3
    ensures 3 * (4 * i + c) + a < |Positions(box, faces)|
    ensures Positions(box, faces)[3 * (4 * i + c) + a] == CornerPosition(box, faces[i].corners[c])[a]
  {
    var chunks := seq(|faces|, k requires 0 <= k < |faces| => FacePositions(box, faces[k].corners));
    forall k | 0 <= k < |faces|
      ensures |chunks[k]| == 12
    {
      FacePositionsLength(box, faces[k].corners);
      assert IsQuad(faces[k]);
    }
    FlattenAt(chunks, 12, i, 3 * c + a);
    var cs := faces[i].corners;
    assert IsQuad(faces[i]);
    FlattenAt(seq(|cs|, k requires 0 <= k < |cs| => CornerPosition(box, cs[k])), 3, c, a);
  }

  /** Component `a` of the normal of vertex 4i + c is component `a` of face i's direction. */
  lemma NormalAt(faces: seq<Face>, i: nat, c: nat, a: nat)
    requires AllQuads(faces)
    requires i < |faces| && c < 4 && a < 3
    ensures 3 * (4 * i + c) + a < |Normals(faces)|
    ensures Normals(faces)[3 * (4 * i + c) + a] == Components(faces[i].dir)[a]
  {
    var chunks := seq(|faces|, k requires 0 <= k < |faces| => FaceNormals(faces[k].dir, faces[k].corners));
    forall k | 0 <= k < |faces|
      ensures |chunks[k]| == 12
    {
      FaceNormalsLength(faces[k].dir, faces[k].corners);
      assert IsQuad(faces[k]);
    }
    FlattenAt(chunks, 12, i, 3 * c + a);
    var cs := faces[i].corners;
    assert IsQuad(faces[i]);
    assert |Components(faces[i].dir)| == 3;
    FlattenAt(seq(|cs|, k requires 0 <= k < |cs| => Components(faces[i].dir)), 3, c, a);
  }

  /** UV number `b` of vertex 4i + c is UV number `b` of corner c of face i. */
  lemma UVAt(box: Box, faces: seq<Face>, i: nat, c: nat, b: nat)
    requires ValidAtlas(box)
    requires AllQuads(faces)
    requires i < |faces| && c < 4 && b < 2
    ensures 2 * (4 * i + c) + b < |UVs(box, faces)|
    ensures UVs(box, faces)[2 * (4 * i + c) + b] == CornerUV(box, faces[i], faces[i].corners[c])[b]
  {
    var chunks := seq(|faces|, k requires 0 <= k < |faces| => FaceUVs(box, faces[k], faces[k].corners));
    forall k | 0 <= k < |faces|
      ensures |chunks[k]| == 8
    {
      FaceUVsLength(box, faces[k], faces[k].corners);
      assert IsQuad(faces[k]);
    }
    FlattenAt(chunks, 8, i, 2 * c + b);
    var f := faces[i];
    assert IsQuad(f);
    var cs := f.corners;
    var inner := seq(|cs|, k requires 0 <= k < |cs| => CornerUV(box, f, cs[k]));
    FlattenAt(inner, 2, c, b);
    assert 8 * i + (2 * c + b) == 2 * (4 * i + c) + b;
  }

  // ---- The index buffer ----

  /** Face i's six indices are (4i, 4i+1, 4i+2, 4i+2, 4i+1, 4i+3): its base is 4i. */
  lemma IndexAt(faces: seq<Face>, i: nat, t: nat)
    requires AllQuads(faces)
    requires i < |faces| && t < 6
    ensures 6 * i + t < |Indices(faces)|
    ensures Indices(faces)[6 * i + t] == QuadIndices(4 * i)[t]
  {
    var chunks := seq(|faces|, k requires 0 <= k < |faces| => QuadIndices(VertexCount(faces[..k])));
    assert Uniform(chunks, 6);
    FlattenAt(chunks, 6, i, t);
    assert AllQuads(faces[..i]);
    QuadVertexCount(faces[..i]);
  }

  lemma IndexInRange(faces: seq<Face>, k: nat)
    requires AllQuads(faces)
    requires k < 6 * |faces|
    ensures k < |Indices(faces)| && 0 <= Indices(faces)[k] < 4 * |faces|
  {
    var i, t := k / 6, k % 6;
    assert 6 * i + t == k;
    assert i < |faces|;
    IndexAt(faces, i, t);
  }

  /** Every index names a vertex that was emitted: it lies in [0, vertex count). */
  lemma IndicesInRange(faces: seq<Face>)
    requires AllQuads(faces)
    ensures |Indices(faces)| == 6 * |faces|
    ensures forall k :: 0 <= k < |Indices(faces)| ==> 0 <= Indices(faces)[k] < VertexCount(faces)
  {
    var chunks := seq(|faces|, k requires 0 <= k < |faces| => QuadIndices(VertexCount(faces[..k])));
    assert Uniform(chunks, 6);
    FlattenLength(chunks, 6);
    QuadVertexCount(faces);
    var xs := Indices(faces);
    forall k | 0 <= k < |xs|
      ensures 0 <= xs[k] < VertexCount(faces)
    {
      IndexInRange(faces, k);
    }
  }

  // ---- Mirroring ----

  /**
   * `q` is `p` with every X component (every third number, from the first)
   * negated and every Y and Z component unchanged.
   */
  predicate XNegated(p: seq<real>, q: seq<real>)
  {
    && |p| == |q|
    && |p| % 3 == 0
    && forall k :: 0 <= k < |p| ==> q[k] == if k % 3 == 0 then -p[k] else p[k]
  }

  lemma XNegatedAppend(p: seq<real>, q: seq<real>, p': seq<real>, q': seq<real>)
    requires XNegated(p, q) && XNegated(p', q')
    ensures XNegated(p + p', q + q')
  {
    forall k | |p| <= k < |p| + |p'|
      ensures (q + q')[k] == if k % 3 == 0 then -(p + p')[k] else (p + p')[k]
    {
      assert (k - |p|) % 3 == k % 3;
    }
  }

  lemma {:induction false} FacePositionsMirrored(box: Box, f: Face, j: nat)
    requires ValidAtlas(box)
    requires j <= |f.corners|
    ensures XNegated(FacePositions(box, f.corners[..j]), FacePositions(Mirrored(box), f.corners[..j]))
  {
    if j > 0 {
      FacePositionsMirrored(box, f, j - 1);
      FacePositionsStep(box, f.corners, j - 1);
      FacePositionsStep(Mirrored(box), f.corners, j - 1);
      XNegatedAppend(FacePositions(box, f.corners[..j - 1]), FacePositions(Mirrored(box), f.corners[..j - 1]),
                     CornerPosition(box, f.corners[j - 1]), CornerPosition(Mirrored(box), f.corners[j - 1]));
    }
  }

  lemma {:induction false} PositionsMirrored(box: Box, faces: seq<Face>, i: nat)
    requires ValidAtlas(box)
    requires i <= |faces|
    ensures XNegated(Positions(box, faces[..i]), Positions(Mirrored(box), faces[..i]))
  {
    if i > 0 {
      PositionsMirrored(box, faces, i - 1);
      PositionsStep(box, faces, i - 1);
      PositionsStep(Mirrored(box), faces, i - 1);
      var f := faces[i - 1];
      FacePositionsMirrored(box, f, |f.corners|);
      assert f.corners[..|f.corners|] == f.corners;
      XNegatedAppend(Positions(box, faces[..i - 1]), Positions(Mirrored(box), faces[..i - 1]),
                     FacePositions(box, f.corners), FacePositions(Mirrored(box), f.corners));
    }
  }

  lemma FaceUVsIgnoreMirror(box: Box, f: Face, cs: seq<Corner>)
    requires ValidAtlas(box)
    ensures FaceUVs(Mirrored(box), f, cs) == FaceUVs(box, f, cs)
  {
    var m := Mirrored(box);
    var u := seq(|cs|, k requires 0 <= k < |cs| => CornerUV(box, f, cs[k]));
    var u' := seq(|cs|, k requires 0 <= k < |cs| => CornerUV(m, f, cs[k]));
    forall k | 0 <= k < |cs|
      ensures u'[k] == u[k]
    {
      UVIgnoresMirror(box, f, cs[k]);
    }
    assert u' == u;
  }

  /**
   * Toggling the mirror flag negates the X component of every position and
   * changes nothing else: Y and Z positions and all UVs are the same (the
   * normals and indices do not depend on the box at all).
   */
  lemma MirrorNegatesOnlyX(box: Box, faces: seq<Face>)
    requires ValidAtlas(box)
    ensures XNegated(Positions(box, faces), Positions(Mirrored(box), faces))
    ensures UVs(Mirrored(box), faces) == UVs(box, faces)
  {
    PositionsMirrored(box, faces, |faces|);
    assert faces[..|faces|] == faces;
    var m := Mirrored(box);
    var u := seq(|faces|, k requires 0 <= k < |faces| => FaceUVs(box, faces[k], faces[k].corners));
    var u' := seq(|faces|, k requires 0 <= k < |faces| => FaceUVs(m, faces[k], faces[k].corners));
    forall k | 0 <= k < |faces|
      ensures u'[k] == u[k]
    {
      FaceUVsIgnoreMirror(box, faces[k], faces[k].corners);
    }
    assert u' == u;
  }
}
