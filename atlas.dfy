/**
 * The per-corner UV formula of the cuboid builder: a face's corner is placed
 * in the box's cell of an unfolded-box texture template ("box UV"), and the
 * texel coordinate is normalised by the atlas size with V flipped so that
 * texel row 0 is the top of the atlas.
 *
 * Layout, with d, w, h the floored depth, width and height and (uvX, uvY)
 * the box's texel origin:
 *
 *             d        w        w
 *   row 0   |      | slot 1 | slot 2 |          (height d)
 *   row 1   | slot 0 | slot 1 | slot 2 | slot 3 | (height h)
 *              d        w        d        w
 */
module Atlas {
  import opened Geometry

  /** Texel distance from the box's atlas origin to the left edge of horizontal slot `col`. */
  function CellLeft(box: Box, col: int): real
  {
    (Number(col > 0) + Number(col > 2)) * Floor(box.depth) + Number(col > 1) * Floor(box.width)
  }

  /** Texel width of the cell: depth-wide for slot 0 and for slot 2 of the side row, width-wide otherwise. */
  function CellWidth(box: Box, col: int, row: int): real
  {
    if col == 0 || (row == 1 && col == 2) then Floor(box.depth) else Floor(box.width)
  }

  /** Texel distance from the box's atlas origin to the top edge of row `row`. */
  function CellTop(box: Box, row: int): real
  {
    (row as real) * Floor(box.depth)
  }

  /** Texel height of the cell: depth-high in the top row, height-high in the side row. */
  function CellHeight(box: Box, row: int): real
  {
    if row == 0 then Floor(box.depth) else Floor(box.height)
  }

  /** The horizontal UV of corner `c` of face `f`, as the builder computes it. */
  function CornerU(box: Box, f: Face, c: Corner): real
    requires ValidAtlas(box)
  {
    (box.uvX + CellLeft(box, f.baseUVX) + c.uv.u * CellWidth(box, f.baseUVX, f.baseUVY)) / box.tW
  }

  /** The vertical UV of corner `c` of face `f`, as the builder computes it. */
  function CornerV(box: Box, f: Face, c: Corner): real
    requires ValidAtlas(box)
  {
    1.0 - (box.uvY + CellTop(box, f.baseUVY) + CellHeight(box, f.baseUVY)
           - c.uv.v * CellHeight(box, f.baseUVY)) / box.tH
  }

  /** The two UV numbers appended for one corner. */
  function CornerUV(box: Box, f: Face, c: Corner): seq<real>
    requires ValidAtlas(box)
  {
    [CornerU(box, f, c), CornerV(box, f, c)]
  }

  /**
   * Moving a corner across its face changes its UV by the cell's span scaled
   * by the atlas size: one full step in u moves U by the cell width over tW,
   * one full step in v moves V by the cell height over tH.
   */
  lemma CornerUVStep(box: Box, f: Face, c0: Corner, c1: Corner)
    requires ValidAtlas(box)
    ensures CornerU(box, f, c1) - CornerU(box, f, c0)
            == (c1.uv.u - c0.uv.u) * CellWidth(box, f.baseUVX, f.baseUVY) / box.tW
    ensures CornerV(box, f, c1) - CornerV(box, f, c0)
            == (c1.uv.v - c0.uv.v) * CellHeight(box, f.baseUVY) / box.tH
  {
    var left, w := box.uvX + CellLeft(box, f.baseUVX), CellWidth(box, f.baseUVX, f.baseUVY);
    assert CornerU(box, f, c1) - CornerU(box, f, c0)
           == ((left + c1.uv.u * w) - (left + c0.uv.u * w)) / box.tW;
    var top, h := box.uvY + CellTop(box, f.baseUVY), CellHeight(box, f.baseUVY);
    assert CornerV(box, f, c1) - CornerV(box, f, c0)
           == ((top + h - c0.uv.v * h) - (top + h - c1.uv.v * h)) / box.tH;
  }

  /**
   * Of two corners on the same face, the one with u = 1 lies right of the one
   * with u = 0 by exactly the cell width over tW, whatever their v.
   */
  lemma UnitCornerSpanU(box: Box, f: Face, c0: Corner, c1: Corner)
    requires ValidAtlas(box)
    requires c0.uv.u == 0.0 && c1.uv.u == 1.0
    ensures CornerU(box, f, c1) - CornerU(box, f, c0) == CellWidth(box, f.baseUVX, f.baseUVY) / box.tW
  {
    CornerUVStep(box, f, c0, c1);
  }

  /**
   * Of two corners on the same face, the one with v = 1 lies above the one
   * with v = 0 (V grows upwards) by exactly the cell height over tH, whatever
   * their u.
   */
  lemma UnitCornerSpanV(box: Box, f: Face, c0: Corner, c1: Corner)
    requires ValidAtlas(box)
    requires c0.uv.v == 0.0 && c1.uv.v == 1.0
    ensures CornerV(box, f, c1) - CornerV(box, f, c0) == CellHeight(box, f.baseUVY) / box.tH
  {
    CornerUVStep(box, f, c0, c1);
  }

  /**
   * The side row is a strip of four cells that abut left to right, depth-wide
   * and width-wide in turn, starting at the box's atlas origin.
   */
  lemma SideRowStrip(box: Box)
    ensures CellLeft(box, 0) == 0.0
    ensures CellWidth(box, 0, 1) == Floor(box.depth) && CellWidth(box, 1, 1) == Floor(box.width)
    ensures CellWidth(box, 2, 1) == Floor(box.depth) && CellWidth(box, 3, 1) == Floor(box.width)
    ensures forall s :: 0 <= s < 3 ==> CellLeft(box, s + 1) == CellLeft(box, s) + CellWidth(box, s, 1)
  {
  }

  /**
   * The top row holds two width-wide cells side by side, the first above the
   * side row's slot 1, and the top row sits directly above the side row.
   */
  lemma TopRowCells(box: Box)
    ensures CellLeft(box, 1) == CellWidth(box, 0, 1) && CellWidth(box, 1, 0) == Floor(box.width)
    ensures CellWidth(box, 2, 0) == Floor(box.width)
    ensures CellLeft(box, 2) == CellLeft(box, 1) + CellWidth(box, 1, 0)
    ensures CellTop(box, 0) == 0.0 && CellHeight(box, 0) == Floor(box.depth)
    ensures CellTop(box, 1) == CellTop(box, 0) + CellHeight(box, 0)
    ensures CellHeight(box, 1) == Floor(box.height)
  {
  }

  /** UVs do not depend on the mirror flag: a mirrored box reads the same atlas region, unflipped. */
  lemma UVIgnoresMirror(box: Box, f: Face, c: Corner)
    requires ValidAtlas(box)
    ensures CornerUV(Mirrored(box), f, c) == CornerUV(box, f, c)
  {
    var m := Mirrored(box);
    assert m.width == box.width && m.height == box.height && m.depth == box.depth;
    assert m.uvX == box.uvX && m.uvY == box.uvY && m.tW == box.tW && m.tH == box.tH;
    assert CellLeft(m, f.baseUVX) == CellLeft(box, f.baseUVX);
    assert CellWidth(m, f.baseUVX, f.baseUVY) == CellWidth(box, f.baseUVX, f.baseUVY);
    assert CellTop(m, f.baseUVY) == CellTop(box, f.baseUVY);
    assert CellHeight(m, f.baseUVY) == CellHeight(box, f.baseUVY);
    assert CornerU(m, f, c) == CornerU(box, f, c);
    assert CornerV(m, f, c) == CornerV(box, f, c);
  }

  /**
   * The box and its atlas scaled by two: texel origin, dimensions and atlas
   * size all doubled.
   */
  function Doubled(box: Box): Box
  {
    box.(width := 2.0 * box.width, height := 2.0 * box.height, depth := 2.0 * box.depth,
         uvX := 2.0 * box.uvX, uvY := 2.0 * box.uvY, tW := 2.0 * box.tW, tH := 2.0 * box.tH)
  }

  /** The box's dimensions are whole texel counts. */
  predicate WholeDimensions(box: Box)
  {
    && box.width == box.width.Floor as real
    && box.height == box.height.Floor as real
    && box.depth == box.depth.Floor as real
  }

  lemma FloorOfDoubledWhole(x: real)
    requires x == x.Floor as real
    ensures Floor(2.0 * x) == 2.0 * Floor(x)
  {
    var n := x.Floor;
    var m := 2 * n;
    assert 2.0 * x == m as real;
    assert (m as real).Floor == m;
    assert Floor(2.0 * x) == m as real;
    assert Floor(x) == x;
  }

  /**
   * For whole-texel dimensions, scaling the texel origin, the dimensions and
   * the atlas size by the same factor two leaves every UV unchanged: the UVs
   * are normalised. (With fractional dimensions the floors break this: depth
   * 1.5 gives a depth-wide cell of 1 texel, depth 3 one of 3 texels.)
   */
  lemma DoublingPreservesUV(box: Box, f: Face, c: Corner)
    requires ValidAtlas(box)
    requires WholeDimensions(box)
    ensures ValidAtlas(Doubled(box))
    ensures CornerUV(Doubled(box), f, c) == CornerUV(box, f, c)
  {
    DoubledCells(box, f.baseUVX, f.baseUVY);
    DoubledU(box, f, c);
    DoubledV(box, f, c);
  }

  lemma DoubledCells(box: Box, col: int, row: int)
    requires WholeDimensions(box)
    ensures CellLeft(Doubled(box), col) == 2.0 * CellLeft(box, col)
    ensures CellWidth(Doubled(box), col, row) == 2.0 * CellWidth(box, col, row)
    ensures CellTop(Doubled(box), row) == 2.0 * CellTop(box, row)
    ensures CellHeight(Doubled(box), row) == 2.0 * CellHeight(box, row)
  {
    FloorOfDoubledWhole(box.width);
    FloorOfDoubledWhole(box.height);
    FloorOfDoubledWhole(box.depth);
  }

  lemma DoubledU(box: Box, f: Face, c: Corner)
    requires ValidAtlas(box)
    requires CellLeft(Doubled(box), f.baseUVX) == 2.0 * CellLeft(box, f.baseUVX)
    requires CellWidth(Doubled(box), f.baseUVX, f.baseUVY) == 2.0 * CellWidth(box, f.baseUVX, f.baseUVY)
    ensures ValidAtlas(Doubled(box))
    ensures CornerU(Doubled(box), f, c) == CornerU(box, f, c)
  {
    var d := Doubled(box);
    var nu := box.uvX + CellLeft(box, f.baseUVX) + c.uv.u * CellWidth(box, f.baseUVX, f.baseUVY);
    assert d.uvX + CellLeft(d, f.baseUVX) + c.uv.u * CellWidth(d, f.baseUVX, f.baseUVY) == 2.0 * nu;
    assert (2.0 * nu) / (2.0 * box.tW) == nu / box.tW;
  }

  lemma DoubledV(box: Box, f: Face, c: Corner)
    requires ValidAtlas(box)
    requires CellTop(Doubled(box), f.baseUVY) == 2.0 * CellTop(box, f.baseUVY)
    requires CellHeight(Doubled(box), f.baseUVY) == 2.0 * CellHeight(box, f.baseUVY)
    ensures ValidAtlas(Doubled(box))
    ensures CornerV(Doubled(box), f, c) == CornerV(box, f, c)
  {
    var d := Doubled(box);
    var nv := box.uvY + CellTop(box, f.baseUVY) + CellHeight(box, f.baseUVY) - c.uv.v * CellHeight(box, f.baseUVY);
    assert d.uvY + CellTop(d, f.baseUVY) + CellHeight(d, f.baseUVY) - c.uv.v * CellHeight(d, f.baseUVY) == 2.0 * nv;
    assert (2.0 * nv) / (2.0 * box.tH) == nv / box.tH;
  }
}
