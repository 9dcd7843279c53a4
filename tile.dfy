/** Tiling: copies of a reference slab laid out on an `nx` by `ny` grid at the
    target pitch, concatenated and welded into one mesh. */
module Tile {
  import opened Meshes

  /** Python's `range(n)` has no elements when `n` is negative. */
  function RangeLength(n: int): nat {
    if n < 0 then 0 else n
  }

  /** The translation of the copy in column `i`, row `j`. */
  function TileOffset(i: nat, j: nat, pitch: real): Vec3 {
    Vec3(i as real * pitch, j as real * pitch, 0.0)
  }

  /** The offsets the inner loop visits for column `i`. */
  function Row(i: nat, ny: nat, pitch: real): seq<Vec3> {
    seq(ny, j requires 0 <= j < ny => TileOffset(i, j, pitch))
  }

  /** The offsets of the whole loop nest in visiting order: column by column,
      within a column row by row. */
  function Layout(nx: nat, ny: nat, pitch: real): seq<Vec3> {
    if nx == 0 then [] else Layout(nx - 1, ny, pitch) + Row(nx - 1, ny, pitch)
  }

  /** One translated copy of the reference per offset, in order. */
  function Tiles(ref: MeshData, offsets: seq<Vec3>): seq<MeshData> {
    seq(|offsets|, k requires 0 <= k < |offsets| => Translate(ref, offsets[k]))
  }

  /** The slab `tile_reference` returns. */
  function TileSlab(lib: MeshLib, ref: MeshData, nx: int, ny: int, pitch: real): MeshData {
    lib.mergeVertices(Concatenate(Tiles(ref, Layout(RangeLength(nx), RangeLength(ny), pitch))))
  }

  /** The layout holds `nx * ny` offsets, and position `i * ny + j` is the
      copy of column `i`, row `j`. */
  lemma {:induction false} LayoutIndex(nx: nat, ny: nat, pitch: real, i: nat, j: nat)
    requires i < nx && j < ny
    ensures |Layout(nx, ny, pitch)| == nx * ny
    ensures i * ny + j < nx * ny
    ensures Layout(nx, ny, pitch)[i * ny + j] == TileOffset(i, j, pitch)
  {
    LayoutLength(nx, ny, pitch);
    LayoutLength(nx - 1, ny, pitch);
    CellBelow(i, j, nx, ny);
    var k := i * ny + j;
    if i < nx - 1 {
      CellBelow(i, j, nx - 1, ny);
      LayoutIndex(nx - 1, ny, pitch, i, j);
    } else {
      assert k == (nx - 1) * ny + j;
    }
  }

  /** Cell `(i, j)` of an `n` by `ny` grid has an index below `n * ny`. */
  lemma CellBelow(i: nat, j: nat, n: nat, ny: nat)
    requires i < n && j < ny
    ensures i * ny + j < n * ny
  {
    MulMonotone(i + 1, n, ny);
  }

  lemma MulMonotone(a: nat, b: nat, c: nat)
    requires a <= b
    ensures a * c <= b * c
  {
    assert b * c == a * c + (b - a) * c;
  }

  /** The layout holds `nx * ny` offsets. */
  lemma {:induction false} LayoutLength(nx: nat, ny: nat, pitch: real)
    ensures |Layout(nx, ny, pitch)| == nx * ny
  {
    if nx > 0 {
      LayoutLength(nx - 1, ny, pitch);
      assert nx * ny == (nx - 1) * ny + ny;
    }
  }

  /** Every position of the layout is the copy of some column `i < nx` and row
      `j < ny`, at index `i * ny + j`. */
  lemma {:induction false} LayoutCell(nx: nat, ny: nat, pitch: real, k: nat) returns (i: nat, j: nat)
    requires k < |Layout(nx, ny, pitch)|
    ensures i < nx && j < ny && k == i * ny + j
    ensures Layout(nx, ny, pitch)[k] == TileOffset(i, j, pitch)
  {
    var front := Layout(nx - 1, ny, pitch);
    LayoutLength(nx - 1, ny, pitch);
    if k < |front| {
      i, j := LayoutCell(nx - 1, ny, pitch, k);
    } else {
      i, j := nx - 1, k - |front|;
    }
  }

  /** With a non-zero pitch no two copies land on the same offset. */
  lemma LayoutDistinct(nx: nat, ny: nat, pitch: real, k1: nat, k2: nat)
    requires pitch != 0.0
    requires k1 < |Layout(nx, ny, pitch)| && k2 < |Layout(nx, ny, pitch)|
    requires Layout(nx, ny, pitch)[k1] == Layout(nx, ny, pitch)[k2]
    ensures k1 == k2
  {
    var i1, j1 := LayoutCell(nx, ny, pitch, k1);
    var i2, j2 := LayoutCell(nx, ny, pitch, k2);
    OffsetInjective(i1, j1, i2, j2, pitch);
  }

  /** Distinct cells have distinct offsets when the pitch is not zero. */
  lemma OffsetInjective(i1: nat, j1: nat, i2: nat, j2: nat, pitch: real)
    requires pitch != 0.0 && TileOffset(i1, j1, pitch) == TileOffset(i2, j2, pitch)
    ensures i1 == i2 && j1 == j2
  {
    CancelPitch(i1, i2, pitch);
    CancelPitch(j1, j2, pitch);
  }

  lemma CancelPitch(a: nat, b: nat, pitch: real)
    requires pitch != 0.0 && a as real * pitch == b as real * pitch
    ensures a == b
  {
    assert (a as real - b as real) * pitch == 0.0;
  }

  /** With a positive pitch every copy is moved within the rectangle from the
      origin to `((nx - 1) * pitch, (ny - 1) * pitch)`, and never in Z. */
  lemma LayoutSpan(nx: nat, ny: nat, pitch: real, k: nat)
    requires pitch > 0.0 && k < |Layout(nx, ny, pitch)|
    ensures nx >= 1 && ny >= 1
    ensures 0.0 <= Layout(nx, ny, pitch)[k].x <= (nx - 1) as real * pitch
    ensures 0.0 <= Layout(nx, ny, pitch)[k].y <= (ny - 1) as real * pitch
    ensures Layout(nx, ny, pitch)[k].z == 0.0
  {
    var i, j := LayoutCell(nx, ny, pitch, k);
    OffsetSpan(i, j, nx, ny, pitch);
  }

  lemma OffsetSpan(i: nat, j: nat, nx: nat, ny: nat, pitch: real)
    requires pitch > 0.0 && i < nx && j < ny
    ensures 0.0 <= TileOffset(i, j, pitch).x <= (nx - 1) as real * pitch
    ensures 0.0 <= TileOffset(i, j, pitch).y <= (ny - 1) as real * pitch
  {
    ScaleUpTo(i, nx - 1, pitch);
    ScaleUpTo(j, ny - 1, pitch);
  }

  lemma ScaleUpTo(a: nat, b: nat, pitch: real)
    requires a <= b && pitch > 0.0
    ensures 0.0 <= a as real * pitch <= b as real * pitch
  {
  }

  /** A single tile is the reference itself, not moved. */
  lemma SingleTileUnmoved(pitch: real)
    ensures Layout(1, 1, pitch) == [Vec3(0.0, 0.0, 0.0)]
  {
    assert Row(0, 1, pitch) == [TileOffset(0, 0, pitch)];
  }

  /** A count that is zero or negative lays out no copies. */
  lemma NegativeCountIsEmpty(nx: int, ny: int, pitch: real)
    requires nx <= 0 || ny <= 0
    ensures Layout(RangeLength(nx), RangeLength(ny), pitch) == []
  {
    LayoutLength(RangeLength(nx), RangeLength(ny), pitch);
  }

  /** Appending one offset appends one translated copy. */
  lemma TilesSnoc(ref: MeshData, offsets: seq<Vec3>, o: Vec3)
    ensures Tiles(ref, offsets + [o]) == Tiles(ref, offsets) + [Translate(ref, o)]
  {
  }

  /** `tile_reference`: the loop nest copying and translating the reference
      slice, then one concatenation and a vertex merge. The reference itself
      is not changed. */
  method TileReference(lib: MeshLib, refSlice: Trimesh, nx: int, ny: int, pitch: real) returns (slab: Trimesh)
    ensures fresh(slab)
    ensures slab.Data() == TileSlab(lib, refSlice.Data(), nx, ny, pitch)
  {
    var ref := refSlice.Data();
    var cols, rows := RangeLength(nx), RangeLength(ny);
    var tiles: seq<MeshData> := [];
    for i := 0 to cols
      invariant tiles == Tiles(ref, Layout(i, rows, pitch))
    {
      for j := 0 to rows
        invariant tiles == Tiles(ref, Layout(i, rows, pitch) + Row(i, rows, pitch)[..j])
      {
        var t := refSlice.Copy();
        t.ApplyTranslation(TileOffset(i, j, pitch));
        assert Row(i, rows, pitch)[..j + 1] == Row(i, rows, pitch)[..j] + [TileOffset(i, j, pitch)];
        assert Layout(i, rows, pitch) + Row(i, rows, pitch)[..j + 1]
            == (Layout(i, rows, pitch) + Row(i, rows, pitch)[..j]) + [TileOffset(i, j, pitch)];
        TilesSnoc(ref, Layout(i, rows, pitch) + Row(i, rows, pitch)[..j], TileOffset(i, j, pitch));
        tiles := tiles + [t.Data()];
      }
      assert Row(i, rows, pitch)[..rows] == Row(i, rows, pitch);
    }
    slab := new Trimesh(Concatenate(tiles));
    slab.MergeVertices(lib);
  }
}
