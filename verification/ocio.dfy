/**
 * The OpenColorIO stage of the preview: the transform chain that grades and
 * converts colours, the bake of that chain into an N x N x N cube, the
 * repacking of the cube into a 2D atlas of N*N rows by N columns, and the
 * atlas coordinates at which each frame pixel is sampled.
 *
 * The OpenColorIO evaluator is opaque: a `Config` maps a transform chain to
 * the colour function it denotes, or to `None` when the chain names a colour
 * space, display or view the configuration does not know (the library raises
 * there). `cv2.remap` is opaque too: a `Remap` is handed the atlas and the two
 * coordinates computed here.
 */
module Ocio {
  import opened Wrappers
  import opened Pixel
  import opened Arith

  // ---------------------------------------------------------------------
  // Transform chain
  // ---------------------------------------------------------------------

  /** The four OpenColorIO transforms the pipeline composes. */
  datatype Transform =
    | ColorSpaceTransform(src: string, dst: string)
    | CdlTransform(slope: seq<real>, power: seq<real>, offset: seq<real>)
    | MatrixTransform(m44: seq<real>)
    | DisplayViewTransform(src: string, display: string, view: string)

  /** The colour spaces and display/view the pipeline was built with. */
  datatype Spaces = Spaces(input: string, working: string, device: string, view: string)

  /** A loaded OpenColorIO configuration: the processor of a chain, or None if it does not resolve. */
  datatype Config = Config(processor: seq<Transform> -> Option<RGB -> RGB>)

  /** A per-channel parameter triple with the same value on all three channels. */
  predicate Uniform3(v: seq<real>, x: real) {
    |v| == 3 && forall c :: 0 <= c < 3 ==> v[c] == x
  }

  /** `m` is a row-major 4x4 matrix with diagonal `d` and zeros elsewhere. */
  predicate Diagonal44(m: seq<real>, d: seq<real>) {
    |m| == 16 && |d| == 4 &&
    forall e :: 0 <= e < 16 ==> m[e] == (if e / 4 == e % 4 then d[e / 4] else 0.0)
  }

  /** The group transform handed to OpenColorIO by `update_processor`. */
  function ProcessorChain(spaces: Spaces, r: real, g: real, b: real, gain: real,
                          slopeVal: real, powerVal: real, offset: real): (group: seq<Transform>)
    ensures |group| == 4
    ensures group[0] == ColorSpaceTransform(spaces.input, spaces.working)
    ensures group[1].CdlTransform?
    ensures Uniform3(group[1].slope, slopeVal) && Uniform3(group[1].power, powerVal)
    ensures Uniform3(group[1].offset, offset)
    ensures group[2].MatrixTransform? && Diagonal44(group[2].m44, [r * gain, g * gain, b * gain, 1.0])
    ensures group[3] == DisplayViewTransform(spaces.working, spaces.device, spaces.view)
  {
    var m44 := [r * gain, 0.0, 0.0, 0.0,
                0.0, g * gain, 0.0, 0.0,
                0.0, 0.0, b * gain, 0.0,
                0.0, 0.0, 0.0, 1.0];
    [ ColorSpaceTransform(spaces.input, spaces.working),
      CdlTransform([slopeVal, slopeVal, slopeVal], [powerVal, powerVal, powerVal], [offset, offset, offset]),
      MatrixTransform(m44),
      DisplayViewTransform(spaces.working, spaces.device, spaces.view) ]
  }

  /** A row-major 4x4 matrix applied to the pixel (r, g, b, 1), alpha dropped. */
  function ApplyMatrix44(m: seq<real>, c: RGB): RGB
    requires |m| == 16
  {
    RGB(m[0] * c.r + m[1] * c.g + m[2] * c.b + m[3],
        m[4] * c.r + m[5] * c.g + m[6] * c.b + m[7],
        m[8] * c.r + m[9] * c.g + m[10] * c.b + m[11])
  }

  /** The matrix stage of the chain scales each channel by its white-balance multiplier times the gain. */
  lemma GainMatrixScalesChannels(spaces: Spaces, r: real, g: real, b: real, gain: real,
                                 slopeVal: real, powerVal: real, offset: real, c: RGB)
    ensures var m := ProcessorChain(spaces, r, g, b, gain, slopeVal, powerVal, offset)[2].m44;
      ApplyMatrix44(m, c) == RGB(r * gain * c.r, g * gain * c.g, b * gain * c.b)
  {
    var m := ProcessorChain(spaces, r, g, b, gain, slopeVal, powerVal, offset)[2].m44;
    var d := [r * gain, g * gain, b * gain, 1.0];
    assert Diagonal44(m, d);
    assert m[0] == d[0] && m[1] == 0.0 && m[2] == 0.0 && m[3] == 0.0;
    assert m[4] == 0.0 && m[5] == d[1] && m[6] == 0.0 && m[7] == 0.0;
    assert m[8] == 0.0 && m[9] == 0.0 && m[10] == d[2] && m[11] == 0.0;
  }

  // ---------------------------------------------------------------------
  // Bake layout
  // ---------------------------------------------------------------------

  /** The cube resolution per axis the program uses (32 x 32 x 32). */
  const Res: nat := 32

  /** Sample i of `np.linspace(0, 1, n)`: i/(n-1), or 0 when there is a single sample. */
  function GridValue(n: nat, i: nat): (x: real)
    requires i < n
    ensures 0.0 <= x <= 1.0
  {
    if n == 1 then 0.0
    else
      UnitFraction(i as real, (n - 1) as real);
      i as real / (n - 1) as real
  }

  /** `np.linspace(0, 1, n)`: n evenly spaced samples from 0 to 1 inclusive. */
  function Linspace(n: nat): (grid: seq<real>)
    ensures |grid| == n
    ensures forall i :: 0 <= i < n ==> grid[i] == GridValue(n, i)
  {
    seq(n, i requires 0 <= i < n => GridValue(n, i))
  }

  /** With at least two samples the grid starts at 0 and ends at 1 exactly. */
  lemma LinspaceEndpoints(n: nat)
    requires n >= 2
    ensures Linspace(n)[0] == 0.0 && Linspace(n)[n - 1] == 1.0
  {
    SelfQuotient((n - 1) as real);
  }

  lemma UnitFraction(x: real, m: real)
    requires 0.0 <= x <= m && m > 0.0
    ensures 0.0 <= x / m <= 1.0 && (x / m) * m == x
  {
  }

  lemma SelfQuotient(m: real)
    requires m > 0.0
    ensures m / m == 1.0
  {
  }

  /** The program's grid is strictly increasing. */
  lemma LinspaceIncreasing(i: nat, j: nat)
    requires i < j < Res
    ensures Linspace(Res)[i] < Linspace(Res)[j]
  {
  }

  /** The cube sample point with red index i, green index j and blue index k. */
  function GridPoint(n: nat, i: nat, j: nat, k: nat): RGB
    requires i < n && j < n && k < n
  {
    var grid := Linspace(n);
    RGB(grid[i], grid[j], grid[k])
  }

  /**
   * The stacked `np.meshgrid(grid, grid, grid, indexing='ij')`: the cube is
   * indexed [k][j][i], blue on the slowest axis and red on the fastest.
   */
  function Lattice(n: nat): (cube: seq<seq<seq<RGB>>>)
    ensures Cubic(cube, n)
  {
    seq(n, k requires 0 <= k < n =>
      seq(n, j requires 0 <= j < n =>
        seq(n, i requires 0 <= i < n => GridPoint(n, i, j, k))))
  }

  /** Row-major (C order) flattening of a sequence of rows. */
  function Flatten<T>(rows: seq<seq<T>>): seq<T> {
    if rows == [] then [] else rows[0] + Flatten(rows[1..])
  }

  /** Flattening rows of uniform width w puts element p of row q at q*w + p. */
  lemma {:induction false} FlattenAt<T>(rows: seq<seq<T>>, w: nat, q: nat, p: nat)
    requires forall r :: 0 <= r < |rows| ==> |rows[r]| == w
    requires q < |rows| && p < w
    ensures |Flatten(rows)| == |rows| * w
    ensures q * w + p < |Flatten(rows)| && Flatten(rows)[q * w + p] == rows[q][p]
  {
    FlattenLength(rows, w);
    RowMajorBound(|rows|, w, q, p);
    if q > 0 {
      FlattenAt(rows[1..], w, q - 1, p);
      MulSucc(q - 1, w);
    }
  }

  lemma {:induction false} FlattenLength<T>(rows: seq<seq<T>>, w: nat)
    requires forall r :: 0 <= r < |rows| ==> |rows[r]| == w
    ensures |Flatten(rows)| == |rows| * w
  {
    if rows != [] {
      FlattenLength(rows[1..], w);
      MulSucc(|rows| - 1, w);
    }
  }

  /**
   * `np.reshape(flat, (h, w))`: cut a flat sequence of h*w elements into h
   * rows of w elements, row-major.
   */
  function Reshape<T>(flat: seq<T>, h: nat, w: nat): (rows: seq<seq<T>>)
    requires |flat| == h * w
    ensures |rows| == h
    ensures forall q :: 0 <= q < h ==> |rows[q]| == w
    decreases h
  {
    if h == 0 then []
    else
      MulSucc(h - 1, w);
      [flat[..w]] + Reshape(flat[w..], h - 1, w)
  }

  /** Element p of row q of the reshaped sequence is element q*w + p of the flat one. */
  lemma {:induction false} ReshapeAt<T>(flat: seq<T>, h: nat, w: nat, q: nat, p: nat)
    requires |flat| == h * w
    requires q < h && p < w
    ensures q * w + p < |flat| && Reshape(flat, h, w)[q][p] == flat[q * w + p]
    decreases h
  {
    RowMajorBound(h, w, q, p);
    MulSucc(h - 1, w);
    if q > 0 {
      ReshapeAt(flat[w..], h - 1, w, q - 1, p);
      MulSucc(q - 1, w);
    }
  }

  /** Reshaping and then flattening gives back the flat sequence. */
  lemma {:induction false} FlattenReshape<T>(flat: seq<T>, h: nat, w: nat)
    requires |flat| == h * w
    ensures Flatten(Reshape(flat, h, w)) == flat
    decreases h
  {
    if h > 0 {
      MulSucc(h - 1, w);
      FlattenReshape(flat[w..], h - 1, w);
      assert Reshape(flat, h, w)[1..] == Reshape(flat[w..], h - 1, w);
      assert Reshape(flat, h, w)[0] == flat[..w];
      assert flat == flat[..w] + flat[w..];
    }
  }

  /** A cube of side n, indexed [k][j][i]. */
  ghost predicate Cubic<T>(cube: seq<seq<seq<T>>>, n: nat) {
    |cube| == n &&
    forall k :: 0 <= k < n ==> |cube[k]| == n && forall j :: 0 <= j < n ==> |cube[k][j]| == n
  }

  /** `reshape(-1, ...)` of a C-ordered cube: each plane flattened, then the planes concatenated. */
  function FlattenCube<T>(cube: seq<seq<seq<T>>>): seq<T> {
    Flatten(seq(|cube|, k requires 0 <= k < |cube| => Flatten(cube[k])))
  }

  /** The flat position of cube point (i, j, k): red fastest, then green, blue slowest. */
  function FlatIndex(n: nat, i: nat, j: nat, k: nat): (f: nat)
    requires i < n && j < n && k < n
    ensures f < n * n * n
  {
    RowMajorBound(n, n, j, i);
    RowMajorBound(n, n * n, k, j * n + i);
    k * (n * n) + (j * n + i)
  }

  /** Flattening a cube puts point (i, j, k) at FlatIndex(i, j, k). */
  lemma FlattenCubeAt<T>(cube: seq<seq<seq<T>>>, n: nat, i: nat, j: nat, k: nat)
    requires Cubic(cube, n) && i < n && j < n && k < n
    ensures |FlattenCube(cube)| == n * n * n
    ensures FlattenCube(cube)[FlatIndex(n, i, j, k)] == cube[k][j][i]
  {
    var planes := seq(n, k' requires 0 <= k' < n => Flatten(cube[k']));
    forall k' | 0 <= k' < n ensures |planes[k']| == n * n {
      FlattenLength(cube[k'], n);
    }
    FlattenCubeLength(cube, n);
    FlattenAt(cube[k], n, j, i);
    FlattenAt(planes, n * n, k, j * n + i);
  }

  lemma FlattenCubeLength<T>(cube: seq<seq<seq<T>>>, n: nat)
    requires Cubic(cube, n)
    ensures |FlattenCube(cube)| == n * n * n
  {
    var planes := seq(n, k requires 0 <= k < n => Flatten(cube[k]));
    forall k | 0 <= k < n ensures |planes[k]| == n * n {
      FlattenLength(cube[k], n);
    }
    FlattenLength(planes, n * n);
    assert n * (n * n) == n * n * n;
  }

  /**
   * The bake input `lut_input`: the lattice stacked and reshaped to a flat
   * list of N^3 RGB triples, red varying fastest and blue slowest.
   */
  function BakeInput(n: nat): (flat: seq<RGB>)
    ensures |flat| == n * n * n
  {
    FlattenCubeLength(Lattice(n), n);
    FlattenCube(Lattice(n))
  }

  /** The bake input at flat index k*N^2 + j*N + i is the grid point (i, j, k). */
  lemma BakeInputAt(n: nat, i: nat, j: nat, k: nat)
    requires i < n && j < n && k < n
    ensures BakeInput(n)[FlatIndex(n, i, j, k)] == GridPoint(n, i, j, k)
  {
    FlattenCubeAt(Lattice(n), n, i, j, k);
  }

  /** The atlas `lut_map`: the transformed bake input reshaped to N*N rows of N texels. */
  function Atlas(n: nat, t: RGB -> RGB): seq<seq<RGB>> {
    Reshape(MapPixels(BakeInput(n), t), n * n, n)
  }

  /** Row k*N + j of the atlas is in range, and its column i is flat position FlatIndex(i, j, k). */
  lemma CellIndex(n: nat, i: nat, j: nat, k: nat)
    requires i < n && j < n && k < n
    ensures k * n + j < n * n && (k * n + j) * n + i == FlatIndex(n, i, j, k)
  {
    RowMajorBound(n, n, k, j);
    RowMajor3(n, k, j, i);
  }

  /** The transformed bake input at FlatIndex(i, j, k) is the transform of grid point (i, j, k). */
  lemma TransformedBakeAt(n: nat, t: RGB -> RGB, i: nat, j: nat, k: nat)
    requires i < n && j < n && k < n
    ensures var f := FlatIndex(n, i, j, k);
      f < |MapPixels(BakeInput(n), t)| && MapPixels(BakeInput(n), t)[f] == t(GridPoint(n, i, j, k))
  {
    BakeInputAt(n, i, j, k);
  }

  /** Reshaping a flattened cube to N*N rows of N puts flat position FlatIndex(i, j, k) at cell (k*N + j, i). */
  lemma ReshapeCubeAt<T>(flat: seq<T>, n: nat, i: nat, j: nat, k: nat)
    requires |flat| == n * n * n && i < n && j < n && k < n
    ensures k * n + j < n * n && |Reshape(flat, n * n, n)[k * n + j]| == n
    ensures Reshape(flat, n * n, n)[k * n + j][i] == flat[FlatIndex(n, i, j, k)]
  {
    var q, f := k * n + j, FlatIndex(n, i, j, k);
    CellIndex(n, i, j, k);
    assert q * n + i == f;
    ReshapeAt(flat, n * n, n, q, i);
  }

  /** The atlas cell CubeToCell(i, j, k) holds the transform of grid point (i, j, k). */
  lemma AtlasAt(n: nat, t: RGB -> RGB, i: nat, j: nat, k: nat)
    requires i < n && j < n && k < n
    ensures var cell := CubeToCell(n, i, j, k);
      |Atlas(n, t)| == n * n && |Atlas(n, t)[cell.0]| == n &&
      Atlas(n, t)[cell.0][cell.1] == t(GridPoint(n, i, j, k))
  {
    ReshapeCubeAt(MapPixels(BakeInput(n), t), n, i, j, k);
    TransformedBakeAt(n, t, i, j, k);
  }

  /** The atlas cell (row, column) at which the bake stores cube point (i, j, k). */
  function CubeToCell(n: nat, i: nat, j: nat, k: nat): (cell: (nat, nat))
    requires i < n && j < n && k < n
    ensures cell.0 < n * n && cell.1 < n
  {
    RowMajorBound(n, n, k, j);
    (k * n + j, i)
  }

  /** The cube point (i, j, k) stored at atlas cell (row, column). */
  function CellToCube(n: nat, row: nat, col: nat): (ijk: (nat, nat, nat))
    requires row < n * n && col < n
    ensures ijk.0 < n && ijk.1 < n && ijk.2 < n
  {
    DivBound(row, n);
    (col, row % n, row / n)
  }

  /** The cube-to-atlas map is a bijection: CellToCube undoes CubeToCell ... */
  lemma CubeCellRoundTrip(n: nat, i: nat, j: nat, k: nat)
    requires i < n && j < n && k < n
    ensures var cell := CubeToCell(n, i, j, k); CellToCube(n, cell.0, cell.1) == (i, j, k)
  {
    DivModRowMajor(n, k, j);
  }

  /** ... and CubeToCell undoes CellToCube. */
  lemma CellCubeRoundTrip(n: nat, row: nat, col: nat)
    requires row < n * n && col < n
    ensures var ijk := CellToCube(n, row, col); CubeToCell(n, ijk.0, ijk.1, ijk.2) == (row, col)
  {
    var ijk := CellToCube(n, row, col);
    assert ijk == (col, row % n, row / n);
    assert (row / n) * n + row % n == row;
  }

  /** Every cell of the atlas holds the transform of the cube point CellToCube assigns to it. */
  lemma AtlasCellAt(n: nat, t: RGB -> RGB, row: nat, col: nat)
    requires row < n * n && col < n
    ensures |Atlas(n, t)| == n * n && |Atlas(n, t)[row]| == n
    ensures var ijk := CellToCube(n, row, col);
      Atlas(n, t)[row][col] == t(GridPoint(n, ijk.0, ijk.1, ijk.2))
  {
    var ijk := CellToCube(n, row, col);
    CellCubeRoundTrip(n, row, col);
    AtlasAt(n, t, ijk.0, ijk.1, ijk.2);
  }

  // ---------------------------------------------------------------------
  // Sample coordinates
  // ---------------------------------------------------------------------

  /** `map_x`: red scaled to the column range [0, N-1]. */
  function SampleX(n: nat, c: RGB): real {
    c.r * (n - 1) as real
  }

  /** The tile (block of N rows) selected by blue: blue scaled and floored, not interpolated. */
  function TileIndex(n: nat, c: RGB): int {
    (c.b * (n - 1) as real).Floor
  }

  /** `map_y`: green scaled to [0, N-1] within the tile chosen by blue. */
  function SampleY(n: nat, c: RGB): real {
    c.g * (n - 1) as real + (TileIndex(n, c) * n) as real
  }

  lemma FloorInRange(x: real, m: nat)
    requires 0.0 <= x <= m as real
    ensures 0 <= x.Floor <= m
  {
  }

  /** Tile t of N rows, t < N, spans rows t*N .. t*N + N-1, all below N*N. */
  lemma TileRows(n: nat, tile: int)
    requires 0 <= tile <= n - 1
    ensures 0 <= tile * n && tile * n + n - 1 <= n * n - 1
  {
    MulLe(0, tile, n);
    MulLe(tile, n - 1, n);
  }

  /*
   * The bounds below are stated at the program's resolution Res = 32: with the
   * scale N-1 a constant they are linear facts about reals.
   */

  /** Red in [0, 1] gives a column in [0, N-1]. */
  lemma ColumnInRange(c: RGB)
    requires 0.0 <= c.r <= 1.0
    ensures 0.0 <= SampleX(Res, c) <= (Res - 1) as real
  {
  }

  /** Blue in [0, 1] selects one of the N tiles. */
  lemma TileInRange(c: RGB)
    requires 0.0 <= c.b <= 1.0
    ensures 0 <= TileIndex(Res, c) <= Res - 1
  {
    FloorInRange(c.b * (Res - 1) as real, Res - 1);
  }

  /** Green in [0, 1] keeps the row inside the N rows of the tile. */
  lemma RowInTile(c: RGB)
    requires 0.0 <= c.g <= 1.0
    ensures (TileIndex(Res, c) * Res) as real <= SampleY(Res, c) <= (TileIndex(Res, c) * Res + Res - 1) as real
  {
  }

  /** For a pixel in the unit cube the sample coordinates stay inside the atlas and inside the blue tile. */
  lemma SampleInBounds(c: RGB)
    requires InUnitCube(c)
    ensures 0.0 <= SampleX(Res, c) <= (Res - 1) as real
    ensures 0 <= TileIndex(Res, c) <= Res - 1
    ensures (TileIndex(Res, c) * Res) as real <= SampleY(Res, c) <= (TileIndex(Res, c) * Res + Res - 1) as real
    ensures 0.0 <= SampleY(Res, c) <= (Res * Res - 1) as real
  {
    ColumnInRange(c);
    TileInRange(c);
    RowInTile(c);
    TileRows(Res, TileIndex(Res, c));
  }

  /** White (1, 1, 1) lands exactly on the last column of the last row. */
  lemma SampleWhite(n: nat)
    requires n >= 1
    ensures SampleX(n, RGB(1.0, 1.0, 1.0)) == (n - 1) as real
    ensures TileIndex(n, RGB(1.0, 1.0, 1.0)) == n - 1
    ensures SampleY(n, RGB(1.0, 1.0, 1.0)) == (n * n - 1) as real
  {
    assert ((n - 1) as real).Floor == n - 1;
    assert (n - 1) + (n - 1) * n == n * n - 1;
  }

  /** Scaling a grid value by N-1 recovers its index. */
  lemma GridScaled(n: nat, i: nat)
    requires n >= 2 && i < n
    ensures Linspace(n)[i] * (n - 1) as real == i as real
  {
    UnitFraction(i as real, (n - 1) as real);
  }

  /** At a grid point the red coordinate is exactly the red index. */
  lemma ColumnAtGridPoint(n: nat, i: nat, j: nat, k: nat)
    requires n >= 2 && i < n && j < n && k < n
    ensures SampleX(n, GridPoint(n, i, j, k)) == i as real
  {
    GridScaled(n, i);
  }

  /** At a grid point the blue tile is exactly the blue index. */
  lemma TileAtGridPoint(n: nat, i: nat, j: nat, k: nat)
    requires n >= 2 && i < n && j < n && k < n
    ensures TileIndex(n, GridPoint(n, i, j, k)) == k
  {
    GridScaled(n, k);
    assert (k as real).Floor == k;
  }

  /** At a grid point the row is exactly k*N + j. */
  lemma RowAtGridPoint(n: nat, i: nat, j: nat, k: nat)
    requires n >= 2 && i < n && j < n && k < n
    ensures SampleY(n, GridPoint(n, i, j, k)) == (k * n + j) as real
  {
    var c := GridPoint(n, i, j, k);
    GridScaled(n, j);
    TileAtGridPoint(n, i, j, k);
    var base := k * n;
    assert SampleY(n, c) == j as real + base as real;
  }

  /**
   * At a grid point the sample coordinates are exactly the cell where the bake
   * stored that point.
   */
  lemma SampleAtGridPoint(n: nat, i: nat, j: nat, k: nat)
    requires n >= 2 && i < n && j < n && k < n
    ensures var c := GridPoint(n, i, j, k);
      SampleX(n, c) == i as real && TileIndex(n, c) == k &&
      SampleY(n, c) == (k * n + j) as real &&
      SampleX(n, c) == CubeToCell(n, i, j, k).1 as real &&
      SampleY(n, c) == CubeToCell(n, i, j, k).0 as real
  {
    ColumnAtGridPoint(n, i, j, k);
    TileAtGridPoint(n, i, j, k);
    RowAtGridPoint(n, i, j, k);
  }

  /** `remap` returns the texel itself when asked for an in-range integer coordinate. */
  ghost predicate ExactAtTexels(remap: Remap, atlas: seq<seq<RGB>>) {
    forall row, col :: 0 <= row < |atlas| && 0 <= col < |atlas[row]| ==>
      remap(atlas, col as real, row as real) == atlas[row][col]
  }

  /** A sampler exact at texel centres reproduces the transform at every grid point. */
  lemma LookupAtGridPoint(n: nat, t: RGB -> RGB, remap: Remap, i: nat, j: nat, k: nat)
    requires n >= 2 && i < n && j < n && k < n
    requires ExactAtTexels(remap, Atlas(n, t))
    ensures var c := GridPoint(n, i, j, k);
      remap(Atlas(n, t), SampleX(n, c), SampleY(n, c)) == t(c)
  {
    SampleAtGridPoint(n, i, j, k);
    AtlasAt(n, t, i, j, k);
  }

  // ---------------------------------------------------------------------
  // The pipeline object
  // ---------------------------------------------------------------------

  /** `cv2.remap`: sample the atlas at (map_x, map_y). Its interpolation is not modelled. */
  type Remap = (seq<seq<RGB>>, real, real) -> RGB

  /** `applyRGB`: run the processor over a buffer of RGB triples in place. */
  method ApplyRGB(buf: array<RGB>, proc: RGB -> RGB)
    modifies buf
    ensures buf[..] == MapPixels(old(buf[..]), proc)
  {
    var p := 0;
    while p < buf.Length
      invariant 0 <= p <= buf.Length
      invariant forall q :: 0 <= q < p ==> buf[q] == proc(old(buf[q]))
      invariant forall q :: p <= q < buf.Length ==> buf[q] == old(buf[q])
    {
      buf[p] := proc(buf[p]);
      p := p + 1;
    }
  }

  class OcioPipeline {
    const config: Config
    const params: Spaces
    /** Cube resolution per axis. */
    const res: nat := Res
    /** The baked atlas; None until the first successful `UpdateProcessor`. */
    var lutMap: Option<seq<seq<RGB>>>

    /** The configuration file is read by the caller; its contents are `config`. */
    constructor (config: Config, inputSpace: string, workingSpace: string,
                 displayDevice: string, viewName: string)
      ensures this.config == config
      ensures params == Spaces(inputSpace, workingSpace, displayDevice, viewName)
      ensures lutMap == None
    {
      this.config := config;
      params := Spaces(inputSpace, workingSpace, displayDevice, viewName);
      lutMap := None;
    }

    /**
     * Builds the transform chain for the given white balance, gain and CDL
     * grade, bakes it over the N^3 grid and replaces the atlas wholesale.
     * If the configuration cannot resolve the chain nothing is baked and the
     * atlas is left as it was.
     */
    method UpdateProcessor(r: real, g: real, b: real, gain: real,
                           slopeVal: real := 1.0, powerVal: real := 1.0, offset: real := 0.0)
      returns (ok: bool)
      modifies this
      ensures var proc := config.processor(ProcessorChain(params, r, g, b, gain, slopeVal, powerVal, offset));
        ok == proc.Some? &&
        lutMap == (if ok then Some(Atlas(res, proc.value)) else old(lutMap))
    {
      var group := ProcessorChain(params, r, g, b, gain, slopeVal, powerVal, offset);
      var cpu := config.processor(group);
      if cpu.None? {
        return false;
      }
      var input := BakeInput(res);
      var lutInput := new RGB[|input|](p requires 0 <= p < |input| => input[p]);
      assert lutInput[..] == input;
      ApplyRGB(lutInput, cpu.value);
      lutMap := Some(Reshape(lutInput[..], res * res, res));
      ok := true;
    }

    /**
     * Maps every pixel of the frame to its atlas coordinates and writes the
     * remapped colour back into the same buffer. Without a baked atlas the
     * remap fails and the frame is untouched.
     */
    method ApplyLut(frame: array<RGB>, remap: Remap) returns (ok: bool)
      modifies frame
      ensures ok == lutMap.Some?
      ensures ok ==> forall p :: 0 <= p < frame.Length ==>
        frame[p] == remap(lutMap.value, SampleX(res, old(frame[p])), SampleY(res, old(frame[p])))
      ensures !ok ==> frame[..] == old(frame[..])
    {
      if lutMap.None? {
        return false;
      }
      var atlas := lutMap.value;
      var p := 0;
      while p < frame.Length
        invariant 0 <= p <= frame.Length
        invariant forall q :: 0 <= q < p ==>
          frame[q] == remap(atlas, SampleX(res, old(frame[q])), SampleY(res, old(frame[q])))
        invariant forall q :: p <= q < frame.Length ==> frame[q] == old(frame[q])
      {
        var c := frame[p];
        frame[p] := remap(atlas, SampleX(res, c), SampleY(res, c));
        p := p + 1;
      }
      ok := true;
    }
  }

  /**
   * A successful bake does not depend on the atlas it replaces: two pipelines
   * with the same configuration and spaces, whatever their earlier atlases,
   * hold the same atlas after baking the same white balance, gain and CDL grade.
   */
  method RebakeIgnoresPreviousAtlas(p1: OcioPipeline, p2: OcioPipeline, r: real, g: real, b: real, gain: real,
                                    slopeVal: real, powerVal: real, offset: real)
    returns (ok1: bool, ok2: bool)
    requires p1.config == p2.config && p1.params == p2.params
    modifies p1, p2
    ensures ok1 == ok2
    ensures ok1 ==> p1.lutMap == p2.lutMap
  {
    ok1 := p1.UpdateProcessor(r, g, b, gain, slopeVal, powerVal, offset);
    ok2 := p2.UpdateProcessor(r, g, b, gain, slopeVal, powerVal, offset);
  }
}
