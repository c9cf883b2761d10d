/**
 * Start-up geometry: the ground grid of unit cells and the textured plane
 * lying on it. Spawning an entity is modelled as appending a record.
 */
module Setup {
  import opened Components
  import opened Texture

  const GRID_SPACING: real := 1.0
  const GRID_LINE_RADIUS: real := 0.005
  /** Height of the textured plane above the ground. */
  const PLANE_ELEVATION: real := 0.01

  /** Which horizontal direction a grid line runs along. */
  datatype Span = AcrossX | AcrossZ

  /**
   * A grid line: a thin cylinder of the given length and radius. A line
   * running along X sits at z == position; one running along Z at x == position.
   */
  datatype GridLine = GridLine(span: Span, position: real, length: real, radius: real)

  /** The grid extents, or 10 by 10 when there is no grid state. */
  function GridExtents(gridState: GridState?): (extents: (int, int))
    reads gridState
    ensures gridState == null ==> extents == (10, 10)
    ensures gridState != null ==> extents == (gridState.sizeX, gridState.sizeZ)
  {
    if gridState == null then (10, 10) else (gridState.sizeX, gridState.sizeZ)
  }

  /** The number of iterations of `0..size + 1`: none when that range is empty. */
  function LineCount(size: int): nat
  {
    if size + 1 > 0 then size + 1 else 0
  }

  /** The i-th line of an extent starts at minus half the extent and steps by the spacing. */
  function LinePosition(size: int, i: int): real
  {
    -(size as real / 2.0) + i as real * GRID_SPACING
  }

  /** The lines running along X, one per unit step in Z. */
  function LinesAcrossX(sizeX: int, sizeZ: int): seq<GridLine>
  {
    seq(LineCount(sizeZ), i => GridLine(AcrossX, LinePosition(sizeZ, i), sizeX as real, GRID_LINE_RADIUS))
  }

  /** The lines running along Z, one per unit step in X. */
  function LinesAcrossZ(sizeX: int, sizeZ: int): seq<GridLine>
  {
    seq(LineCount(sizeX), i => GridLine(AcrossZ, LinePosition(sizeX, i), sizeZ as real, GRID_LINE_RADIUS))
  }

  /** The whole grid, in the order it is spawned. */
  function GridLines(sizeX: int, sizeZ: int): seq<GridLine>
  {
    LinesAcrossX(sizeX, sizeZ) + LinesAcrossZ(sizeX, sizeZ)
  }

  /** N cells need N + 1 boundary lines in each direction. */
  lemma FencePost(sizeX: int, sizeZ: int)
    requires sizeX >= 0 && sizeZ >= 0
    ensures |LinesAcrossX(sizeX, sizeZ)| == sizeZ + 1
    ensures |LinesAcrossZ(sizeX, sizeZ)| == sizeX + 1
    ensures |GridLines(sizeX, sizeZ)| == sizeX + sizeZ + 2
  {
  }

  /** A 10 by 10 grid has 11 + 11 lines; resized to 5 by 5 it has 6 + 6. */
  lemma ResizeExample()
    ensures |GridLines(10, 10)| == 22 && |GridLines(5, 5)| == 12
  {
  }

  /**
   * Lines along X run the full X extent at evenly spaced z positions that
   * start at -sizeZ/2 and end at +sizeZ/2; the lines along Z likewise.
   */
  lemma {:induction false} LinesAcrossXPlacement(sizeX: int, sizeZ: int)
    requires sizeZ >= 0
    ensures var lines := LinesAcrossX(sizeX, sizeZ);
      && (forall i :: 0 <= i < |lines| ==>
            lines[i].span == AcrossX && lines[i].length == sizeX as real && lines[i].radius == GRID_LINE_RADIUS)
      && lines[0].position == -(sizeZ as real / 2.0)
      && lines[|lines| - 1].position == sizeZ as real / 2.0
      && (forall i :: 0 <= i < |lines| - 1 ==> lines[i + 1].position - lines[i].position == GRID_SPACING)
  {
    var lines := LinesAcrossX(sizeX, sizeZ);
    assert lines[|lines| - 1].position == LinePosition(sizeZ, sizeZ);
  }

  lemma {:induction false} LinesAcrossZPlacement(sizeX: int, sizeZ: int)
    requires sizeX >= 0
    ensures var lines := LinesAcrossZ(sizeX, sizeZ);
      && (forall i :: 0 <= i < |lines| ==>
            lines[i].span == AcrossZ && lines[i].length == sizeZ as real && lines[i].radius == GRID_LINE_RADIUS)
      && lines[0].position == -(sizeX as real / 2.0)
      && lines[|lines| - 1].position == sizeX as real / 2.0
      && (forall i :: 0 <= i < |lines| - 1 ==> lines[i + 1].position - lines[i].position == GRID_SPACING)
  {
    var lines := LinesAcrossZ(sizeX, sizeZ);
    assert lines[|lines| - 1].position == LinePosition(sizeX, sizeX);
  }

  /** The lines of one direction are placed symmetrically about the origin. */
  lemma {:induction false} LinesSymmetric(size: int, i: nat)
    requires size >= 0 && i < LineCount(size)
    ensures LinePosition(size, i) == -LinePosition(size, LineCount(size) - 1 - i)
  {
  }

  /** Spawns the grid lines: first those along X, then those along Z. */
  method SpawnGrid(gridState: GridState?) returns (lines: seq<GridLine>)
    ensures lines == GridLines(GridExtents(gridState).0, GridExtents(gridState).1)
  {
    var sizeX := if gridState != null then gridState.sizeX else 10;
    var sizeZ := if gridState != null then gridState.sizeZ else 10;
    var halfSizeX := sizeX as real / 2.0;
    var halfSizeZ := sizeZ as real / 2.0;
    var numLinesX := sizeX + 1;
    var numLinesZ := sizeZ + 1;
    lines := [];
    var i := 0;
    while i < numLinesZ
      invariant 0 <= i <= LineCount(sizeZ)
      invariant lines == LinesAcrossX(sizeX, sizeZ)[..i]
    {
      var z := -halfSizeZ + i as real * GRID_SPACING;
      lines := lines + [GridLine(AcrossX, z, sizeX as real, GRID_LINE_RADIUS)];
      assert LinesAcrossX(sizeX, sizeZ)[..i + 1] == LinesAcrossX(sizeX, sizeZ)[..i] + [LinesAcrossX(sizeX, sizeZ)[i]];
      i := i + 1;
    }
    assert LinesAcrossX(sizeX, sizeZ)[..i] == LinesAcrossX(sizeX, sizeZ);
    var j := 0;
    while j < numLinesX
      invariant 0 <= j <= LineCount(sizeX)
      invariant lines == LinesAcrossX(sizeX, sizeZ) + LinesAcrossZ(sizeX, sizeZ)[..j]
    {
      var x := -halfSizeX + j as real * GRID_SPACING;
      lines := lines + [GridLine(AcrossZ, x, sizeZ as real, GRID_LINE_RADIUS)];
      assert LinesAcrossZ(sizeX, sizeZ)[..j + 1] == LinesAcrossZ(sizeX, sizeZ)[..j] + [LinesAcrossZ(sizeX, sizeZ)[j]];
      j := j + 1;
    }
    assert LinesAcrossZ(sizeX, sizeZ)[..j] == LinesAcrossZ(sizeX, sizeZ);
  }

  /**
   * The plane's extents are the grid's: it spans exactly from the first to
   * the last line in each direction.
   */
  lemma {:induction false} PlaneSpansGrid(sizeX: int, sizeZ: int)
    requires sizeX >= 0 && sizeZ >= 0
    ensures var acrossX, acrossZ := LinesAcrossX(sizeX, sizeZ), LinesAcrossZ(sizeX, sizeZ);
      && acrossZ[|acrossZ| - 1].position - acrossZ[0].position == sizeX as real
      && acrossX[|acrossX| - 1].position - acrossX[0].position == sizeZ as real
  {
    LinesAcrossXPlacement(sizeX, sizeZ);
    LinesAcrossZPlacement(sizeX, sizeZ);
  }

  /**
   * Spawns the textured plane: a grid-sized rectangle with a fresh unlit,
   * untextured material, raised above the grid lines.
   */
  method SpawnTexturedPlane(gridState: GridState?, scene: TexturedScene)
    requires scene.Valid()
    modifies scene
    ensures scene.Valid()
    ensures var handle := old(scene.nextHandle);
      && handle !in old(scene.materials)
      && scene.materials == old(scene.materials)[handle := StandardMaterial(true, None, Identity)]
      && scene.planes == old(scene.planes) + [TexturedPlane(
           Rectangle(GridExtents(gridState).0 as real, GridExtents(gridState).1 as real),
           handle, PLANE_ELEVATION)]
    ensures scene.planes[|scene.planes| - 1].elevation > GRID_LINE_RADIUS
    ensures scene.images == old(scene.images) && scene.nextHandle == old(scene.nextHandle) + 1
  {
    var sizeX := if gridState != null then gridState.sizeX else 10;
    var sizeZ := if gridState != null then gridState.sizeZ else 10;
    var planeMesh := Rectangle(sizeX as real, sizeZ as real);
    var handle := scene.nextHandle;
    scene.materials := scene.materials[handle := StandardMaterial(true, None, Identity)];
    scene.nextHandle := scene.nextHandle + 1;
    scene.planes := scene.planes + [TexturedPlane(planeMesh, handle, PLANE_ELEVATION)];
  }
}
