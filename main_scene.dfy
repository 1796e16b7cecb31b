/** The island layout: an offset-row hexagon grid over [-15, 15]², cut to a disc of
    radius 16, every kept cell handed to the batches in traversal order, then one mesh
    per batch added to the scene. Heights are an input (the noise field is not part of
    this model), and so is the random source. */
module MainScene {
  import opened Geometry
  import opened Biome
  import opened JsOps
  import opened Hexagon
  import opened HexagonBox

  /** Tile radius of the island (`size`). */
  const SIZE: int := 15
  /** Horizontal distance between neighbouring columns. */
  const COLUMN_SPACING: real := 1.77
  /** Distance between neighbouring rows. */
  const ROW_SPACING: real := 1.535

  /** A grid cell (tileX, tileY). */
  type Cell = (int, int)

  /** `tile2position`: odd rows shift by half a column. The parity is JavaScript's
      truncated `tileY % 2`, so odd rows above the axis shift right and odd rows
      below it shift left. */
  function Tile2Position(tileX: int, tileY: int): (p: Vec2)
    ensures p.y == tileY as real * ROW_SPACING
    ensures tileY % 2 == 0 ==> p.x == tileX as real * COLUMN_SPACING
    ensures tileY % 2 == 1 && tileY > 0 ==> p.x == (tileX as real + 0.5) * COLUMN_SPACING
    ensures tileY % 2 == 1 && tileY < 0 ==> p.x == (tileX as real - 0.5) * COLUMN_SPACING
  {
    Vec2((tileX as real + RemTwo(tileY) as real * 0.5) * COLUMN_SPACING, tileY as real * ROW_SPACING)
  }

  /** `position.length() > size + 1`, compared on squares. */
  predicate Skipped(p: Vec2)
  {
    p.x * p.x + p.y * p.y > ((SIZE + 1) * (SIZE + 1)) as real
  }

  predicate Kept(c: Cell)
  {
    !Skipped(Tile2Position(c.0, c.1))
  }

  /** The squared comparison agrees with comparing the length itself: for any
      non-negative `len` with len² = x² + y², the cell is skipped iff len > 16. */
  lemma SkippedIffLengthExceeds(p: Vec2, len: real)
    requires len >= 0.0 && len * len == p.x * p.x + p.y * p.y
    ensures Skipped(p) <==> len > (SIZE + 1) as real
  {
    assert (SIZE + 1) as real == 16.0 && ((SIZE + 1) * (SIZE + 1)) as real == 256.0;
    assert len * len - 256.0 == (len - 16.0) * (len + 16.0);
    if len > 16.0 {
      ProductPositive(len - 16.0, len + 16.0);
    } else {
      ProductNonNegative(16.0 - len, len + 16.0);
    }
  }

  lemma ProductPositive(a: real, b: real)
    requires a > 0.0 && b > 0.0
    ensures a * b > 0.0
  {
  }

  lemma ProductNonNegative(a: real, b: real)
    requires a >= 0.0 && b >= 0.0
    ensures a * b >= 0.0
  {
  }

  /** The disc lies well inside the square of the loops: every cell of the plane that
      the filter keeps has |tileX| <= 9 and |tileY| <= 10, so the island is decided by
      the distance test alone and never cut by the loop bounds. */
  lemma KeptInsideSquare(c: Cell)
    ensures Kept(c) ==> -9 <= c.0 <= 9 && -10 <= c.1 <= 10
    ensures Kept(c) ==> InSquare(c)
  {
    if c.1 >= 11 || c.1 <= -11 {
      FarRowSkipped(c);
    } else if c.0 >= 10 || c.0 <= -10 {
      FarColumnSkipped(c);
    }
  }

  /** Rows 11 and beyond lie more than 16.8 from the axis. */
  lemma FarRowSkipped(c: Cell)
    requires c.1 >= 11 || c.1 <= -11
    ensures !Kept(c)
  {
    var p := Tile2Position(c.0, c.1);
    assert p.y >= 16.885 || p.y <= -16.885;
    SquareAtLeast(p.x, 0.0);
    SquareAtLeast(p.y, 16.885);
  }

  /** Columns 10 and beyond lie more than 16.8 from the axis, whatever the row shift. */
  lemma FarColumnSkipped(c: Cell)
    requires c.0 >= 10 || c.0 <= -10
    ensures !Kept(c)
  {
    var p := Tile2Position(c.0, c.1);
    assert p.x >= 16.815 || p.x <= -16.815;
    SquareAtLeast(p.x, 16.815);
    SquareAtLeast(p.y, 0.0);
  }

  /** A number at least `m` away from zero has a square at least m². */
  lemma SquareAtLeast(a: real, m: real)
    requires m >= 0.0 && (a >= m || a <= -m)
    ensures a * a >= m * m
  {
    assert a * a - m * m == (a - m) * (a + m);
    if a >= m {
      ProductNonNegative(a - m, a + m);
    } else {
      ProductNonNegative(m - a, -(a + m));
      assert (m - a) * -(a + m) == (a - m) * (a + m);
    }
  }

  /** Cell (0, 0) lies at the origin and is always kept. */
  lemma OriginKept()
    ensures Tile2Position(0, 0) == Vec2(0.0, 0.0)
    ensures Kept((0, 0))
  {
  }

  /** The layout is point-symmetric: cell (-i, -j) lies opposite cell (i, j), so the
      island is symmetric too. This relies on the truncated remainder. */
  lemma LayoutPointSymmetric(i: int, j: int)
    ensures Tile2Position(-i, -j) == Vec2(-Tile2Position(i, j).x, -Tile2Position(i, j).y)
    ensures Kept((i, j)) <==> Kept((-i, -j))
  {
    RemTwoOdd(j);
  }

  /** Neighbouring rows are always offset by exactly half a column, so the rows
      interlock as a hexagon tiling, on both sides of row 0. */
  lemma AdjacentRowsInterlock(i: int, j: int)
    ensures var d := Tile2Position(i, j + 1).x - Tile2Position(i, j).x;
      d == 0.5 * COLUMN_SPACING || d == -0.5 * COLUMN_SPACING
    ensures Tile2Position(i, j + 1).y - Tile2Position(i, j).y == ROW_SPACING
  {
    RemTwoStep(j);
  }

  /** The cells the two loops of `init` range over. */
  predicate InSquare(c: Cell)
  {
    -SIZE <= c.0 <= SIZE && -SIZE <= c.1 <= SIZE
  }

  /** `island` holds exactly the cells of the square that are not skipped. The
      quantifier is triggered by `Kept` alone, so the distance test is only unfolded
      for the cells a proof actually asks about. */
  ghost predicate IsIsland(island: iset<Cell>)
  {
    forall c {:trigger Kept(c)} :: c in island <==> InSquare(c) && Kept(c)
  }

  /** The cells `init` hands to `addHexagon`, as a set. */
  ghost function Island(): (s: iset<Cell>)
    ensures IsIsland(s)
  {
    iset c: Cell | InSquare(c) && Kept(c)
  }

  /** There is only one island. */
  lemma IslandUnique(s: iset<Cell>)
    requires IsIsland(s)
    ensures s == Island()
  {
    forall c | true
      ensures c in s <==> c in Island()
    {
      if Kept(c) {}
    }
  }

  /** The cells of row `i` of `island` with -SIZE <= tileY < jEnd, in visiting order. */
  ghost function RowCells(island: iset<Cell>, i: int, jEnd: int): (r: seq<Cell>)
    ensures |r| <= if jEnd <= -SIZE then 0 else jEnd + SIZE
    decreases jEnd + SIZE
  {
    if jEnd <= -SIZE then []
    else RowCells(island, i, jEnd - 1) + (if (i, jEnd - 1) in island then [(i, jEnd - 1)] else [])
  }

  /** The cells of `island` in the rows -SIZE <= tileX < iEnd, in visiting order
      (tileX outer, tileY inner). */
  ghost function GridCells(island: iset<Cell>, iEnd: int): (r: seq<Cell>)
    ensures |r| <= if iEnd <= -SIZE then 0 else 31 * (iEnd + SIZE)
    decreases iEnd + SIZE
  {
    if iEnd <= -SIZE then [] else GridCells(island, iEnd - 1) + RowCells(island, iEnd - 1, SIZE + 1)
  }

  /** The cells the whole traversal hands to `addHexagon`. */
  ghost function IslandCells(): seq<Cell>
  {
    GridCells(Island(), SIZE + 1)
  }

  /** Lexicographic order, tileX first. */
  predicate Before(c: Cell, d: Cell)
  {
    c.0 < d.0 || (c.0 == d.0 && c.1 < d.1)
  }

  /** Row `i` holds exactly its island cells below `jEnd`, in increasing order. */
  lemma {:induction false} RowCellsExact(island: iset<Cell>, i: int, jEnd: int)
    ensures forall c :: c in RowCells(island, i, jEnd) <==> c.0 == i && -SIZE <= c.1 < jEnd && c in island
    ensures forall m, n :: 0 <= m < n < |RowCells(island, i, jEnd)| ==>
      Before(RowCells(island, i, jEnd)[m], RowCells(island, i, jEnd)[n])
    decreases jEnd + SIZE
  {
    if jEnd > -SIZE {
      RowCellsExact(island, i, jEnd - 1);
    }
  }

  /** The rows below `iEnd` hold exactly their island cells. */
  lemma {:induction false} GridCellsMembers(island: iset<Cell>, iEnd: int)
    ensures forall c :: c in GridCells(island, iEnd) <==> -SIZE <= c.0 < iEnd && -SIZE <= c.1 <= SIZE && c in island
    decreases iEnd + SIZE
  {
    if iEnd > -SIZE {
      GridCellsMembers(island, iEnd - 1);
      RowCellsExact(island, iEnd - 1, SIZE + 1);
    }
  }

  /** The rows below `iEnd` are visited in increasing lexicographic order. */
  lemma {:induction false} GridCellsOrdered(island: iset<Cell>, iEnd: int)
    ensures forall m, n :: 0 <= m < n < |GridCells(island, iEnd)| ==>
      Before(GridCells(island, iEnd)[m], GridCells(island, iEnd)[n])
    decreases iEnd + SIZE
  {
    if iEnd > -SIZE {
      GridCellsOrdered(island, iEnd - 1);
      GridCellsMembers(island, iEnd - 1);
      RowCellsExact(island, iEnd - 1, SIZE + 1);
      var g, r := GridCells(island, iEnd - 1), RowCells(island, iEnd - 1, SIZE + 1);
      forall m, n | 0 <= m < n < |g + r|
        ensures Before((g + r)[m], (g + r)[n])
      {
        if n < |g| {
          assert (g + r)[m] == g[m] && (g + r)[n] == g[n];
        } else if m >= |g| {
          assert (g + r)[m] == r[m - |g|] && (g + r)[n] == r[n - |g|];
        } else {
          assert (g + r)[m] == g[m] && g[m] in g;
          assert (g + r)[n] == r[n - |g|] && r[n - |g|] in r;
        }
      }
    }
  }

  /** The traversal hands exactly the cells of [-15, 15]² that lie within 16 of the
      origin to `addHexagon`, each once, in the order tileX outer, tileY inner;
      there are at most 31² = 961 of them. */
  lemma IslandCellsExact()
    ensures |IslandCells()| <= 31 * 31
    ensures forall c :: c in IslandCells() <==> InSquare(c) && Kept(c)
    ensures forall m, n :: 0 <= m < n < |IslandCells()| ==> Before(IslandCells()[m], IslandCells()[n])
  {
    GridCellsMembers(Island(), SIZE + 1);
    GridCellsOrdered(Island(), SIZE + 1);
  }

  /** The batches and the unused draws after `addHexagon` has been called on `cells`
      in order, starting from `b`. */
  function Build(b: Batches, cells: seq<Cell>, heights: Cell -> real, draws: seq<real>): (r: (Batches, seq<real>))
    requires |draws| >= 4 * |cells|
    ensures r.0.Keys == b.Keys
    ensures |draws| - 4 * |cells| <= |r.1| <= |draws| && r.1 == draws[|draws| - |r.1|..]
    decreases |cells|
  {
    if cells == [] then (b, draws)
    else
      var n := |cells| - 1;
      var prev := Build(b, cells[..n], heights, draws);
      Place(prev.0, heights(cells[n]), Tile2Position(cells[n].0, cells[n].1), prev.1)
  }

  /** One more cell is one more `addHexagon`. */
  lemma BuildStep(b: Batches, cells: seq<Cell>, c: Cell, heights: Cell -> real, draws: seq<real>)
    requires |draws| >= 4 * (|cells| + 1)
    ensures var prev := Build(b, cells, heights, draws);
      Build(b, cells + [c], heights, draws) == Place(prev.0, heights(c), Tile2Position(c.0, c.1), prev.1)
  {
    assert (cells + [c])[..|cells|] == cells;
  }

  /** How many of `cells` the classification puts in category `t`. */
  function Tally(cells: seq<Cell>, heights: Cell -> real, t: HexagonType): nat
  {
    if cells == [] then 0
    else Tally(cells[..|cells| - 1], heights, t) + (if Classify(heights(cells[|cells| - 1])) == t then 1 else 0)
  }

  /** Every cell falls in exactly one of the five categories; none in WATER. */
  lemma {:induction false} TallyTotal(cells: seq<Cell>, heights: Cell -> real)
    ensures Tally(cells, heights, WATER) == 0
    ensures Tally(cells, heights, STONE) + Tally(cells, heights, DIRT) + Tally(cells, heights, DIRT2)
            + Tally(cells, heights, GRASS) + Tally(cells, heights, SAND) == |cells|
  {
    if cells != [] {
      TallyTotal(cells[..|cells| - 1], heights);
    }
  }

  /** Batches only grow: each batch before the traversal is a prefix of the batch after. */
  lemma {:induction false} BuildAppendOnly(b: Batches, cells: seq<Cell>, heights: Cell -> real, draws: seq<real>)
    requires |draws| >= 4 * |cells|
    ensures forall k :: k in b ==> b[k] <= Build(b, cells, heights, draws).0[k]
    decreases |cells|
  {
    if cells != [] {
      var n := |cells| - 1;
      BuildAppendOnly(b, cells[..n], heights, draws);
      var prev := Build(b, cells[..n], heights, draws);
      PlaceFrame(prev.0, heights(cells[n]), Tile2Position(cells[n].0, cells[n].1), prev.1);
    }
  }

  /** Every tile whose category has a batch ends up in that batch. */
  lemma BuildPlacesEveryTile(b: Batches, cells: seq<Cell>, heights: Cell -> real, draws: seq<real>)
    requires |draws| >= 4 * |cells|
    ensures forall m :: 0 <= m < |cells| && Classify(heights(cells[m])) in b ==>
      TileGeometry(heights(cells[m]), Tile2Position(cells[m].0, cells[m].1))
        in Build(b, cells, heights, draws).0[Classify(heights(cells[m]))]
  {
    forall m | 0 <= m < |cells| && Classify(heights(cells[m])) in b
      ensures TileGeometry(heights(cells[m]), Tile2Position(cells[m].0, cells[m].1))
        in Build(b, cells, heights, draws).0[Classify(heights(cells[m]))]
    {
      BuildPlacesTile(b, cells, heights, draws, m);
    }
  }

  /** `BuildPlacesEveryTile` for the one cell `cells[m]`: placed at step `m`, its tile
      survives every later step. */
  lemma {:induction false} BuildPlacesTile(b: Batches, cells: seq<Cell>, heights: Cell -> real, draws: seq<real>, m: nat)
    requires |draws| >= 4 * |cells|
    requires m < |cells| && Classify(heights(cells[m])) in b
    ensures TileGeometry(heights(cells[m]), Tile2Position(cells[m].0, cells[m].1))
      in Build(b, cells, heights, draws).0[Classify(heights(cells[m]))]
    decreases |cells|
  {
    var n := |cells| - 1;
    if m < n {
      BuildPlacesTile(b, cells[..n], heights, draws, m);
      BuildKeepsTile(b, cells, heights, draws, m);
    } else {
      BuildLastTile(b, cells, heights, draws);
    }
  }

  /** The last cell's tile lands in its batch. */
  lemma BuildLastTile(b: Batches, cells: seq<Cell>, heights: Cell -> real, draws: seq<real>)
    requires |draws| >= 4 * |cells|
    requires cells != [] && Classify(heights(cells[|cells| - 1])) in b
    ensures var c := cells[|cells| - 1];
      TileGeometry(heights(c), Tile2Position(c.0, c.1)) in Build(b, cells, heights, draws).0[Classify(heights(c))]
  {
    var n := |cells| - 1;
    var prev := Build(b, cells[..n], heights, draws);
    PlaceLands(prev.0, heights(cells[n]), Tile2Position(cells[n].0, cells[n].1), prev.1);
  }

  /** A tile placed before the last cell survives the last step. */
  lemma BuildKeepsTile(b: Batches, cells: seq<Cell>, heights: Cell -> real, draws: seq<real>, m: nat)
    requires |draws| >= 4 * |cells|
    requires m < |cells| - 1 && Classify(heights(cells[m])) in b
    requires TileGeometry(heights(cells[m]), Tile2Position(cells[m].0, cells[m].1))
      in Build(b, cells[..|cells| - 1], heights, draws).0[Classify(heights(cells[m]))]
    ensures TileGeometry(heights(cells[m]), Tile2Position(cells[m].0, cells[m].1))
      in Build(b, cells, heights, draws).0[Classify(heights(cells[m]))]
  {
    var n := |cells| - 1;
    var prev := Build(b, cells[..n], heights, draws);
    var c := cells[m];
    PlaceKeeps(prev.0, heights(cells[n]), Tile2Position(cells[n].0, cells[n].1), prev.1,
               Classify(heights(c)), TileGeometry(heights(c), Tile2Position(c.0, c.1)));
  }

  /** Conservation over a whole traversal: the prisms of each batch grow by exactly the
      number of cells classified into it, no batch but STONE ever gains a stone, and
      every piece a batch gains is a prism or a stone. */
  lemma {:induction false} BuildCounts(b: Batches, cells: seq<Cell>, heights: Cell -> real, draws: seq<real>)
    requires |draws| >= 4 * |cells|
    ensures var r := Build(b, cells, heights, draws).0;
      forall k :: k in b ==>
        && Prisms(r[k]) == Prisms(b[k]) + Tally(cells, heights, k)
        && (k != STONE ==> Spheres(r[k]) == Spheres(b[k]))
        && |r[k]| - |b[k]| == (Prisms(r[k]) - Prisms(b[k])) + (Spheres(r[k]) - Spheres(b[k]))
    decreases |cells|
  {
    if cells != [] {
      var n := |cells| - 1;
      BuildCounts(b, cells[..n], heights, draws);
      var prev := Build(b, cells[..n], heights, draws);
      PlaceCounts(prev.0, heights(cells[n]), Tile2Position(cells[n].0, cells[n].1), prev.1);
    }
  }

  /** With a random source that always returns `v`: at or below the 0.8 gate no stone
      is ever scattered; above it, exactly one stone per STONE or SAND tile. */
  lemma {:induction false} BuildConstantDraws(b: Batches, cells: seq<Cell>, heights: Cell -> real, draws: seq<real>, v: real)
    requires HasAllCategories(b)
    requires |draws| >= 4 * |cells|
    requires forall k :: 0 <= k < |draws| ==> draws[k] == v
    ensures Spheres(Build(b, cells, heights, draws).0[STONE]) ==
      Spheres(b[STONE]) + (if v > STONE_CHANCE_GATE then Tally(cells, heights, STONE) + Tally(cells, heights, SAND) else 0)
    decreases |cells|
  {
    if cells != [] {
      var n := |cells| - 1;
      BuildConstantDraws(b, cells[..n], heights, draws, v);
      var prev := Build(b, cells[..n], heights, draws);
      assert prev.1[0] == v;
      PlaceCountsAt(prev.0, heights(cells[n]), Tile2Position(cells[n].0, cells[n].1), prev.1, STONE);
    }
  }

  /** Over a whole walk with every reachable category present, the draws used are one
      gate draw per STONE or SAND tile plus three per stone, so the stones in STONE are
      exactly the gates that fired: no decoration is lost or duplicated. */
  lemma {:induction false} BuildDraws(b: Batches, cells: seq<Cell>, heights: Cell -> real, draws: seq<real>)
    requires HasAllCategories(b)
    requires |draws| >= 4 * |cells|
    ensures var r := Build(b, cells, heights, draws);
      |draws| - |r.1| == Tally(cells, heights, STONE) + Tally(cells, heights, SAND)
                         + 3 * (Spheres(r.0[STONE]) - Spheres(b[STONE]))
    decreases |cells|
  {
    if cells != [] {
      var n := |cells| - 1;
      BuildDraws(b, cells[..n], heights, draws);
      var prev := Build(b, cells[..n], heights, draws);
      assert HasAllCategories(prev.0) by {
        assert prev.0.Keys == b.Keys;
      }
      PlaceDraws(prev.0, heights(cells[n]), Tile2Position(cells[n].0, cells[n].1), prev.1);
    }
  }

  /** What the traversal leaves in the batches, given the heights of the cells and the
      draws of the random source. */
  ghost function Terrain(heights: Cell -> real, draws: seq<real>): (r: Batches)
    requires |draws| >= 4 * 31 * 31
    ensures r.Keys == {STONE, DIRT, DIRT2, GRASS, SAND}
  {
    Build(SeedBatches(0.0, 0.0, 0.0), IslandCells(), heights, draws).0
  }

  /** A whole traversal from fresh batches: the five batches hold one prism per visited
      cell between them, each batch still starts with its seed box, stones are found
      only in STONE, and each batch holds its seed box, its prisms and its stones and
      nothing else. */
  lemma SeededConservation(cells: seq<Cell>, heights: Cell -> real, draws: seq<real>)
    requires |draws| >= 4 * |cells|
    ensures var r := Build(SeedBatches(0.0, 0.0, 0.0), cells, heights, draws).0;
      && r.Keys == {STONE, DIRT, DIRT2, GRASS, SAND}
      && Prisms(r[STONE]) + Prisms(r[DIRT]) + Prisms(r[DIRT2]) + Prisms(r[GRASS]) + Prisms(r[SAND]) == |cells|
      && (forall k :: k in r ==> [Box(0.0, 0.0, 0.0, ORIGIN)] <= r[k])
      && (forall k :: k in r && k != STONE ==> Spheres(r[k]) == 0)
      && (forall k :: k in r ==> |r[k]| == 1 + Prisms(r[k]) + Spheres(r[k]))
  {
    var seed := SeedBatches(0.0, 0.0, 0.0);
    SeedBoxIsEmpty();
    EmptyConservation(seed, cells, heights, draws);
    BuildAppendOnly(seed, cells, heights, draws);
  }

  /** The seed box is neither a prism nor a stone. */
  lemma SeedBoxIsEmpty()
    ensures Prisms([Box(0.0, 0.0, 0.0, ORIGIN)]) == 0 && Spheres([Box(0.0, 0.0, 0.0, ORIGIN)]) == 0
  {
    var box := [Box(0.0, 0.0, 0.0, ORIGIN)];
    assert box[..0] == [];
  }

  /** From five batches with no prisms and no stones, the prisms after a traversal add
      up to the number of cells, only STONE can hold stones, and every piece added is a
      prism or a stone. */
  lemma EmptyConservation(b: Batches, cells: seq<Cell>, heights: Cell -> real, draws: seq<real>)
    requires |draws| >= 4 * |cells|
    requires b.Keys == {STONE, DIRT, DIRT2, GRASS, SAND}
    requires forall k :: k in b ==> Prisms(b[k]) == 0 && Spheres(b[k]) == 0
    ensures var r := Build(b, cells, heights, draws).0;
      && Prisms(r[STONE]) + Prisms(r[DIRT]) + Prisms(r[DIRT2]) + Prisms(r[GRASS]) + Prisms(r[SAND]) == |cells|
      && (forall k :: k in r && k != STONE ==> Spheres(r[k]) == 0)
      && (forall k :: k in r ==> |r[k]| == |b[k]| + Prisms(r[k]) + Spheres(r[k]))
  {
    BuildCounts(b, cells, heights, draws);
    TallyTotal(cells, heights);
  }

  /** The island as a whole, as `init` leaves it: one prism per island cell across the
      five batches, stones only in STONE, and nothing in a batch but its seed box, its
      prisms and its stones: batching neither loses nor duplicates geometry. */
  lemma TerrainConservation(heights: Cell -> real, draws: seq<real>)
    requires |draws| >= 4 * 31 * 31
    ensures var r := Terrain(heights, draws);
      && r.Keys == {STONE, DIRT, DIRT2, GRASS, SAND}
      && Prisms(r[STONE]) + Prisms(r[DIRT]) + Prisms(r[DIRT2]) + Prisms(r[GRASS]) + Prisms(r[SAND]) == |IslandCells()|
      && (forall k :: k in r && k != STONE ==> Spheres(r[k]) == 0)
      && (forall k :: k in r ==> |r[k]| == 1 + Prisms(r[k]) + Spheres(r[k]))
  {
    SeededConservation(IslandCells(), heights, draws);
  }

  /** The stones of the finished island: with fresh batches every category is present,
      so the draws the walk used are one per STONE or SAND island tile plus three per
      stone, and all stones are in STONE. */
  lemma TerrainStones(heights: Cell -> real, draws: seq<real>)
    requires |draws| >= 4 * 31 * 31
    ensures var r := Build(SeedBatches(0.0, 0.0, 0.0), IslandCells(), heights, draws);
      && r.0 == Terrain(heights, draws)
      && |draws| - |r.1| == Tally(IslandCells(), heights, STONE) + Tally(IslandCells(), heights, SAND)
                            + 3 * Spheres(r.0[STONE])
  {
    var seed := SeedBatches(0.0, 0.0, 0.0);
    SeedBoxIsEmpty();
    assert Spheres(seed[STONE]) == 0;
    BuildDraws(seed, IslandCells(), heights, draws);
  }

  /** One drawable per batch: the category (which picks the texture) and the merged
      geometry. Materials are not modelled. */
  datatype Mesh = Mesh(kind: HexagonType, geometry: seq<Piece>)

  /** One mesh per key, in key order. */
  function Meshes(keys: seq<HexagonType>, b: Batches): (r: seq<Mesh>)
    requires forall k :: k in keys ==> k in b
    ensures |r| == |keys|
    ensures forall m :: 0 <= m < |keys| ==> r[m] == Mesh(keys[m], b[keys[m]])
  {
    if keys == [] then [] else Meshes(keys[..|keys| - 1], b) + [Mesh(keys[|keys| - 1], b[keys[|keys| - 1]])]
  }

  /** The meshes of the five seeded batches, in the order the constructor of
      HexagonBox set them. */
  lemma SeededMeshes(b: Batches)
    requires b.Keys == {STONE, DIRT, DIRT2, GRASS, SAND}
    ensures Meshes(INITIAL_KEYS, b) == [Mesh(STONE, b[STONE]), Mesh(DIRT, b[DIRT]), Mesh(DIRT2, b[DIRT2]),
                                        Mesh(GRASS, b[GRASS]), Mesh(SAND, b[SAND])]
  {
  }

  /** `init` adds the five terrain meshes in the order STONE, DIRT, DIRT2, GRASS, SAND. */
  lemma TerrainMeshes(heights: Cell -> real, draws: seq<real>)
    requires |draws| >= 4 * 31 * 31
    ensures var r := Terrain(heights, draws);
      Meshes(INITIAL_KEYS, r) == [Mesh(STONE, r[STONE]), Mesh(DIRT, r[DIRT]), Mesh(DIRT2, r[DIRT2]),
                                  Mesh(GRASS, r[GRASS]), Mesh(SAND, r[SAND])]
  {
    SeededMeshes(Terrain(heights, draws));
  }

  class MainScene {
    /** The objects added to the scene, in order. */
    var children: seq<Mesh>

    constructor ()
      ensures children == []
    {
      children := [];
    }

    /** The terrain part of `init`: creates the batches, adds every island cell to them
        (see AddIsland), then adds one mesh per batch in the batches' insertion order. */
    method Init(heights: Cell -> real, draws: seq<real>)
      requires |draws| >= 4 * 31 * 31
      modifies this
      ensures var r := Terrain(heights, draws);
        children == old(children) + [Mesh(STONE, r[STONE]), Mesh(DIRT, r[DIRT]), Mesh(DIRT2, r[DIRT2]),
                                     Mesh(GRASS, r[GRASS]), Mesh(SAND, r[SAND])]
    {
      var hexagonBox := new HexagonBox(0.0, 0.0, 0.0);
      ghost var island := AnIsland();
      var rest := AddIsland(hexagonBox, heights, island, draws);
      WalkIsTerrain(SeedBatches(0.0, 0.0, 0.0), island, heights, draws, hexagonBox.geometries, rest);
      AddMeshes(hexagonBox);
      TerrainMeshes(heights, draws);
    }

    /** The `for ... of` loop over the batches map: one mesh per key, in insertion order. */
    method AddMeshes(hexagonBox: HexagonBox)
      requires hexagonBox.Valid()
      modifies this
      ensures children == old(children) + Meshes(hexagonBox.keys, hexagonBox.geometries)
    {
      var keys, geometries := hexagonBox.keys, hexagonBox.geometries;
      for k := 0 to |keys|
        invariant children == old(children) + Meshes(keys[..k], geometries)
      {
        assert keys[..k + 1] == keys[..k] + [keys[k]];
        children := children + [Mesh(keys[k], geometries[keys[k]])];
      }
      assert keys[..|keys|] == keys;
    }
  }

  /** The cells of `island` the grid walk has visited just before cell (i, j): those
      of the rows before `i` and those of row `i` before `j`. */
  ghost function Visited(island: iset<Cell>, i: int, j: int): (r: seq<Cell>)
    requires -SIZE <= i <= SIZE + 1 && -SIZE <= j <= SIZE + 1
    requires i == SIZE + 1 ==> j == -SIZE
    ensures |r| <= 31 * 31
  {
    GridCells(island, i) + RowCells(island, i, j)
  }

  /** The state of the grid walk over `island` just before cell (i, j): the batches
      and the unused draws after the visited cells. The fold is stated for every
      `cells` equal to the visited ones, so that it is only unfolded where a proof
      names `Build` of them. */
  ghost predicate WalkedTo(g: Batches, rest: seq<real>, seed: Batches, island: iset<Cell>, i: int, j: int,
                           heights: Cell -> real, draws: seq<real>)
    requires -SIZE <= i <= SIZE + 1 && -SIZE <= j <= SIZE + 1
    requires i == SIZE + 1 ==> j == -SIZE
  {
    forall cells {:trigger Build(seed, cells, heights, draws)} | cells == Visited(island, i, j) ::
      4 * |cells| <= |draws| && (g, rest) == Build(seed, cells, heights, draws)
  }

  /** A cell outside the island leaves the walk where it is. */
  lemma VisitSkipped(seed: Batches, island: iset<Cell>, i: int, j: int, heights: Cell -> real, draws: seq<real>,
                     g: Batches, rest: seq<real>)
    requires -SIZE <= i <= SIZE && -SIZE <= j <= SIZE
    requires |draws| >= 4 * 31 * 31
    requires (i, j) !in island
    requires WalkedTo(g, rest, seed, island, i, j, heights, draws)
    ensures WalkedTo(g, rest, seed, island, i, j + 1, heights, draws)
  {
    assert RowCells(island, i, j + 1) == RowCells(island, i, j);
    assert Visited(island, i, j + 1) == Visited(island, i, j);
    assert (g, rest) == Build(seed, Visited(island, i, j), heights, draws);
  }

  /** A cell of the island is one more `addHexagon`, and there are draws enough for it. */
  lemma VisitKept(seed: Batches, island: iset<Cell>, i: int, j: int, heights: Cell -> real, draws: seq<real>,
                  g: Batches, rest: seq<real>)
    requires -SIZE <= i <= SIZE && -SIZE <= j <= SIZE
    requires |draws| >= 4 * 31 * 31
    requires (i, j) in island
    requires WalkedTo(g, rest, seed, island, i, j, heights, draws)
    ensures |rest| >= 4
    ensures var r := Place(g, heights((i, j)), Tile2Position(i, j), rest);
      WalkedTo(r.0, r.1, seed, island, i, j + 1, heights, draws)
  {
    var done, row := GridCells(island, i), RowCells(island, i, j);
    var before := Visited(island, i, j);
    assert RowCells(island, i, j + 1) == row + [(i, j)];
    assert done + (row + [(i, j)]) == (done + row) + [(i, j)];
    assert Visited(island, i, j + 1) == before + [(i, j)];
    assert (g, rest) == Build(seed, before, heights, draws);
    BuildStep(seed, before, (i, j), heights, draws);
  }

  /** The walk starts from the untouched batches and draws. */
  lemma WalkStart(seed: Batches, island: iset<Cell>, heights: Cell -> real, draws: seq<real>)
    requires |draws| >= 4 * 31 * 31
    ensures WalkedTo(seed, draws, seed, island, -SIZE, -SIZE, heights, draws)
  {
    assert Visited(island, -SIZE, -SIZE) == [];
  }

  /** The end of one row is the start of the next. */
  lemma RowEnd(seed: Batches, island: iset<Cell>, i: int, heights: Cell -> real, draws: seq<real>,
               g: Batches, rest: seq<real>)
    requires -SIZE <= i <= SIZE
    requires |draws| >= 4 * 31 * 31
    requires WalkedTo(g, rest, seed, island, i, SIZE + 1, heights, draws)
    ensures WalkedTo(g, rest, seed, island, i + 1, -SIZE, heights, draws)
  {
    assert Visited(island, i + 1, -SIZE) == Visited(island, i, SIZE + 1);
    assert (g, rest) == Build(seed, Visited(island, i, SIZE + 1), heights, draws);
  }

  /** The start of row SIZE + 1 is the end of the traversal. */
  lemma WalkEnd(seed: Batches, island: iset<Cell>, heights: Cell -> real, draws: seq<real>,
                g: Batches, rest: seq<real>)
    requires IsIsland(island)
    requires |draws| >= 4 * 31 * 31
    requires WalkedTo(g, rest, seed, island, SIZE + 1, -SIZE, heights, draws)
    ensures (g, rest) == Build(seed, IslandCells(), heights, draws)
  {
    assert Visited(island, SIZE + 1, -SIZE) == GridCells(island, SIZE + 1);
    IslandCellsOf(island);
    assert (g, rest) == Build(seed, Visited(island, SIZE + 1, -SIZE), heights, draws);
  }

  /** A walk from the seeded batches ends in the terrain. */
  lemma WalkIsTerrain(seed: Batches, island: iset<Cell>, heights: Cell -> real, draws: seq<real>,
                      g: Batches, rest: seq<real>)
    requires seed == SeedBatches(0.0, 0.0, 0.0)
    requires IsIsland(island)
    requires |draws| >= 4 * 31 * 31
    requires WalkedTo(g, rest, seed, island, SIZE + 1, -SIZE, heights, draws)
    ensures g == Terrain(heights, draws)
  {
    WalkEnd(seed, island, heights, draws, g, rest);
  }

  /** Any set that is the island walks to the same cells. */
  lemma IslandCellsOf(island: iset<Cell>)
    requires IsIsland(island)
    ensures GridCells(island, SIZE + 1) == IslandCells()
  {
    IslandUnique(island);
  }

  /** Some set that is the island; the walk only ever sees it through `IsIsland`. */
  lemma AnIsland() returns (island: iset<Cell>)
    ensures IsIsland(island)
  {
    island := Island();
  }

  /** The grid walk of `init`: visits every cell of [-15, 15]² (tileX outer, tileY
      inner), skips those farther than 16 from the origin and hands every other one,
      with its height, to `addHexagon`. */
  method AddIsland(hexagonBox: HexagonBox, heights: Cell -> real, ghost island: iset<Cell>, draws: seq<real>)
    returns (rest: seq<real>)
    requires hexagonBox.Valid()
    requires IsIsland(island)
    requires |draws| >= 4 * 31 * 31
    modifies hexagonBox
    ensures hexagonBox.Valid() && hexagonBox.keys == old(hexagonBox.keys)
    ensures WalkedTo(hexagonBox.geometries, rest, old(hexagonBox.geometries), island, SIZE + 1, -SIZE, heights, draws)
  {
    ghost var seed := hexagonBox.geometries;
    rest := draws;
    WalkStart(seed, island, heights, draws);
    for i := -SIZE to SIZE + 1
      invariant hexagonBox.Valid() && hexagonBox.keys == old(hexagonBox.keys)
      invariant WalkedTo(hexagonBox.geometries, rest, seed, island, i, -SIZE, heights, draws)
    {
      rest := AddRow(hexagonBox, i, heights, seed, island, draws, rest);
      RowEnd(seed, island, i, heights, draws, hexagonBox.geometries, rest);
    }
  }

  /** One pass of the inner loop of the grid walk: the cells (i, -15) .. (i, 15). */
  method AddRow(hexagonBox: HexagonBox, i: int, heights: Cell -> real, ghost seed: Batches, ghost island: iset<Cell>,
                draws: seq<real>, current: seq<real>) returns (rest: seq<real>)
    requires hexagonBox.Valid()
    requires IsIsland(island)
    requires -SIZE <= i <= SIZE
    requires |draws| >= 4 * 31 * 31
    requires WalkedTo(hexagonBox.geometries, current, seed, island, i, -SIZE, heights, draws)
    modifies hexagonBox
    ensures hexagonBox.Valid() && hexagonBox.keys == old(hexagonBox.keys)
    ensures WalkedTo(hexagonBox.geometries, rest, seed, island, i, SIZE + 1, heights, draws)
  {
    rest := current;
    for j := -SIZE to SIZE + 1
      invariant hexagonBox.Valid() && hexagonBox.keys == old(hexagonBox.keys)
      invariant WalkedTo(hexagonBox.geometries, rest, seed, island, i, j, heights, draws)
    {
      rest := AddCell(hexagonBox, i, j, heights, seed, island, draws, rest);
    }
  }

  /** The body of the inner loop for cell (i, j): skip it if it lies outside the disc,
      otherwise hand it with its height to `addHexagon`. */
  method AddCell(hexagonBox: HexagonBox, i: int, j: int, heights: Cell -> real, ghost seed: Batches,
                 ghost island: iset<Cell>, draws: seq<real>, current: seq<real>) returns (rest: seq<real>)
    requires hexagonBox.Valid()
    requires IsIsland(island)
    requires -SIZE <= i <= SIZE && -SIZE <= j <= SIZE
    requires |draws| >= 4 * 31 * 31
    requires WalkedTo(hexagonBox.geometries, current, seed, island, i, j, heights, draws)
    modifies hexagonBox
    ensures hexagonBox.Valid() && hexagonBox.keys == old(hexagonBox.keys)
    ensures WalkedTo(hexagonBox.geometries, rest, seed, island, i, j + 1, heights, draws)
  {
    rest := current;
    var position := Tile2Position(i, j);
    if Skipped(position) {
      assert !Kept((i, j));
      VisitSkipped(seed, island, i, j, heights, draws, hexagonBox.geometries, rest);
      return;
    }
    assert Kept((i, j));
    VisitKept(seed, island, i, j, heights, draws, hexagonBox.geometries, rest);
    var height := heights((i, j));
    rest := hexagonBox.AddHexagon(height, position, rest);
  }
}
