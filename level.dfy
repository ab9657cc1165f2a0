/**
 * A level of the platformer: a 30×20 grid of 32-pixel tiles, the enemies
 * placed on it, a spawn point and the coin counters.
 *
 * A tile is addressed by its grid cell, which stands for the source's
 * pointer into the grid.  The six hand-authored layouts are data: a
 * `Layout` lists the tile placements and enemies a `createLevelN` makes,
 * and `loadLevel` picks one by number.  `LevelData` is the value of a
 * `Level`; the class at the end performs the operations in place.
 */
module Levels {
  import opened Geometry
  import opened Options
  import E = Enemies

  datatype TileKind = Empty | Solid | Spike | Coin | Checkpoint | RiddleTrigger | Goal | MovingPlatform | Breakable | Key

  datatype Tile = Tile(kind: TileKind, gx: int, gy: int, box: Rect, collected: bool, activated: bool, riddleId: int)

  /** A grid cell; it identifies the tile stored there. */
  datatype Cell = Cell(x: int, y: int)

  type Grid = seq<seq<Tile>>

  const TileSize: int := 32
  const Columns: int := 30
  const Rows: int := 20

  /** The square tile (x, y) covers. */
  function CellBox(x: int, y: int): Rect {
    Rect((x * TileSize) as real, (y * TileSize) as real, TileSize as real, TileSize as real)
  }

  /** The tile (x, y) as the constructor leaves it: empty, its own cell and box, riddle -1. */
  function BlankTile(x: int, y: int): Tile {
    Tile(Empty, x, y, CellBox(x, y), false, false, -1)
  }

  predicate InBounds(x: int, y: int) {
    0 <= x < Columns && 0 <= y < Rows
  }

  /** The grid has 20 rows of 30 tiles. */
  predicate Dims(g: Grid) {
    |g| == Rows && forall y :: 0 <= y < Rows ==> |g[y]| == Columns
  }

  /** Every tile knows its own cell and covers its own square. */
  predicate WellFormed(g: Grid) {
    Dims(g) &&
    forall y, x :: 0 <= y < Rows && 0 <= x < Columns ==>
      g[y][x].gx == x && g[y][x].gy == y && g[y][x].box == CellBox(x, y)
  }

  /** The grid built by the constructor. */
  function NewGrid(): (g: Grid)
    ensures WellFormed(g)
    ensures forall y, x :: 0 <= y < Rows && 0 <= x < Columns ==>
      g[y][x].kind == Empty && !g[y][x].collected && !g[y][x].activated && g[y][x].riddleId == -1
  {
    seq(Rows, y => seq(Columns, x => BlankTile(x, y)))
  }

  /** `getTileAt`: the tile at a cell, none (the null pointer) exactly outside the grid. */
  function TileAt(g: Grid, x: int, y: int): (r: Option<Tile>)
    requires Dims(g)
    ensures r.None? <==> !InBounds(x, y)
    ensures r.Some? ==> r.value == g[y][x]
  {
    if InBounds(x, y) then Some(g[y][x]) else None
  }

  /** `getTileAtPixel`: the cell of a point, found by truncating toward zero. */
  function TileAtPixel(g: Grid, px: real, py: real): Option<Tile>
    requires Dims(g)
  {
    TileAt(g, Trunc(px / TileSize as real), Trunc(py / TileSize as real))
  }

  /** SOLID and MOVING_PLATFORM are the kinds the player cannot pass. */
  predicate SolidKind(k: TileKind) {
    k == Solid || k == MovingPlatform
  }

  /** `isSolid`: an in-bounds solid tile. */
  predicate IsSolid(g: Grid, x: int, y: int)
    requires Dims(g)
  {
    match TileAt(g, x, y)
    case None => false
    case Some(t) => SolidKind(t.kind)
  }

  // ---------------------------------------------------------------------
  // Area queries
  // ---------------------------------------------------------------------

  /** The in-bounds cells of row `y` from column `sx` to column `ex` inclusive, left to right. */
  function RowCells(y: int, sx: int, ex: int): seq<Cell>
    decreases if ex < sx then 0 else ex - sx + 1
  {
    if ex < sx then [] else RowCells(y, sx, ex - 1) + (if InBounds(ex, y) then [Cell(ex, y)] else [])
  }

  /** The in-bounds cells of rows `sy` to `ey` and columns `sx` to `ex`, inclusive, row by row. */
  function CellsIn(sx: int, ex: int, sy: int, ey: int): seq<Cell>
    decreases if ey < sy then 0 else ey - sy + 1
  {
    if ey < sy then [] else CellsIn(sx, ex, sy, ey - 1) + RowCells(ey, sx, ex)
  }

  /** The cell range `getTilesInArea` scans: each edge divided by the tile size and truncated. */
  function AreaCells(area: Rect): seq<Cell> {
    var ts := TileSize as real;
    CellsIn(Trunc(area.Left() / ts), Trunc(area.Right() / ts), Trunc(area.Top() / ts), Trunc(area.Bottom() / ts))
  }

  /** Row-major order: by row, then by column. */
  predicate Before(a: Cell, b: Cell) {
    a.y < b.y || (a.y == b.y && a.x < b.x)
  }

  /** Strictly increasing in row-major order, hence without duplicates. */
  predicate RowMajor(cs: seq<Cell>) {
    forall i, j :: 0 <= i < j < |cs| ==> Before(cs[i], cs[j])
  }

  lemma {:induction false} RowCellsMembers(y: int, sx: int, ex: int)
    ensures forall c :: c in RowCells(y, sx, ex) <==> InBounds(c.x, c.y) && c.y == y && sx <= c.x <= ex
    decreases if ex < sx then 0 else ex - sx + 1
  {
    if ex >= sx {
      RowCellsMembers(y, sx, ex - 1);
    }
  }

  lemma {:induction false} RowCellsOrdered(y: int, sx: int, ex: int)
    ensures RowMajor(RowCells(y, sx, ex))
    decreases if ex < sx then 0 else ex - sx + 1
  {
    if ex >= sx {
      RowCellsOrdered(y, sx, ex - 1);
      RowCellsMembers(y, sx, ex - 1);
    }
  }

  /** `getTilesInArea` yields exactly the in-bounds cells of the truncated range, edges included. */
  lemma {:induction false} CellsInMembers(sx: int, ex: int, sy: int, ey: int)
    ensures forall c :: c in CellsIn(sx, ex, sy, ey) <==>
      InBounds(c.x, c.y) && sx <= c.x <= ex && sy <= c.y <= ey
    decreases if ey < sy then 0 else ey - sy + 1
  {
    if ey >= sy {
      CellsInMembers(sx, ex, sy, ey - 1);
      RowCellsMembers(ey, sx, ex);
    }
  }

  /** ... in row-major order, so no tile is listed twice. */
  lemma {:induction false} CellsInOrdered(sx: int, ex: int, sy: int, ey: int)
    ensures RowMajor(CellsIn(sx, ex, sy, ey))
    decreases if ey < sy then 0 else ey - sy + 1
  {
    if ey >= sy {
      CellsInOrdered(sx, ex, sy, ey - 1);
      CellsInMembers(sx, ex, sy, ey - 1);
      RowCellsOrdered(ey, sx, ex);
      RowCellsMembers(ey, sx, ex);
    }
  }

  /** Row-major order means no cell occurs twice. */
  lemma RowMajorDistinct(cs: seq<Cell>)
    requires RowMajor(cs)
    ensures forall i, j :: 0 <= i < |cs| && 0 <= j < |cs| && cs[i] == cs[j] ==> i == j
  {
  }

  /** The truncated range of a positive-size area never misses a cell whose square overlaps the area. */
  lemma AreaCovers(area: Rect, x: int, y: int)
    requires area.w > 0.0 && area.h > 0.0 && InBounds(x, y)
    requires Intersects(CellBox(x, y), area)
    ensures Cell(x, y) in AreaCells(area)
  {
    IntersectsPositive(CellBox(x, y), area);
    var ts := TileSize as real;
    TruncAtMost(area.Left() / ts, x);
    TruncAtLeast(area.Right() / ts, x);
    TruncAtMost(area.Top() / ts, y);
    TruncAtLeast(area.Bottom() / ts, y);
    CellsInMembers(Trunc(area.Left() / ts), Trunc(area.Right() / ts), Trunc(area.Top() / ts), Trunc(area.Bottom() / ts));
  }

  lemma TruncAtMost(r: real, k: int)
    requires k >= 0 && r < k as real + 1.0
    ensures Trunc(r) <= k
  {
  }

  lemma TruncAtLeast(r: real, k: int)
    requires k >= 0 && r > k as real
    ensures Trunc(r) >= k
  {
  }

  /** The solid cells among `cs`, in their order. */
  function Solids(g: Grid, cs: seq<Cell>): (r: seq<Cell>)
    requires Dims(g) && forall c :: c in cs ==> InBounds(c.x, c.y)
    decreases |cs|
  {
    if cs == [] then []
    else
      var c := cs[|cs| - 1];
      assert c in cs && InBounds(c.x, c.y) && |g[c.y]| == Columns;
      Solids(g, cs[..|cs| - 1]) + (if SolidKind(g[c.y][c.x].kind) then [c] else [])
  }

  lemma SolidsSnoc(g: Grid, cs: seq<Cell>, c: Cell)
    requires Dims(g) && InBounds(c.x, c.y) && forall d :: d in cs ==> InBounds(d.x, d.y)
    ensures forall d :: d in cs + [c] ==> InBounds(d.x, d.y)
    ensures Solids(g, cs + [c]) == Solids(g, cs) + (if SolidKind(g[c.y][c.x].kind) then [c] else [])
  {
    assert (cs + [c])[..|cs|] == cs;
  }

  /** `getSolidTiles`: the solid cells of the whole grid, row by row. */
  function SolidCells(g: Grid): seq<Cell>
    requires Dims(g)
  {
    CellsInMembers(0, Columns - 1, 0, Rows - 1);
    Solids(g, CellsIn(0, Columns - 1, 0, Rows - 1))
  }

  lemma {:induction false} SolidsMembers(g: Grid, cs: seq<Cell>)
    requires Dims(g) && forall c :: c in cs ==> InBounds(c.x, c.y)
    ensures forall c :: c in Solids(g, cs) <==> c in cs && SolidKind(g[c.y][c.x].kind)
    decreases |cs|
  {
    if cs != [] {
      var init := cs[..|cs| - 1];
      assert cs == init + [cs[|cs| - 1]];
      SolidsMembers(g, init);
    }
  }

  /** `getSolidTiles` lists exactly the cells `isSolid` holds for. */
  lemma SolidCellsAreSolid(g: Grid)
    requires Dims(g)
    ensures forall c :: c in SolidCells(g) <==> IsSolid(g, c.x, c.y)
  {
    CellsInMembers(0, Columns - 1, 0, Rows - 1);
    SolidsMembers(g, CellsIn(0, Columns - 1, 0, Rows - 1));
  }

  /** A tile that stops the `checkCollision` scan: not empty and overlapping the box. */
  predicate Hits(t: Tile, box: Rect) {
    t.kind != Empty && Intersects(t.box, box)
  }

  /** The kind of the first tile among `cs` that the box hits. */
  function FirstHit(g: Grid, cs: seq<Cell>, box: Rect): Option<TileKind>
    requires Dims(g) && forall c :: c in cs ==> InBounds(c.x, c.y)
    decreases |cs|
  {
    if cs == [] then None
    else
      assert cs[0] in cs && InBounds(cs[0].x, cs[0].y) && |g[cs[0].y]| == Columns;
      if Hits(g[cs[0].y][cs[0].x], box) then Some(g[cs[0].y][cs[0].x].kind)
    else FirstHit(g, cs[1..], box)
  }

  /** A hit is reported exactly when some listed tile is hit, and its kind is a hit tile's. */
  lemma {:induction false} FirstHitMeans(g: Grid, cs: seq<Cell>, box: Rect)
    requires Dims(g) && forall c :: c in cs ==> InBounds(c.x, c.y)
    ensures FirstHit(g, cs, box).None? <==> forall c :: c in cs ==> !Hits(g[c.y][c.x], box)
    ensures FirstHit(g, cs, box).Some? ==>
      exists c :: c in cs && Hits(g[c.y][c.x], box) && g[c.y][c.x].kind == FirstHit(g, cs, box).value
    decreases |cs|
  {
    if cs != [] && !Hits(g[cs[0].y][cs[0].x], box) {
      FirstHitMeans(g, cs[1..], box);
      assert forall c :: c in cs ==> c == cs[0] || c in cs[1..];
    }
  }

  /** `checkCollision`: the kind of the first tile of the area scan that the box overlaps. */
  function Collision(g: Grid, box: Rect): Option<TileKind>
    requires Dims(g)
  {
    var cs := AreaCells(box);
    CellsInMembersOf(box);
    FirstHit(g, cs, box)
  }

  lemma CellsInMembersOf(box: Rect)
    ensures forall c :: c in AreaCells(box) ==> InBounds(c.x, c.y)
  {
    var ts := TileSize as real;
    CellsInMembers(Trunc(box.Left() / ts), Trunc(box.Right() / ts), Trunc(box.Top() / ts), Trunc(box.Bottom() / ts));
  }

  /**
   * For a box of positive size, `checkCollision` reports no hit exactly
   * when no non-empty tile of the whole grid overlaps it: the area scan
   * loses nothing.
   */
  lemma CollisionComplete(g: Grid, box: Rect)
    requires WellFormed(g) && box.w > 0.0 && box.h > 0.0
    ensures Collision(g, box).None? <==>
      forall y, x :: InBounds(x, y) ==> !Hits(g[y][x], box)
  {
    CellsInMembersOf(box);
    FirstHitMeans(g, AreaCells(box), box);
    if Collision(g, box).None? {
      forall y, x | InBounds(x, y) ensures !Hits(g[y][x], box) {
        if Hits(g[y][x], box) {
          AreaCovers(box, x, y);
        }
      }
    }
  }

  // ---------------------------------------------------------------------
  // Level state
  // ---------------------------------------------------------------------

  datatype LevelData = LevelData(
    number: int,
    name: string,
    description: string,
    spawn: Point,
    grid: Grid,
    enemies: seq<E.EnemyData>,
    complete: bool,
    totalCoins: int,
    coinsCollected: int)

  /** One `setTile` call of a layout. */
  datatype Placement = Placement(x: int, y: int, kind: TileKind, riddleId: int)

  /** One enemy a layout creates: its breed, position and riddle. */
  datatype EnemySpot = EnemySpot(breed: E.Breed, pos: Point, riddleId: int)

  /** What one `createLevelN` does: its texts, spawn point, tile placements in order, and enemies. */
  datatype Layout = Layout(name: string, description: string, spawn: Point, placements: seq<Placement>, enemies: seq<EnemySpot>)

  /** The level a constructor starts from, before its layout is applied. */
  function BlankLevel(n: int): (l: LevelData)
    ensures WellFormed(l.grid) && l.enemies == [] && !l.complete && l.totalCoins == l.coinsCollected == 0
  {
    LevelData(n, "", "", Point(64.0, 500.0), NewGrid(), [], false, 0, 0)
  }

  /** `setTile`: outside the grid nothing happens; inside, kind and riddle are set, and every COIN counts. */
  function Placed(l: LevelData, x: int, y: int, kind: TileKind, riddleId: int): LevelData
    requires Dims(l.grid)
  {
    if !InBounds(x, y) then l
    else
      var t := l.grid[y][x].(kind := kind, riddleId := riddleId);
      l.(grid := l.grid[y := l.grid[y][x := t]],
         totalCoins := if kind == Coin then l.totalCoins + 1 else l.totalCoins)
  }

  lemma PlacedDims(l: LevelData, x: int, y: int, kind: TileKind, riddleId: int)
    requires Dims(l.grid)
    ensures Dims(Placed(l, x, y, kind, riddleId).grid)
  {
  }

  /** The placements `ps`, applied in order. */
  function PlacedAll(l: LevelData, ps: seq<Placement>): (r: LevelData)
    requires Dims(l.grid)
    ensures Dims(r.grid)
    ensures r.(grid := l.grid, totalCoins := l.totalCoins) == l
    decreases |ps|
  {
    if ps == [] then l
    else
      var p := ps[|ps| - 1];
      var l1 := PlacedAll(l, ps[..|ps| - 1]);
      PlacedDims(l1, p.x, p.y, p.kind, p.riddleId);
      Placed(l1, p.x, p.y, p.kind, p.riddleId)
  }

  /** The enemies of `spots`, each created with the sprite sheets in `sheets` loaded. */
  function Spawned(spots: seq<EnemySpot>, sheets: set<E.State>): (es: seq<E.EnemyData>)
    ensures |es| == |spots|
    ensures forall i :: 0 <= i < |spots| ==> es[i] == E.NewEnemy(spots[i].breed, spots[i].pos, spots[i].riddleId, sheets)
  {
    seq(|spots|, i requires 0 <= i < |spots| => E.NewEnemy(spots[i].breed, spots[i].pos, spots[i].riddleId, sheets))
  }

  /** The layout `loadLevel(n)` uses: layout n for 1 to 6, layout 1 for any other number. */
  function LayoutIndex(n: int): (i: int)
    ensures 0 <= i < 6
    ensures 1 <= n <= 6 ==> i == n - 1
    ensures !(1 <= n <= 6) ==> i == 0
  {
    if 1 <= n <= 6 then n - 1 else 0
  }

  /** `loadLevel(n)`: set the texts and spawn, place the tiles, add the enemies. */
  function Loaded(l: LevelData, n: int, layouts: seq<Layout>, sheets: set<E.State>): (r: LevelData)
    requires Dims(l.grid) && |layouts| == 6
    ensures Dims(r.grid)
  {
    var lay := layouts[LayoutIndex(n)];
    var l1 := PlacedAll(l.(name := lay.name, description := lay.description, spawn := lay.spawn), lay.placements);
    l1.(enemies := l1.enemies + Spawned(lay.enemies, sheets))
  }

  /** A level as constructed with number `n`. */
  function NewLevel(n: int, layouts: seq<Layout>, sheets: set<E.State>): (r: LevelData)
    requires |layouts| == 6
    ensures Dims(r.grid)
  {
    Loaded(BlankLevel(n), n, layouts, sheets)
  }

  /** The tile a pointer argument designates, none for the null pointer. */
  function Designated(l: LevelData, c: Option<Cell>): Option<Tile>
    requires Dims(l.grid)
  {
    if c.Some? then TileAt(l.grid, c.value.x, c.value.y) else None
  }

  /** `collectCoin`: an uncollected COIN tile becomes collected and counts once; anything else is ignored. */
  function CoinCollected(l: LevelData, c: Option<Cell>): (r: LevelData)
    requires Dims(l.grid)
    ensures Dims(r.grid)
  {
    match Designated(l, c)
    case Some(t) =>
      if t.kind == Coin && !t.collected then
        var y, x := c.value.y, c.value.x;
        l.(grid := l.grid[y := l.grid[y][x := t.(collected := true)]], coinsCollected := l.coinsCollected + 1)
      else l
    case None => l
  }

  /** `activateCheckpoint`: an inactive CHECKPOINT tile becomes active; anything else is ignored. */
  function CheckpointActivated(l: LevelData, c: Option<Cell>): (r: LevelData)
    requires Dims(l.grid)
    ensures Dims(r.grid)
  {
    match Designated(l, c)
    case Some(t) =>
      if t.kind == Checkpoint && !t.activated then
        var y, x := c.value.y, c.value.x;
        l.(grid := l.grid[y := l.grid[y][x := t.(activated := true)]])
      else l
    case None => l
  }

  /** `coinsRemaining`. */
  function CoinsRemaining(l: LevelData): int {
    l.totalCoins - l.coinsCollected
  }

  // ---------------------------------------------------------------------
  // Properties
  // ---------------------------------------------------------------------

  /** A constructed level always has the 30×20 grid, whatever its number. */
  lemma NewLevelShape(n: int, layouts: seq<Layout>, sheets: set<E.State>)
    requires |layouts| == 6
    ensures var l := NewLevel(n, layouts, sheets);
      Dims(l.grid) && l.number == n && !l.complete && l.coinsCollected == 0 &&
      |l.enemies| == |layouts[LayoutIndex(n)].enemies|
  {
  }

  /** Level numbers other than 1 to 6 build layout 1; only the number differs. */
  lemma UnknownNumberIsLevelOne(n: int, layouts: seq<Layout>, sheets: set<E.State>)
    requires |layouts| == 6 && !(1 <= n <= 6)
    ensures NewLevel(n, layouts, sheets) == NewLevel(1, layouts, sheets).(number := n)
  {
    var lay := layouts[0];
    var l := BlankLevel(1).(name := lay.name, description := lay.description, spawn := lay.spawn);
    PlacedAllIgnoresNumber(l, lay.placements, n);
  }

  /** The number of a level plays no part in placing tiles. */
  lemma {:induction false} PlacedAllIgnoresNumber(l: LevelData, ps: seq<Placement>, n: int)
    requires Dims(l.grid)
    ensures PlacedAll(l.(number := n), ps) == PlacedAll(l, ps).(number := n)
    decreases |ps|
  {
    if ps != [] {
      PlacedAllIgnoresNumber(l, ps[..|ps| - 1], n);
    }
  }

  /**
   * `setTile` outside the grid changes nothing; inside, it changes that
   * tile's kind and riddle and no other tile, keeps the grid well formed,
   * and adds one to the coin total exactly for a COIN.
   */
  lemma SetTileEffect(l: LevelData, x: int, y: int, kind: TileKind, riddleId: int)
    requires WellFormed(l.grid)
    ensures var r := Placed(l, x, y, kind, riddleId);
      WellFormed(r.grid) &&
      (!InBounds(x, y) ==> r == l) &&
      (InBounds(x, y) ==>
        r.grid[y][x] == l.grid[y][x].(kind := kind, riddleId := riddleId) &&
        (forall j, i :: InBounds(i, j) && (i, j) != (x, y) ==> r.grid[j][i] == l.grid[j][i]) &&
        r.totalCoins == l.totalCoins + (if kind == Coin then 1 else 0) &&
        r.(grid := l.grid, totalCoins := l.totalCoins) == l)
  {
  }

  /** Placing the same COIN twice leaves one coin tile but counts two coins. */
  lemma CoinOverwriteCountsTwice(l: LevelData, x: int, y: int, riddleId: int)
    requires Dims(l.grid) && InBounds(x, y)
    ensures var r := Placed(Placed(l, x, y, Coin, riddleId), x, y, Coin, riddleId);
      r.grid == Placed(l, x, y, Coin, riddleId).grid && r.totalCoins == l.totalCoins + 2
  {
    var l1 := Placed(l, x, y, Coin, riddleId);
    assert l1.grid[y][x] == l1.grid[y][x].(kind := Coin, riddleId := riddleId);
    assert l1.grid[y][x := l1.grid[y][x]] == l1.grid[y];
    assert l1.grid[y := l1.grid[y]] == l1.grid;
  }

  /**
   * `collectCoin` acts exactly on an uncollected COIN tile, marking it and
   * lowering the coins remaining by one, and a second call changes nothing.
   */
  lemma CollectCoinEffect(l: LevelData, c: Option<Cell>)
    requires WellFormed(l.grid)
    ensures var r, t := CoinCollected(l, c), Designated(l, c);
      WellFormed(r.grid) &&
      (r != l <==> t.Some? && t.value.kind == Coin && !t.value.collected) &&
      (r != l ==> Designated(r, c) == Some(t.value.(collected := true)) && CoinsRemaining(r) == CoinsRemaining(l) - 1) &&
      CoinCollected(r, c) == r
  {
    if c.Some? && InBounds(c.value.x, c.value.y) {
      var t := l.grid[c.value.y][c.value.x];
      if t.kind == Coin && !t.collected {
        assert CoinCollected(l, c).coinsCollected != l.coinsCollected;
      }
    }
  }

  /** `activateCheckpoint` acts exactly on an inactive CHECKPOINT tile, and a second call changes nothing. */
  lemma ActivateCheckpointEffect(l: LevelData, c: Option<Cell>)
    requires WellFormed(l.grid)
    ensures var r, t := CheckpointActivated(l, c), Designated(l, c);
      WellFormed(r.grid) &&
      (r != l <==> t.Some? && t.value.kind == Checkpoint && !t.value.activated) &&
      (r != l ==> Designated(r, c) == Some(t.value.(activated := true)) && CoinsRemaining(r) == CoinsRemaining(l)) &&
      CheckpointActivated(r, c) == r
  {
    if c.Some? && InBounds(c.value.x, c.value.y) {
      var t := l.grid[c.value.y][c.value.x];
      if t.kind == Checkpoint && !t.activated {
        assert CheckpointActivated(l, c).grid[c.value.y][c.value.x] != l.grid[c.value.y][c.value.x];
      }
    }
  }

  /** `isSolid` holds exactly for an in-bounds SOLID or MOVING_PLATFORM tile. */
  lemma IsSolidMeans(g: Grid, x: int, y: int)
    requires Dims(g)
    ensures IsSolid(g, x, y) <==> InBounds(x, y) && (g[y][x].kind == Solid || g[y][x].kind == MovingPlatform)
  {
  }

  /**
   * `getTileAtPixel` finds the tile whose square holds a point of the grid's
   * area; a point less than one tile left of the grid truncates into
   * column 0.
   */
  lemma PixelLookup(g: Grid, px: real, py: real)
    requires WellFormed(g)
    ensures 0.0 <= px && 0.0 <= py && TileAtPixel(g, px, py).Some? ==>
      var b := TileAtPixel(g, px, py).value.box; b.Left() <= px < b.Right() && b.Top() <= py < b.Bottom()
    ensures -32.0 < px < 0.0 && 0.0 <= py < 640.0 ==>
      TileAtPixel(g, px, py).Some? && TileAtPixel(g, px, py).value.gx == 0
  {
  }

  // ---------------------------------------------------------------------
  // The class
  // ---------------------------------------------------------------------

  /** The constructor's nested loops, building the blank grid row by row. */
  method BuildGrid() returns (g: Grid)
    ensures g == NewGrid()
  {
    g := [];
    var y := 0;
    while y < Rows
      invariant 0 <= y <= Rows
      invariant g == NewGrid()[..y]
    {
      var row: seq<Tile> := [];
      var x := 0;
      while x < Columns
        invariant 0 <= x <= Columns
        invariant row == NewGrid()[y][..x]
      {
        row := row + [BlankTile(x, y)];
        x := x + 1;
      }
      assert row == NewGrid()[y];
      assert NewGrid()[..y + 1] == NewGrid()[..y] + [NewGrid()[y]];
      g := g + [row];
      y := y + 1;
    }
  }

  /** The nested loops of `getSolidTiles` over a grid. */
  method SolidTilesOf(g: Grid) returns (r: seq<Cell>)
    requires Dims(g)
    ensures r == SolidCells(g)
  {
    r := [];
    var y := 0;
    while y < Rows
      invariant 0 <= y <= Rows
      invariant forall c :: c in CellsIn(0, Columns - 1, 0, y - 1) ==> InBounds(c.x, c.y)
      invariant r == Solids(g, CellsIn(0, Columns - 1, 0, y - 1))
    {
      ghost var done := CellsIn(0, Columns - 1, 0, y - 1);
      r := AppendSolidRow(g, done, r, y);
      assert CellsIn(0, Columns - 1, 0, y) == done + RowCells(y, 0, Columns - 1);
      y := y + 1;
    }
  }

  /** The inner loop of `getSolidTiles`: the solid cells of row `y`, appended. */
  method AppendSolidRow(g: Grid, ghost done: seq<Cell>, r0: seq<Cell>, y: int) returns (r: seq<Cell>)
    requires Dims(g) && 0 <= y < Rows && forall c :: c in done ==> InBounds(c.x, c.y)
    requires r0 == Solids(g, done)
    ensures forall c :: c in done + RowCells(y, 0, Columns - 1) ==> InBounds(c.x, c.y)
    ensures r == Solids(g, done + RowCells(y, 0, Columns - 1))
  {
    r := r0;
    assert done + RowCells(y, 0, -1) == done;
    var x := 0;
    while x < Columns
      invariant 0 <= x <= Columns
      invariant forall c :: c in done + RowCells(y, 0, x - 1) ==> InBounds(c.x, c.y)
      invariant r == Solids(g, done + RowCells(y, 0, x - 1))
    {
      SolidsSnoc(g, done + RowCells(y, 0, x - 1), Cell(x, y));
      assert done + RowCells(y, 0, x) == (done + RowCells(y, 0, x - 1)) + [Cell(x, y)];
      if g[y][x].kind == Solid || g[y][x].kind == MovingPlatform {
        r := r + [Cell(x, y)];
      }
      x := x + 1;
    }
  }

  /** `Level`: the same state updated in place. */
  class Level {
    var number: int
    var name: string
    var description: string
    var spawn: Point
    var grid: Grid
    var enemies: seq<E.EnemyData>
    var complete: bool
    var totalCoins: int
    var coinsCollected: int

    function Data(): LevelData
      reads this
    {
      LevelData(number, name, description, spawn, grid, enemies, complete, totalCoins, coinsCollected)
    }

    /** `layouts` are the six authored layouts; `sheets` the enemy sprite sheets that load. */
    constructor(n: int, layouts: seq<Layout>, sheets: set<E.State>)
      requires |layouts| == 6
      ensures Data() == NewLevel(n, layouts, sheets)
    {
      number := n;
      name, description := "", "";
      spawn := Point(64.0, 500.0);
      complete := false;
      totalCoins, coinsCollected := 0, 0;
      enemies := [];
      var g := BuildGrid();
      grid := g;
      new;
      LoadLevel(n, layouts, sheets);
    }

    method LoadLevel(n: int, layouts: seq<Layout>, sheets: set<E.State>)
      requires Dims(grid) && |layouts| == 6
      modifies this
      ensures Data() == Loaded(old(Data()), n, layouts, sheets)
    {
      var lay := layouts[LayoutIndex(n)];
      name, description, spawn := lay.name, lay.description, lay.spawn;
      PlaceAll(lay.placements);
      AddEnemies(lay.enemies, sheets);
    }

    /** The tile loop of `loadLevel`: every placement through `setTile`, in order. */
    method PlaceAll(ps: seq<Placement>)
      requires Dims(grid)
      modifies this
      ensures Data() == PlacedAll(old(Data()), ps)
    {
      ghost var start := Data();
      var i := 0;
      while i < |ps|
        invariant 0 <= i <= |ps|
        invariant Dims(grid)
        invariant Data() == PlacedAll(start, ps[..i])
      {
        var p := ps[i];
        assert ps[..i + 1][..i] == ps[..i];
        SetTile(p.x, p.y, p.kind, p.riddleId);
        i := i + 1;
      }
      assert ps[..i] == ps;
    }

    /** The enemy loop of `loadLevel`: one enemy per spot, through `addEnemy`, in order. */
    method AddEnemies(spots: seq<EnemySpot>, sheets: set<E.State>)
      modifies this
      ensures Data() == old(Data()).(enemies := old(enemies) + Spawned(spots, sheets))
    {
      var k := 0;
      while k < |spots|
        invariant 0 <= k <= |spots|
        invariant Data() == old(Data()).(enemies := old(enemies) + Spawned(spots[..k], sheets))
      {
        var s := spots[k];
        AddEnemy(E.NewEnemy(s.breed, s.pos, s.riddleId, sheets));
        assert spots[..k + 1] == spots[..k] + [s];
        k := k + 1;
      }
      assert spots[..k] == spots;
    }

    method AddEnemy(e: E.EnemyData)
      modifies this
      ensures Data() == old(Data()).(enemies := old(enemies) + [e])
    {
      enemies := enemies + [e];
    }

    method SetTile(x: int, y: int, kind: TileKind, riddleId: int)
      requires Dims(grid)
      modifies this
      ensures Data() == Placed(old(Data()), x, y, kind, riddleId)
    {
      if !InBounds(x, y) {
        return;
      }
      var t := grid[y][x].(kind := kind, riddleId := riddleId);
      grid := grid[y := grid[y][x := t]];
      if kind == Coin {
        totalCoins := totalCoins + 1;
      }
    }

    method GetTileAt(x: int, y: int) returns (r: Option<Tile>)
      requires Dims(grid)
      ensures r == TileAt(grid, x, y)
    {
      if x < 0 || x >= Columns || y < 0 || y >= Rows {
        return None;
      }
      return Some(grid[y][x]);
    }

    method GetTileAtPixel(px: real, py: real) returns (r: Option<Tile>)
      requires Dims(grid)
      ensures r == TileAtPixel(grid, px, py)
    {
      r := GetTileAt(Trunc(px / TileSize as real), Trunc(py / TileSize as real));
    }

    method GetTilesInArea(area: Rect) returns (r: seq<Cell>)
      ensures r == AreaCells(area)
      ensures RowMajor(r)
    {
      var ts := TileSize as real;
      var startX, endX := Trunc(area.Left() / ts), Trunc(area.Right() / ts);
      var startY, endY := Trunc(area.Top() / ts), Trunc(area.Bottom() / ts);
      r := [];
      var y := startY;
      while y <= endY
        invariant y <= endY + 1 || (y == startY && endY < startY)
        invariant r == CellsIn(startX, endX, startY, y - 1)
        decreases endY - y
      {
        var x := startX;
        while x <= endX
          invariant x <= endX + 1 || (x == startX && endX < startX)
          invariant r == CellsIn(startX, endX, startY, y - 1) + RowCells(y, startX, x - 1)
          decreases endX - x
        {
          if InBounds(x, y) {
            r := r + [Cell(x, y)];
          }
          x := x + 1;
        }
        y := y + 1;
      }
      CellsInOrdered(startX, endX, startY, endY);
    }

    method GetSolidTiles() returns (r: seq<Cell>)
      requires Dims(grid)
      ensures r == SolidCells(grid)
    {
      r := SolidTilesOf(grid);
    }

    method IsSolidAt(x: int, y: int) returns (b: bool)
      requires Dims(grid)
      ensures b == IsSolid(grid, x, y)
    {
      var t := GetTileAt(x, y);
      if t.None? {
        return false;
      }
      return t.value.kind == Solid || t.value.kind == MovingPlatform;
    }

    /** The first tile of the area scan that the box overlaps, with early exit. */
    method CheckCollision(box: Rect) returns (hit: Option<TileKind>)
      requires Dims(grid)
      ensures hit == Collision(grid, box)
    {
      var tiles := GetTilesInArea(box);
      CellsInMembersOf(box);
      var i := 0;
      while i < |tiles|
        invariant 0 <= i <= |tiles|
        invariant FirstHit(grid, tiles, box) == FirstHit(grid, tiles[i..], box)
      {
        var t := grid[tiles[i].y][tiles[i].x];
        assert tiles[i..][1..] == tiles[i + 1..];
        if t.kind != Empty && Intersects(t.box, box) {
          return Some(t.kind);
        }
        i := i + 1;
      }
      return None;
    }

    method CollectCoin(c: Option<Cell>)
      requires Dims(grid)
      modifies this
      ensures Data() == CoinCollected(old(Data()), c)
    {
      if c.Some? && InBounds(c.value.x, c.value.y) {
        var t := grid[c.value.y][c.value.x];
        if t.kind == Coin && !t.collected {
          grid := grid[c.value.y := grid[c.value.y][c.value.x := t.(collected := true)]];
          coinsCollected := coinsCollected + 1;
        }
      }
    }

    method ActivateCheckpoint(c: Option<Cell>)
      requires Dims(grid)
      modifies this
      ensures Data() == CheckpointActivated(old(Data()), c)
    {
      if c.Some? && InBounds(c.value.x, c.value.y) {
        var t := grid[c.value.y][c.value.x];
        if t.kind == Checkpoint && !t.activated {
          grid := grid[c.value.y := grid[c.value.y][c.value.x := t.(activated := true)]];
        }
      }
    }

    method GetCoinsRemaining() returns (n: int)
      ensures n == CoinsRemaining(Data())
    {
      n := totalCoins - coinsCollected;
    }

    method SetComplete(b: bool)
      modifies this
      ensures Data() == old(Data()).(complete := b)
    {
      complete := b;
    }
  }
}
