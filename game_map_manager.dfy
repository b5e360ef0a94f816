/**
 * The map renderer: resolves the three tile images, then walks the tile grid
 * row by row and draws each tile whose type has an image. A `null` tile or a
 * missing context makes the walk throw, which rejects the returned promise
 * after whatever was already drawn.
 */
module GameMapManager {

  import opened Wrappers
  import opened Models
  import opened Canvas2D
  import opened GameEngine

  /** A grid position together with the tile found there. */
  datatype Cell = Cell(row: nat, col: nat, tile: Option<GameObject>)

  /** The cells of one row, left to right. */
  function RowCells(row: nat, tiles: seq<Option<GameObject>>): (r: seq<Cell>)
    ensures |r| == |tiles|
    ensures forall c :: 0 <= c < |r| ==> r[c] == Cell(row, c, tiles[c])
  {
    seq(|tiles|, c requires 0 <= c < |tiles| => Cell(row, c, tiles[c]))
  }

  /** The cells of the first `n` rows, in the order the renderer visits them. */
  function CellsOfRows(grid: seq<seq<Option<GameObject>>>, n: nat): seq<Cell>
    requires n <= |grid|
  {
    if n == 0 then [] else CellsOfRows(grid, n - 1) + RowCells(n - 1, grid[n - 1])
  }

  function Cells(grid: seq<seq<Option<GameObject>>>): seq<Cell> {
    CellsOfRows(grid, |grid|)
  }

  /** The image drawn for a tile type; other types draw nothing. */
  function TileImage(kind: ObjectType): (src: Option<string>)
    ensures src.Some? <==> kind in {Walkable, BreakableItem, Wall}
  {
    match kind
    case Walkable => Some(WalkableImage)
    case BreakableItem => Some(BreakableImage)
    case Wall => Some(WallImage)
    case _ => None
  }

  /** The three images `drawMap` requests, in the order it requests them. */
  const MapImages: seq<string> := [BreakableImage, WalkableImage, WallImage]

  /** Every url in `urls` is cached already or its load succeeds. */
  predicate AllAvailable(cache: map<string, Image>, urls: seq<string>, load: string -> bool) {
    forall i :: 0 <= i < |urls| ==> urls[i] in cache || load(urls[i])
  }

  /** The three map images are distinct urls. */
  lemma MapImagesDistinct()
    ensures BreakableImage != WalkableImage && WalkableImage != WallImage && BreakableImage != WallImage
  {
    assert BreakableImage[7] == 'b' && WalkableImage[7] == 't' && WallImage[7] == 'w';
  }

  lemma AllMapImagesAvailable(cache: map<string, Image>, load: string -> bool)
    ensures AllAvailable(cache, MapImages, load) <==>
      && (BreakableImage in cache || load(BreakableImage))
      && (WalkableImage in cache || load(WalkableImage))
      && (WallImage in cache || load(WallImage))
  {
    assert MapImages[0] == BreakableImage && MapImages[1] == WalkableImage && MapImages[2] == WallImage;
  }

  /**
   * What a drawing stage did: the commands it issued and whether it ran to
   * the end (its promise resolved) or stopped with a failure.
   */
  datatype Painted = Painted(cmds: seq<DrawCmd>, ok: bool)

  /** The draw command of a cell holding a tile with an image. */
  function TileDraw(c: Cell, tileWidth: int, tileHeight: int): DrawCmd
    requires c.tile.Some? && TileImage(c.tile.value.kind).Some?
  {
    DrawImage(TileImage(c.tile.value.kind).value, c.col * tileWidth, c.row * tileHeight)
  }

  /**
   * The walk over `cells`, one cell at a time: a `null` tile stops it with a
   * failure, a tile with an image is drawn (or, without a context, stops it
   * with a failure), any other tile is skipped.
   */
  function Render(cells: seq<Cell>, hasContext: bool, tileWidth: int, tileHeight: int): Painted {
    if cells == [] then Painted([], true)
    else
      var before := Render(cells[..|cells| - 1], hasContext, tileWidth, tileHeight);
      var c := cells[|cells| - 1];
      if !before.ok then before
      else if c.tile.None? then Painted(before.cmds, false)
      else if TileImage(c.tile.value.kind).None? then before
      else if !hasContext then Painted(before.cmds, false)
      else Painted(before.cmds + [TileDraw(c, tileWidth, tileHeight)], true)
  }

  // ---------------------------------------------------------------------
  // Reference definitions and the walk's properties
  // ---------------------------------------------------------------------

  predicate HasImage(c: Cell) {
    c.tile.Some? && TileImage(c.tile.value.kind).Some?
  }

  /** The cells that carry a tile with an image, in order. */
  function DrawableCells(cells: seq<Cell>): (r: seq<Cell>)
    ensures forall k :: 0 <= k < |r| ==> HasImage(r[k])
  {
    if cells == [] then []
    else (if HasImage(cells[0]) then [cells[0]] else []) + DrawableCells(cells[1..])
  }

  predicate NoNullTile(cells: seq<Cell>) {
    forall i :: 0 <= i < |cells| ==> cells[i].tile.Some?
  }

  lemma {:induction false} DrawableCellsSnoc(cells: seq<Cell>, c: Cell)
    ensures DrawableCells(cells + [c]) == DrawableCells(cells) + (if HasImage(c) then [c] else [])
  {
    if cells == [] {
      assert cells + [c] == [c];
      assert [c][1..] == [];
    } else {
      assert (cells + [c])[0] == cells[0];
      assert (cells + [c])[1..] == cells[1..] + [c];
      DrawableCellsSnoc(cells[1..], c);
    }
  }

  /**
   * With a context and no `null` tile the walk completes and draws exactly
   * the tiles that have an image, in visiting order, each at its column times
   * the tile width and its row times the tile height.
   */
  lemma {:induction false} RenderDrawsDrawableCells(cells: seq<Cell>, tileWidth: int, tileHeight: int)
    requires NoNullTile(cells)
    ensures var p := Render(cells, true, tileWidth, tileHeight);
      var d := DrawableCells(cells);
      && p.ok
      && |p.cmds| == |d|
      && forall k :: 0 <= k < |d| ==> p.cmds[k] == TileDraw(d[k], tileWidth, tileHeight)
  {
    if cells != [] {
      var front := cells[..|cells| - 1];
      var c := cells[|cells| - 1];
      assert cells == front + [c];
      RenderDrawsDrawableCells(front, tileWidth, tileHeight);
      DrawableCellsSnoc(front, c);
    }
  }

  /** Without a context, the walk completes (drawing nothing) iff no tile has an image. */
  lemma {:induction false} RenderWithoutContext(cells: seq<Cell>, tileWidth: int, tileHeight: int)
    requires NoNullTile(cells)
    ensures var p := Render(cells, false, tileWidth, tileHeight);
      p.cmds == [] && (p.ok <==> DrawableCells(cells) == [])
  {
    if cells != [] {
      var front := cells[..|cells| - 1];
      var c := cells[|cells| - 1];
      assert cells == front + [c];
      RenderWithoutContext(front, tileWidth, tileHeight);
      DrawableCellsSnoc(front, c);
    }
  }

  /** A `null` tile anywhere makes the walk fail. */
  lemma {:induction false} RenderFailsOnNullTile(cells: seq<Cell>, i: nat, hasContext: bool, tileWidth: int, tileHeight: int)
    requires i < |cells| && cells[i].tile.None?
    ensures !Render(cells, hasContext, tileWidth, tileHeight).ok
  {
    if i < |cells| - 1 {
      RenderFailsOnNullTile(cells[..|cells| - 1], i, hasContext, tileWidth, tileHeight);
    }
  }

  /** One more cell after a walk that is still running. */
  lemma RenderStep(done: seq<Cell>, c: Cell, hasContext: bool, tileWidth: int, tileHeight: int)
    requires Render(done, hasContext, tileWidth, tileHeight).ok
    ensures var before := Render(done, hasContext, tileWidth, tileHeight);
      Render(done + [c], hasContext, tileWidth, tileHeight) ==
        if c.tile.None? then Painted(before.cmds, false)
        else if TileImage(c.tile.value.kind).None? then before
        else if !hasContext then Painted(before.cmds, false)
        else Painted(before.cmds + [TileDraw(c, tileWidth, tileHeight)], true)
  {
    assert (done + [c])[..|done + [c]| - 1] == done;
  }

  /** Once the walk has failed, later cells change nothing. */
  lemma {:induction false} RenderFailureIsFinal(done: seq<Cell>, all: seq<Cell>, hasContext: bool, tileWidth: int, tileHeight: int)
    requires done <= all
    requires !Render(done, hasContext, tileWidth, tileHeight).ok
    ensures Render(all, hasContext, tileWidth, tileHeight) == Render(done, hasContext, tileWidth, tileHeight)
    decreases |all|
  {
    if |all| > |done| {
      RenderFailureIsFinal(done, all[..|all| - 1], hasContext, tileWidth, tileHeight);
    } else {
      assert all == done;
    }
  }

  /** The walk's next cell after the first `col` cells of row `row`. */
  lemma NextCell(grid: seq<seq<Option<GameObject>>>, row: nat, col: nat)
    requires row < |grid| && col < |grid[row]|
    ensures CellsOfRows(grid, row) + RowCells(row, grid[row])[..col + 1] ==
      CellsOfRows(grid, row) + RowCells(row, grid[row])[..col] + [Cell(row, col, grid[row][col])]
  {
    var cells := RowCells(row, grid[row]);
    assert cells[..col + 1] == cells[..col] + [Cell(row, col, grid[row][col])];
  }

  /** A walk that stops within row `row` stops the walk over the whole grid there. */
  lemma WalkEndsAt(grid: seq<seq<Option<GameObject>>>, row: nat, col: nat, hasContext: bool, tileWidth: int, tileHeight: int)
    requires row < |grid| && col < |grid[row]|
    requires !Render(CellsOfRows(grid, row) + RowCells(row, grid[row])[..col + 1], hasContext, tileWidth, tileHeight).ok
    ensures Render(Cells(grid), hasContext, tileWidth, tileHeight) ==
      Render(CellsOfRows(grid, row) + RowCells(row, grid[row])[..col + 1], hasContext, tileWidth, tileHeight)
  {
    var next := CellsOfRows(grid, row) + RowCells(row, grid[row])[..col + 1];
    CellsOfRowsPrefix(grid, row + 1, |grid|);
    assert next <= CellsOfRows(grid, row + 1);
    RenderFailureIsFinal(next, Cells(grid), hasContext, tileWidth, tileHeight);
  }

  lemma {:induction false} CellsOfRowsPrefix(grid: seq<seq<Option<GameObject>>>, m: nat, n: nat)
    requires m <= n <= |grid|
    ensures CellsOfRows(grid, m) <= CellsOfRows(grid, n)
    decreases n
  {
    if m < n {
      CellsOfRowsPrefix(grid, m, n - 1);
    }
  }

  /**
   * The visiting order is row-major: rows top to bottom, each row left to
   * right up to its own length, with the tile found at that position.
   */
  lemma {:induction false} CellsRowMajor(grid: seq<seq<Option<GameObject>>>, n: nat)
    requires n <= |grid|
    ensures var cells := CellsOfRows(grid, n);
      && (forall i :: 0 <= i < |cells| ==>
            cells[i].row < n && cells[i].col < |grid[cells[i].row]| &&
            cells[i].tile == grid[cells[i].row][cells[i].col])
      && (forall i, j :: 0 <= i < j < |cells| ==>
            cells[i].row < cells[j].row || (cells[i].row == cells[j].row && cells[i].col < cells[j].col))
      && (forall r, c :: 0 <= r < n && 0 <= c < |grid[r]| ==> Cell(r, c, grid[r][c]) in cells)
  {
    if n > 0 {
      CellsRowMajor(grid, n - 1);
      var front := CellsOfRows(grid, n - 1);
      var last := RowCells(n - 1, grid[n - 1]);
      var cells := front + last;
      forall r, c | 0 <= r < n && 0 <= c < |grid[r]|
        ensures Cell(r, c, grid[r][c]) in cells
      {
        if r == n - 1 {
          assert cells[|front| + c] == Cell(r, c, grid[r][c]);
        } else {
          assert Cell(r, c, grid[r][c]) in front;
        }
      }
    }
  }

  /**
   * What `drawMap` does given the cache it starts from: nothing, and a
   * rejection, unless all three images are available; the tile walk otherwise.
   */
  function MapPass(cache: map<string, Image>, gameMap: GameMap, hasContext: bool, load: string -> bool): (p: Painted)
    ensures !AllAvailable(cache, MapImages, load) ==> p == Painted([], false)
  {
    if AllAvailable(cache, MapImages, load) then Render(Cells(gameMap.tiles), hasContext, gameMap.tileWidth, gameMap.tileHeight)
    else Painted([], false)
  }

  class GameMapManagerService {
    const engine: GameEngineService

    constructor (engine: GameEngineService)
      ensures this.engine == engine
    {
      this.engine := engine;
    }

    /**
     * `drawMap`: requests the breakable, walkable and wall images together;
     * if any fails nothing is drawn and the promise rejects; otherwise the
     * tile walk runs.
     */
    method DrawMap(canvas: Canvas, gameMap: GameMap, load: string -> bool) returns (ok: bool)
      requires engine.Valid()
      modifies engine, canvas
      ensures engine.Valid()
      ensures Grew(old(engine.cache), engine.cache, {BreakableImage, WalkableImage, WallImage}, load)
      ensures var p := MapPass(old(engine.cache), gameMap, canvas.hasContext, load);
        ok == p.ok && canvas.trace == old(canvas.trace) + p.cmds
    {
      AllMapImagesAvailable(engine.cache, load);
      ghost var c0 := engine.cache;
      var breakable := engine.GetImage(BreakableImage, load(BreakableImage));
      ghost var c1 := engine.cache;
      assert Grew(c0, c1, {BreakableImage}, load);
      var walkable := engine.GetImage(WalkableImage, load(WalkableImage));
      ghost var c2 := engine.cache;
      assert Grew(c1, c2, {WalkableImage}, load);
      GrewTwice(c0, c1, c2, {BreakableImage}, {WalkableImage}, load);
      var wall := engine.GetImage(WallImage, load(WallImage));
      assert Grew(c2, engine.cache, {WallImage}, load);
      GrewTwice(c0, c2, engine.cache, {BreakableImage, WalkableImage}, {WallImage}, load);
      assert {BreakableImage} + {WalkableImage} == {BreakableImage, WalkableImage};
      assert {BreakableImage, WalkableImage} + {WallImage} == {BreakableImage, WalkableImage, WallImage};
      if breakable.None? || walkable.None? || wall.None? {
        return false;
      }

      ok := DrawTiles(canvas, gameMap, breakable.value, walkable.value, wall.value);
    }

    /** The tile walk of `drawMap`, once the three images are in hand. */
    method DrawTiles(canvas: Canvas, gameMap: GameMap, breakable: Image, walkable: Image, wall: Image)
      returns (ok: bool)
      requires breakable.src == BreakableImage && walkable.src == WalkableImage && wall.src == WallImage
      modifies canvas
      ensures var p := Render(Cells(gameMap.tiles), canvas.hasContext, gameMap.tileWidth, gameMap.tileHeight);
        ok == p.ok && canvas.trace == old(canvas.trace) + p.cmds
    {
      var grid := gameMap.tiles;
      var hasContext, tileWidth, tileHeight := canvas.hasContext, gameMap.tileWidth, gameMap.tileHeight;
      ghost var start := canvas.trace;
      ghost var done: seq<Cell> := [];
      ghost var acc := Painted([], true);
      for row := 0 to |grid|
        invariant done == CellsOfRows(grid, row)
        invariant acc == Render(done, hasContext, tileWidth, tileHeight) && acc.ok
        invariant canvas.trace == start + acc.cmds
      {
        for col := 0 to |grid[row]|
          invariant done == CellsOfRows(grid, row) + RowCells(row, grid[row])[..col]
          invariant acc == Render(done, hasContext, tileWidth, tileHeight) && acc.ok
          invariant canvas.trace == start + acc.cmds
        {
          var tile := grid[row][col];
          NextCell(grid, row, col);
          RenderStep(done, Cell(row, col, tile), hasContext, tileWidth, tileHeight);
          var drawn := DrawTile(canvas, row, col, tile, breakable, walkable, wall, tileWidth, tileHeight);
          done := done + [Cell(row, col, tile)];
          acc := Render(done, hasContext, tileWidth, tileHeight);
          if !drawn {
            WalkEndsAt(grid, row, col, hasContext, tileWidth, tileHeight);
            return false;
          }
        }
        assert RowCells(row, grid[row])[..|grid[row]|] == RowCells(row, grid[row]);
      }
      ok := true;
    }

    /**
     * One cell of the tile walk: a tile with an image is drawn at its column
     * times the tile width and its row times the tile height. Reading the
     * kind of a `null` tile, or drawing on a `null` context, throws.
     */
    method DrawTile(canvas: Canvas, row: nat, col: nat, tile: Option<GameObject>,
                    breakable: Image, walkable: Image, wall: Image, tileWidth: int, tileHeight: int)
      returns (drawn: bool)
      requires breakable.src == BreakableImage && walkable.src == WalkableImage && wall.src == WallImage
      modifies canvas
      ensures drawn <==> tile.Some? && (TileImage(tile.value.kind).None? || canvas.hasContext)
      ensures canvas.trace == old(canvas.trace) +
        if drawn && HasImage(Cell(row, col, tile)) then [TileDraw(Cell(row, col, tile), tileWidth, tileHeight)] else []
    {
      if tile.None? || (TileImage(tile.value.kind).Some? && !canvas.hasContext) {
        return false;
      }
      var posX := col * tileWidth;
      var posY := row * tileHeight;
      if tile.value.kind == Walkable {
        canvas.Issue([DrawImage(walkable.src, posX, posY)]);
      } else if tile.value.kind == BreakableItem {
        canvas.Issue([DrawImage(breakable.src, posX, posY)]);
      } else if tile.value.kind == Wall {
        canvas.Issue([DrawImage(wall.src, posX, posY)]);
      }
      drawn := true;
    }

    /**
     * `drawCollectibles`, whose drawing is not part of the model: it issues
     * the commands `outcome` lists and resolves or rejects as `outcome` says.
     */
    method DrawCollectibles(canvas: Canvas, outcome: Painted) returns (ok: bool)
      modifies canvas
      ensures canvas.trace == old(canvas.trace) + outcome.cmds
      ensures ok == outcome.ok
    {
      canvas.Issue(outcome.cmds);
      ok := outcome.ok;
    }

    /**
     * `drawBombsAndExplosions`, whose drawing is not part of the model: it
     * issues the commands `outcome` lists and resolves or rejects as `outcome` says.
     */
    method DrawBombsAndExplosions(canvas: Canvas, outcome: Painted) returns (ok: bool)
      modifies canvas
      ensures canvas.trace == old(canvas.trace) + outcome.cmds
      ensures ok == outcome.ok
    {
      canvas.Issue(outcome.cmds);
      ok := outcome.ok;
    }
  }
}
