/**
 * The player renderer: picks the cell of the 3 x 4 cat sprite sheet that
 * shows a player, from its action flags, its facing direction and its
 * animation frame, and blits that cell at the player's position.
 */
module PlayerManager {

  import opened Wrappers
  import opened Models
  import opened Canvas2D
  import opened GameEngine
  import opened Players

  /** The side of a sheet cell and of the drawn sprite, in pixels. */
  const CellSize: int := 32

  /** The direction each sheet row shows, top to bottom. */
  const SheetRows: seq<Direction> := [Right, Up, Down, Left]

  /** The movement flag of `a` for direction `d`. */
  function MoveFlag(a: PlayerAction, d: Direction): Flag {
    match d
    case Up => a.moveUp
    case Down => a.moveDown
    case Left => a.moveLeft
    case Right => a.moveRight
  }

  predicate IsMoving(a: PlayerAction) {
    exists k :: 0 <= k < |SheetRows| && IsSet(MoveFlag(a, SheetRows[k]))
  }

  /** The sheet column of an animation frame: the frames cycle through three columns. */
  function SpriteCol(frame: nat): (col: int)
    ensures 0 <= col < 3
    ensures exists laps: nat :: frame == 3 * laps + col
  {
    var laps := frame / 3;
    assert frame == 3 * laps + frame % 3;
    frame % 3
  }

  /**
   * The sheet row of a player. A moving player shows the first direction,
   * in sheet order, whose flag is set; an idle one shows the direction it
   * faces, and the last row when it faces none.
   */
  function SpriteRow(a: PlayerAction, facing: Option<Direction>): (row: int)
    ensures 0 <= row < |SheetRows|
    ensures IsMoving(a) ==>
      IsSet(MoveFlag(a, SheetRows[row])) && forall k :: 0 <= k < row ==> !IsSet(MoveFlag(a, SheetRows[k]))
    ensures !IsMoving(a) && facing.Some? ==> SheetRows[row] == facing.value
    ensures !IsMoving(a) && facing.None? ==> row == 3
  {
    if IsSet(a.moveRight) then 0
    else if IsSet(a.moveUp) then 1
    else if IsSet(a.moveDown) then 2
    else if IsSet(a.moveLeft) then 3
    else
      assert !IsMoving(a) by {
        forall k | 0 <= k < |SheetRows|
          ensures !IsSet(MoveFlag(a, SheetRows[k]))
        {
        }
      }
      if facing == Some(Right) then 0
      else if facing == Some(Up) then 1
      else if facing == Some(Down) then 2
      else 3
  }

  /** The blit of sheet cell (`col`, `row`) as a 32 x 32 sprite at `pos`. */
  function PlayerSprite(pos: Point, col: int, row: int): DrawCmd {
    DrawImageRect(PlayerImage, SpriteSource(col, row, CellSize, CellSize, 0), Rect(pos.x, pos.y, CellSize, CellSize))
  }

  /** A 32 x 32 source rectangle aligned on a cell of the 96 x 128 sheet. */
  predicate IsSheetCell(r: Rect) {
    r.w == CellSize && r.h == CellSize &&
    r.x in {0, 32, 64} && r.y in {0, 32, 64, 96}
  }

  /** Whatever the flags, the facing and the frame, the chosen cell lies on the sheet. */
  lemma SpriteCellOnSheet(a: PlayerAction, facing: Option<Direction>, frame: nat)
    ensures IsSheetCell(SpriteSource(SpriteCol(frame), SpriteRow(a, facing), CellSize, CellSize, 0))
  {
    var col, row := SpriteCol(frame), SpriteRow(a, facing);
    assert col == 0 || col == 1 || col == 2;
    assert row == 0 || row == 1 || row == 2 || row == 3;
  }

  /** Planting a bomb never changes the row. */
  lemma SpriteRowIgnoresBomb(a: PlayerAction, facing: Option<Direction>, bomb: Flag)
    ensures SpriteRow(a.(plantBomb := bomb), facing) == SpriteRow(a, facing)
  {
    assert IsMoving(a.(plantBomb := bomb)) <==> IsMoving(a) by {
      forall k | 0 <= k < |SheetRows|
        ensures MoveFlag(a.(plantBomb := bomb), SheetRows[k]) == MoveFlag(a, SheetRows[k])
      {
      }
    }
  }

  /** While moving, the facing direction does not matter. */
  lemma MovingRowIgnoresFacing(a: PlayerAction, f1: Option<Direction>, f2: Option<Direction>)
    requires IsMoving(a)
    ensures SpriteRow(a, f1) == SpriteRow(a, f2)
  {
  }

  /** A player moving in exactly one direction shows that direction. */
  lemma SingleMoveShowsItsDirection(a: PlayerAction, d: Direction, facing: Option<Direction>)
    requires IsSet(MoveFlag(a, d))
    requires forall e :: e != d ==> !IsSet(MoveFlag(a, e))
    ensures SheetRows[SpriteRow(a, facing)] == d
  {
    assert d == SheetRows[0] || d == SheetRows[1] || d == SheetRows[2] || d == SheetRows[3];
    assert IsMoving(a);
  }

  class PlayerManagerService {
    const engine: GameEngineService

    constructor (engine: GameEngineService)
      ensures this.engine == engine
    {
      this.engine := engine;
    }

    /**
     * `drawPlayer`: requests the sprite sheet; once it is available, advances
     * the player's animation and blits the cell chosen from the player's
     * current actions, facing direction and new frame at its coordinates.
     * `sheetLoads` says whether loading the sheet succeeds, should it be
     * missing from the cache. Reading the flags of a player whose current
     * actions were never set throws, which rejects the promise.
     */
    method DrawPlayer(canvas: Canvas, player: Player, sheetLoads: bool) returns (ok: bool)
      requires engine.Valid()
      modifies engine, canvas, player
      ensures engine.Valid()
      ensures PlayerImage in old(engine.cache) || !sheetLoads ==> engine.cache == old(engine.cache)
      ensures PlayerImage !in old(engine.cache) && sheetLoads ==>
        PlayerImage in engine.cache && engine.cache == old(engine.cache)[PlayerImage := engine.cache[PlayerImage]]
      ensures player.playerId == old(player.playerId) && player.isAlive == old(player.isAlive)
      ensures player.coordinates == old(player.coordinates)
      ensures player.currentActions == old(player.currentActions)
      ensures player.previousActions == old(player.previousActions)
      ensures !(PlayerImage in old(engine.cache) || sheetLoads) ==>
        !ok && canvas.trace == old(canvas.trace) && unchanged(player)
      ensures PlayerImage in old(engine.cache) || sheetLoads ==>
        && ok == player.currentActions.Some?
        && canvas.trace == old(canvas.trace) +
             if ok && canvas.hasContext then
               [PlayerSprite(player.coordinates, SpriteCol(player.animationFrame),
                             SpriteRow(player.currentActions.value, player.previousDirection))]
             else []
    {
      var sheet := engine.GetImage(PlayerImage, sheetLoads);
      if sheet.None? {
        return false;
      }
      player.Animate();
      var col := player.animationFrame % 3;
      var row := -1;
      if player.currentActions.None? {
        // Reading a flag of `undefined` throws.
        return false;
      }
      var actions := player.currentActions.value;
      if IsSet(actions.moveRight) {
        row := 0;
      } else if IsSet(actions.moveUp) {
        row := 1;
      } else if IsSet(actions.moveDown) {
        row := 2;
      } else if IsSet(actions.moveLeft) {
        row := 3;
      } else if player.previousDirection == Some(Right) {
        row := 0;
      } else if player.previousDirection == Some(Up) {
        row := 1;
      } else if player.previousDirection == Some(Down) {
        row := 2;
      } else {
        row := 3;
      }
      engine.DrawSprite(canvas, sheet.value, player.coordinates, CellSize, CellSize, col, row, CellSize, CellSize);
      ok := true;
    }
  }
}
