/**
 * The data shapes the client receives from the game server and the lobby:
 * action vectors, map tiles, game snapshots, server and game listings, and
 * the image locations of the sprites.
 */
module Models {

  import opened Wrappers

  type PlayerId = string

  /**
   * One flag of a `PlayerAction`. `None` is a field that was never assigned
   * (`undefined`), which `!==` tells apart from `false`.
   */
  type Flag = Option<bool>

  /** The five intents a player can hold at once. */
  datatype PlayerAction = PlayerAction(
    moveUp: Flag,
    moveDown: Flag,
    moveLeft: Flag,
    moveRight: Flag,
    plantBomb: Flag)

  /** `new PlayerAction()`: every flag initialised to `false`. */
  const NewPlayerAction: PlayerAction :=
    PlayerAction(Some(false), Some(false), Some(false), Some(false), Some(false))

  /** `Object.assign({}, undefined)`: an object with no flag assigned. */
  const UnsetPlayerAction: PlayerAction :=
    PlayerAction(None, None, None, None, None)

  /** JavaScript truthiness of a flag: only an assigned `true` counts. */
  predicate IsSet(f: Flag) {
    f == Some(true)
  }

  /** The four directions a player can face. */
  datatype Direction = Up | Down | Left | Right

  /** The server's view of a player: its id and its current action vector. */
  datatype PlayerInfo = PlayerInfo(playerId: PlayerId, actions: PlayerAction)

  datatype Point = Point(x: int, y: int)

  datatype ObjectType = Wall | Walkable | BreakableItem | PlayerObject | Collectible | BombObject

  /** Anything that can be displayed on the map. */
  datatype GameObject = GameObject(kind: ObjectType, coordinates: Point, width: int, height: int)

  /**
   * The tile grid, row by row; rows may differ in length. A cell holding
   * `None` is the `OUT_OF_BOUND` tile, which is `null`.
   */
  datatype GameMap = GameMap(tiles: seq<seq<Option<GameObject>>>, tileWidth: int, tileHeight: int)

  /**
   * A game snapshot whose players are of type `P`: `PlayerInfo` as it comes
   * from the server, the client's own `Player` objects once reconciled.
   */
  datatype GameStateOf<P> = GameState(
    gameId: string,
    gameMap: GameMap,
    players: map<PlayerId, P>,
    bombs: seq<GameObject>,
    paused: bool,
    isOver: bool,
    hasStarted: bool,
    winner: Option<PlayerId>,
    time: int)

  /** `{...state, players}`: the same snapshot with its players replaced. */
  function WithPlayers<P, Q>(state: GameStateOf<P>, players: map<PlayerId, Q>): GameStateOf<Q> {
    GameState(state.gameId, state.gameMap, players, state.bombs, state.paused,
              state.isOver, state.hasStarted, state.winner, state.time)
  }

  /** Every field of `s` but `players` equals the corresponding field of `t`. */
  predicate SameApartFromPlayers<P, Q>(s: GameStateOf<P>, t: GameStateOf<Q>) {
    && s.gameId == t.gameId && s.gameMap == t.gameMap && s.bombs == t.bombs
    && s.paused == t.paused && s.isOver == t.isOver && s.hasStarted == t.hasStarted
    && s.winner == t.winner && s.time == t.time
  }

  /** One game hosted by a game server, as listed by the load balancer. */
  datatype GameInfo = GameInfo(id: string, serverUrl: string, players: int, viewers: int)

  /** One game server, as listed by the load balancer. */
  datatype ServerInfo = ServerInfo(
    url: string,
    playerCount: int,
    gameCount: int,
    viewerCount: int,
    games: seq<GameInfo>)

  datatype Stat = Stat(name: string, value: int)

  datatype BombermanStats = BombermanStats(winner: seq<Stat>, kills: seq<Stat>)

  // Image locations of the sprites.
  const BreakableImage: string := "assets/box.png"
  const WalkableImage: string := "assets/test.png"
  const WallImage: string := "assets/wall.png"
  const PlayerImage: string := "assets/cat-sprite.png"
}
