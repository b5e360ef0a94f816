# Bomberman viewer client, modelled in Dafny

This project models the browser client of a multiplayer Bomberman game.
The client is a lobby that lists the games of every game server, a game view
that renders the snapshots one game server sends, and a leaderboard page.
The model covers these parts of the client:

- **Key input.** The game view turns arrow and space-bar events into the five-flag action vector.
  It sends that vector to the game room only when it changed.
- **Snapshot reconciliation.** Each snapshot's players are reconciled with the client's own `Player` objects.
  A known id keeps its object and a new id gets a new one.
- **Render pass.** The snapshot is drawn in awaited stages, in this order:
  1. the clear;
  2. the map tiles;
  3. the collectibles;
  4. the bombs;
  5. each living player's sprite;
  6. the end-of-game overlay.

  A stage that rejects ends the pass.
- **Engine image cache.** The engine service caches images. Loads are an oracle that succeeds or fails.
- **Player sprites.** The player renderer chooses a sprite-sheet cell from a player's flags, facing direction and frame.
- **Lobby services.**
  - The server manager tags every game with the url of the server hosting it.
  - The room service flattens all servers' games into one list.
  - The server-url service builds the game and leaderboard routes.
- **Leaderboard.** The leaderboard page rewrites its server url to the leaderboard port.
- **Error lists.** The game view, the leaderboard and the server manager each keep a list of errors.
  Their connection error appears in that list at most once.
- **Clock.** The clock formats a time as `MM:SS`.

Drawing is recorded, not rasterised. A `Canvas` (module `Canvas2D`) keeps the sequence of commands issued to it.
A canvas without a 2-D context is a canvas whose `hasContext` is false.

Some things the client gets from outside are parameters of the model:

- the order in which `Object.keys` enumerates a record (`ids`, tied to the key set by `Js.IsKeyOrder`);
- whether an image load succeeds;
- what the collectibles and bombs stages draw (`GameScreen.RenderOracle`).

Classes model the objects whose fields the client updates in place: the components, the services, `Player`, the engine cache and the canvas.
Pure computations are functions with lemmas about them.

JavaScript semantics are spelled out where they matter, in module `Js`:

- `Math.floor` division and the truncating `%`;
- number-to-string conversion;
- `String.prototype.trim` whitespace;
- the `findIndex(...) === -1` push idiom.

An action flag that was never assigned (`undefined`) is `None`. `!==` tells it apart from `false`.

Where the repository's own documentation and its code differ, the model follows the code:

- An idle player's sprite row favours the directions in the order right, up, down, left. That is the order the code tests them in.
- `getImage` does not merge two requests for the same missing image. Each request starts its own load, and the later completion wins the cache slot (`GameEngine.GameEngineService.ConcurrentGetImage`).

## Model

| member | source | states |
|---|---|---|
| Game.WithFlag | src/app/game/game.component.ts:246-257 | setting one flag of an action vector changes that flag and no other |
| Game.ApplyKey | src/app/game/game.component.ts:244-258 | an event sets the flag its key controls to "is a keydown" and leaves every other flag as it was |
| Game.KeyIntentInjective | src/app/game/game.component.ts:246-257 | distinct keys control distinct flags |
| Game.Changed | src/app/game/game.component.ts:261-267 | the change test holds iff there is no previous vector or some flag differs under `!==` |
| Game.CandidateAfterPrevious | src/app/game/game.component.ts:237-258 | once a previous vector exists, every flag of the new vector is defined and only the event's key can be true, on a keydown |
| Game.CandidateWithoutPrevious | src/app/game/game.component.ts:237-258 | with no previous vector, the new vector is a copy of `undefined`, in which only the event's key is defined |
| Game.OtherKeysChangeNothing | src/app/game/game.component.ts:244-258 | a key other than the arrows and space leaves the starting vector as it is |
| Game.HeldKeyDropped | src/app/game/game.component.ts:237-242 | as written: ArrowUp down then ArrowLeft down sends a vector with `move_up` false although ArrowUp is still held |
| Game.IntendedReplayMirrorsKeys | src/app/game/game.component.ts:237-258 | with the corrected copy-the-previous-vector candidate, each flag is true exactly while its key is held |
| Game.IntendedRepeatSuppressed | src/app/game/game.component.ts:260-273 | with the corrected candidate, repeating a key's held state sends nothing |
| Game.GameComponent.constructor | src/app/game/game.component.ts:16-31 | a new view is neither watching nor playing, holds no state, no errors, no requests |
| Game.GameComponent.OnInit | src/app/game/game.component.ts:33-41 | stores the server url, joins the room as a spectator and marks the view as watching |
| Game.GameComponent.OnJoin | src/app/game/game.component.ts:49-55 | the join signal makes the view a player exactly when it is not watching; every other field is kept |
| Game.GameComponent.OnClientError | src/app/game/game.component.ts:78-85 | the connection error naming the server url is appended unless already listed; every other field is kept |
| Game.GameComponent.JoinGame | src/app/game/game.component.ts:205-224 | an empty id and a blank id are each refused with their own error and cleared; any other id leaves the room and joins as a player under that id; the server url, joined flag, stored vector and state are kept |
| Game.GameComponent.LeaveGame | src/app/game/game.component.ts:226-230 | leaves the room, stops playing, watches again; every other field is kept |
| Game.GameComponent.OnActionInput | src/app/game/game.component.ts:232-275 | a player's event stores the candidate vector and sends it iff it changed; a spectator's event changes nothing; every field but the stored vector and the requests is kept |
| Game.GameComponent.GameTime | src/app/game/game.component.ts:277-283 | no text before the first state, a text once there is one |
| Game.GameTimeReadsBack | src/app/game/game.component.ts:277-283 | for a non-negative time the text is two decimal numbers around a colon, seconds below 60, locating the time to the second |
| Game.GameComponent.UpdatePlayerState | src/app/game/game.component.ts:136-157 | the result has exactly the snapshot's ids; a known id keeps its very object; an unseen id gets a fresh, freshly constructed player distinct from every other entry; a dropped player no entry still names is left untouched |
| Game.GameComponent.InitPlayers | src/app/game/game.component.ts:173-185 | every id of the snapshot gets its own fresh, freshly constructed player; no two ids share one |
| Game.GameComponent.CanvasContext | src/app/game/game.component.ts:187-198 | yields the context iff the canvas has one, and lists the canvas error otherwise |
| Game.GameComponent.PaintWinnerScreen | src/app/game/game.component.ts:289-297 | dims the canvas and draws the winner's line, centred at baseline 150 |
| Game.GameComponent.DrawWinnerScreen | src/app/game/game.component.ts:285-298 | with a context draws the winner screen; without one lists the canvas error and draws nothing |
| Game.GameComponent.PaintFrame | src/app/game/game.component.ts:89-113 | clear, map, collectibles, bombs, living players, then the winner banner when a winner is named; the trace is those stages up to the first rejection |
| Game.GameComponent.DrawCurrentState | src/app/game/game.component.ts:89-120 | without a context the clear lists the canvas error and throws before drawing; with one the pass runs with the current state's winner |
| Game.GameComponent.AdoptUpdate | src/app/game/game.component.ts:122-131 | the reconciled players replace the current ones; the rest of the state is the snapshot's; new players are not alive |
| Game.GameComponent.UpdateState | src/app/game/game.component.ts:122-134 | reconcile, make current, draw: the draw's stages are the pass over the reconciled players |
| Game.GameComponent.AdoptFirstState | src/app/game/game.component.ts:159-169 | every player is new, none alive; the view watches and its errors are cleared |
| Game.GameComponent.InitGameState | src/app/game/game.component.ts:159-171 | the first snapshot becomes current with new players, errors cleared (or the canvas error alone), and its first frame draws no player |
| Game.GameComponent.OnStateChange | src/app/game/game.component.ts:62-70 | ignored until a first state is held; then the state is updated to the snapshot's |
| Game.NobodyAliveNothingDrawn | src/app/game/game.component.ts:102-108 | when no player is alive the player loop draws nothing and resolves |
| Game.FirstFrameDrawsNoPlayer | src/app/game/game.component.ts:159-171 | a pass over newly constructed players whose earlier stages resolve has an empty players stage |
| Players.Player.constructor | src/app/models/player.ts:8-10 | only the id is copied; the action fields stay undefined |
| Players.Player.ChangeActions | src/app/models/player.ts:12-15 | the held vector becomes the previous one and the new one the current one; nothing else changes |
| Players.ChangeActionsTwice | src/app/models/player.ts:12-15 | after two changes the first vector is the previous one and the second the current one |
| Players.Player.Animate | src/app/game/player-manager/player-manager.service.ts:20 | advancing the animation leaves id, liveness, coordinates and actions unchanged |
| GameEngine.GameEngineService.constructor | src/app/game/game-engine/game-engine.service.ts:7-9 | the cache starts empty |
| GameEngine.GameEngineService.OnDestroy | src/app/game/game-engine/game-engine.service.ts:11-13 | tearing down empties the cache |
| GameEngine.GameEngineService.Cached | src/app/game/game-engine/game-engine.service.ts:22-25 | a hit exactly when the url is cached, with the cached image |
| GameEngine.GameEngineService.CompleteLoad | src/app/game/game-engine/game-engine.service.ts:28-38 | a successful load caches a new image under its url; a failed one caches nothing and yields nothing |
| GameEngine.GameEngineService.GetImage | src/app/game/game-engine/game-engine.service.ts:19-40 | a hit resolves with the cached image and loads nothing; a miss resolves iff the load succeeds, caching only then; every image yielded was loaded from the url asked for |
| GameEngine.GameEngineService.ConcurrentGetImage | src/app/game/game-engine/game-engine.service.ts:19-40 | two requests for a missing image each load on their own; each completed load sets only that url's cache entry, so the later completion is the one cached |
| GameEngine.GameEngineService.DrawSprite | src/app/game/game-engine/game-engine.service.ts:42-67 | with a context blits cell (col, row) of the sheet to the display rectangle; nothing without one |
| GameEngine.GameEngineService.DrawText | src/app/game/game-engine/game-engine.service.ts:69-81 | with a context sets colour and alignment, then draws the text; nothing without one |
| GameEngine.SpriteCellsTileSheet | src/app/game/game-engine/game-engine.service.ts:57-58 | without padding, a pixel lies in the source rectangle of exactly the cell its coordinates divide into |
| GameEngine.GrewTwice | src/app/game/game-engine/game-engine.service.ts:22-34 | cache growth from successive requests adds up |
| GameEngine.GrewElsewhereUnchanged | src/app/game/game-engine/game-engine.service.ts:22-34 | requests for other urls neither add nor remove a url |
| GameMapManager.RowCells | src/app/game/game-map-manager/game-map-manager.service.ts:31 | a row's cells, left to right, each with its position and tile |
| GameMapManager.TileImage | src/app/game/game-map-manager/game-map-manager.service.ts:35-43 | exactly the walkable, breakable and wall tiles have an image |
| GameMapManager.MapImagesDistinct | src/app/game/game-map-manager/game-map-manager.service.ts:18-20 | the three tile images are distinct urls |
| GameMapManager.AllMapImagesAvailable | src/app/game/game-map-manager/game-map-manager.service.ts:18-21 | the joint request succeeds iff each of the three images is cached or loads |
| GameMapManager.MapPass | src/app/game/game-map-manager/game-map-manager.service.ts:15-50 | if any image fails nothing is drawn and the promise rejects |
| GameMapManager.RenderDrawsDrawableCells | src/app/game/game-map-manager/game-map-manager.service.ts:30-46 | with a context and no null tile the walk resolves and draws exactly the tiles with an image, in visiting order, at column times tile width and row times tile height |
| GameMapManager.RenderWithoutContext | src/app/game/game-map-manager/game-map-manager.service.ts:30-46 | without a context the walk draws nothing and resolves iff no tile has an image |
| GameMapManager.RenderFailsOnNullTile | src/app/game/game-map-manager/game-map-manager.service.ts:35 | a null tile anywhere makes the walk reject |
| GameMapManager.RenderFailureIsFinal | src/app/game/game-map-manager/game-map-manager.service.ts:24-48 | after the walk throws, later tiles change nothing |
| GameMapManager.CellsRowMajor | src/app/game/game-map-manager/game-map-manager.service.ts:30-31 | the walk visits every position exactly in row-major order, rows of any length, with the tile found there |
| GameMapManager.GameMapManagerService.constructor | src/app/game/game-map-manager/game-map-manager.service.ts:11 | the renderer draws through the given engine |
| GameMapManager.GameMapManagerService.DrawMap | src/app/game/game-map-manager/game-map-manager.service.ts:15-50 | the three images are requested, the cache grows by the loaded misses only, and the trace and outcome are those of the map pass |
| GameMapManager.GameMapManagerService.DrawTiles | src/app/game/game-map-manager/game-map-manager.service.ts:24-46 | the nested loop issues the walk's commands and resolves iff the walk does |
| GameMapManager.GameMapManagerService.DrawTile | src/app/game/game-map-manager/game-map-manager.service.ts:32-43 | a tile with an image is drawn at its position; a null tile, or an image tile without a context, throws |
| GameMapManager.GameMapManagerService.DrawCollectibles | src/app/game/game.component.ts:97 | issues the collectibles stage's commands and resolves as it does |
| GameMapManager.GameMapManagerService.DrawBombsAndExplosions | src/app/game/game.component.ts:98 | issues the bombs stage's commands and resolves as it does |
| PlayerManager.SpriteCol | src/app/game/player-manager/player-manager.service.ts:22 | the frame modulo 3: a column below 3 that the frame reaches in whole laps |
| PlayerManager.SpriteRow | src/app/game/player-manager/player-manager.service.ts:27-46 | a moving player shows the first set direction in the order right, up, down, left; an idle one its facing direction, or the last row |
| PlayerManager.SpriteCellOnSheet | src/app/game/player-manager/player-manager.service.ts:48-58 | the chosen cell always lies on the 3 x 4 sheet of 32-pixel cells |
| PlayerManager.SpriteRowIgnoresBomb | src/app/game/player-manager/player-manager.service.ts:27-46 | planting a bomb never changes the row |
| PlayerManager.MovingRowIgnoresFacing | src/app/game/player-manager/player-manager.service.ts:27-35 | while moving, the facing direction does not matter |
| PlayerManager.SingleMoveShowsItsDirection | src/app/game/player-manager/player-manager.service.ts:27-35 | a player moving in one direction shows that direction |
| PlayerManager.PlayerManagerService.constructor | src/app/game/player-manager/player-manager.service.ts:12 | the renderer draws through the given engine |
| PlayerManager.PlayerManagerService.DrawPlayer | src/app/game/player-manager/player-manager.service.ts:14-68 | without the sheet it rejects and draws nothing; otherwise it animates and blits the chosen 32 x 32 cell at the player's coordinates, rejecting if the player has no actions |
| GameScreen.FirstRejected | src/app/game/game-screen/game-screen.component.ts:40-55 | the index of the first rejecting stage, every stage before it resolved; none iff all resolve |
| GameScreen.LayeredIsStagesUpToRejection | src/app/game/game-screen/game-screen.component.ts:40-55 | an awaited pass issues the stages up to the first rejection, whole and in order |
| GameScreen.LayeredIgnoresLaterStage | src/app/game/game-screen/game-screen.component.ts:40-55 | what a stage after a rejection would draw does not matter |
| GameScreen.LayeredAppend | src/app/game/game-screen/game-screen.component.ts:57-65 | a final stage adds its commands only if every earlier stage resolved |
| GameScreen.OverlayTexts | src/app/game/game-screen/game-screen.component.ts:57-65 | the overlay is drawn iff the game is over and there is a context: the winner's line, or the two draw lines |
| GameScreen.OverlayAlphaRestored | src/app/game/game-screen/game-screen.component.ts:94-143 | both result screens fill the canvas dimmed, draw every text at full opacity and leave full opacity set |
| GameScreen.Living | src/app/game/game-screen/game-screen.component.ts:47-55 | the living players, a subsequence of the key order |
| GameScreen.LivingComplete | src/app/game/game-screen/game-screen.component.ts:47-55 | every living player is among those drawn |
| GameScreen.DrawIfAlive | src/app/game/game-screen/game-screen.component.ts:50-54 | a dead player is skipped; a living one is drawn as one sprite at its coordinates, or the turn rejects |
| GameScreen.DrawLivingPlayers | src/app/game/game-screen/game-screen.component.ts:47-55 | one sprite per living player in key order, stopping at the first player that cannot be drawn; only the sheet may be added to the cache |
| GameScreen.DrawBackground | src/app/game/game-screen/game-screen.component.ts:40-45 | map, collectibles and bombs awaited in turn; the sheet's cache entry is untouched |
| GameScreen.ThreeStageTrace | src/app/game/game-screen/game-screen.component.ts:40-45 | three stages each run only if the earlier ones resolved issue their layering |
| GameScreen.DrawScene | src/app/game/game-screen/game-screen.component.ts:40-55 | the background then the living players, the players stage reached only if the background resolved |
| GameScreen.FramedTrace | src/app/game/game-screen/game-screen.component.ts:33-67 | a clear before and an overlay after a scene give the layering of all six stages |
| GameScreen.GameScreenComponent.constructor | src/app/game/game-screen/game-screen.component.ts:26-27 | both renderers draw through one engine |
| GameScreen.GameScreenComponent.ClearCanvas | src/app/game/game-screen/game-screen.component.ts:70-77 | clears the canvas when there is a context, else nothing |
| GameScreen.GameScreenComponent.DrawWinnerScreen | src/app/game/game-screen/game-screen.component.ts:94-114 | with a context dims the canvas and draws the winner's line |
| GameScreen.GameScreenComponent.DrawNoWinnerScreen | src/app/game/game-screen/game-screen.component.ts:116-143 | with a context dims the canvas and draws the two draw lines |
| GameScreen.GameScreenComponent.DrawOverlay | src/app/game/game-screen/game-screen.component.ts:57-65 | draws the result screen of a finished game |
| GameScreen.GameScreenComponent.Draw | src/app/game/game-screen/game-screen.component.ts:33-67 | six stages: clear, map, collectibles, bombs, living players, overlay; the trace is their layering and the pass resolves iff all do |
| GameScreen.GameScreenComponent.SetState | src/app/game/game-screen/game-screen.component.ts:13-21 | a missing state only clears and leaves the cache alone; a present one runs the full pass of `Draw`: clear, map, collectibles, bombs, living players and overlay, layered up to the first rejection |
| Clock.LastTwo | src/app/game/clock/clock.component.ts:23 | the last two characters, or the whole of a shorter string |
| Clock.Pad | src/app/game/clock/clock.component.ts:22-24 | the tens digit then the units digit of the number |
| Clock.PadReadsBack | src/app/game/clock/clock.component.ts:22-24 | the two digits read back as the number modulo 100 |
| Clock.FormattedTime | src/app/game/clock/clock.component.ts:12-20 | five characters, digits around a colon at position 2 |
| Clock.FormattedTimeOfNonNegative | src/app/game/clock/clock.component.ts:12-20 | a non-negative time shows its whole minutes modulo 100 and its seconds within the minute |
| Clock.FormattedTimeLocates | src/app/game/clock/clock.component.ts:12-20 | below 100 minutes the text locates the time to the second |
| Clock.HundredMinutesWrap | src/app/game/clock/clock.component.ts:12-24 | 100 minutes shows as `00:00` |
| Clock.NegativeTimeShowsZero | src/app/game/clock/clock.component.ts:16-17 | any negative time shows as `00:00` |
| ServerUrl.GameRoute | src/app/services/server-url/server-url.service.ts:31-33 | `/`, the url, then `/game` |
| ServerUrl.LeaderboardRoute | src/app/services/server-url/server-url.service.ts:27-29 | `/`, the url, then `/leaderboard` |
| ServerUrl.GameRouteRoundTrip | src/app/services/server-url/server-url.service.ts:31-33 | the server is read back from its game route |
| ServerUrl.RoutesDistinct | src/app/services/server-url/server-url.service.ts:27-33 | distinct servers have distinct routes; a game route is never a leaderboard route |
| ServerUrl.ServerUrlService.constructor | src/app/services/server-url/server-url.service.ts:7-9 | no url, nothing scheduled, nothing notified |
| ServerUrl.ServerUrlService.SetUrl | src/app/services/server-url/server-url.service.ts:15-21 | the url reads back at once; one notification is scheduled |
| ServerUrl.ServerUrlService.FireNotification | src/app/services/server-url/server-url.service.ts:18-20 | a notification carries the url stored when its timer fires |
| ServerUrl.ServerUrlService.GameUrl | src/app/services/server-url/server-url.service.ts:31-33 | the stored url framed by `/` and `/game`, read back by `ServerOfGameRoute`, and not the leaderboard route |
| ServerUrl.ServerUrlService.LeaderboardUrl | src/app/services/server-url/server-url.service.ts:27-29 | the stored url framed by `/` and `/leaderboard` |
| Rx.Subject.Next | src/app/services/server-manager/server-manager.service.ts:52 | the subject's value becomes the published one |
| ServerManager.TagGames | src/app/services/server-manager/server-manager.service.ts:45-48 | every game keeps its fields except the server url, which becomes the given one |
| ServerManager.Tagged | src/app/services/server-manager/server-manager.service.ts:43-49 | a server keeps its fields except its games, which are tagged |
| ServerManager.TaggedIdempotent | src/app/services/server-manager/server-manager.service.ts:43-49 | tagging twice is tagging once |
| ServerManager.TagGamesKeepsTagged | src/app/services/server-manager/server-manager.service.ts:45-48 | games already tagged with the url are unchanged |
| ServerManager.ServerManagerService.constructor | src/app/services/server-manager/server-manager.service.ts:14-22 | no servers, no errors, not yet joined |
| ServerManager.ServerManagerService.OnJoin | src/app/services/server-manager/server-manager.service.ts:23-26 | the first join signal clears the errors and listens iff the room has joined; later ones do nothing |
| ServerManager.ServerManagerService.OnStateChange | src/app/services/server-manager/server-manager.service.ts:36-55 | when listening, every server of the state is published with its games tagged with its url; otherwise nothing |
| ServerManager.ServerManagerService.OnClientError | src/app/services/server-manager/server-manager.service.ts:57-66 | the load-balancer error is appended unless listed, so it appears exactly once |
| Js.PushIfAbsent | src/app/game/game.component.ts:82-84 | the message ends up listed; the list is unchanged if it was, extended by it otherwise; at most once before means exactly once after |
| RoomService.ServerValues | src/app/services/room-service/room.service.ts:22 | the servers in key order |
| RoomService.RoomsAppend | src/app/services/room-service/room.service.ts:23-25 | flattening distributes over concatenation |
| RoomService.RoomsLength | src/app/services/room-service/room.service.ts:23-25 | the room list has as many entries as the servers have games |
| RoomService.RoomsPosition | src/app/services/room-service/room.service.ts:23-25 | game j of server i sits right after the games of the servers before i |
| RoomService.RoomsMembership | src/app/services/room-service/room.service.ts:23-25 | a game is listed iff some server reports it |
| RoomService.PublishedRooms | src/app/services/room-service/room.service.ts:21-27 | the published list holds exactly the games of the published servers |
| RoomService.RoomService.constructor | src/app/services/room-service/room.service.ts:16-18 | the current server list is flattened at once |
| RoomService.RoomService.Errors | src/app/services/room-service/room.service.ts:12-14 | the server manager's own errors subject |
| RoomService.RoomService.OnServersPublished | src/app/services/room-service/room.service.ts:20-29 | the rooms become the flattened servers, exactly the games some server reports |
| Leaderboard.BeforeFirstColon | src/app/leaderboard/leaderboard.component.ts:24-25 | the longest colon-free prefix, ending at the first colon if any |
| Leaderboard.RewriteServerUrl | src/app/leaderboard/leaderboard.component.ts:24-25 | the host followed by `:3500`, with exactly one colon |
| Leaderboard.RewriteServerUrlCases | src/app/leaderboard/leaderboard.component.ts:24-25 | a url without a port gains `:3500`; any port is replaced |
| Leaderboard.RewriteServerUrlIdempotent | src/app/leaderboard/leaderboard.component.ts:24-25 | rewriting twice is rewriting once |
| Leaderboard.LeaderboardComponent.OnInit | src/app/leaderboard/leaderboard.component.ts:23-29 | the url is rewritten and the client connects to `ws:` plus it |
| Leaderboard.LeaderboardComponent.OnJoin | src/app/leaderboard/leaderboard.component.ts:52-55 | the join signal clears the errors |
| Leaderboard.LeaderboardComponent.OnStateChange | src/app/leaderboard/leaderboard.component.ts:57-59 | the statistics shown become the room's state |
| Leaderboard.LeaderboardComponent.OnClientError | src/app/leaderboard/leaderboard.component.ts:62-69 | the connection error is appended unless listed, so it appears at most once |

## Left out

- The socket layer is a sequence of requests (`Join`, `Leave`, `Send`) and a set of signal handlers the caller invokes. This covers the colyseus client and room, `console` logging and the `ngOnDestroy` hooks other than the engine's. When and how often signals arrive is not modelled.
- On the first state change the game view registers two handlers, a one-shot `initGameState` and the `updateState` handler. `Game.GameComponent.InitGameState` and `Game.GameComponent.OnStateChange` model each handler on its own. The order in which colyseus fires the two is not modelled.
- `Game.GameComponent.DrawCurrentState` models `draw` as if it ran without interruption. In the client, other handlers can run while `draw` awaits, so the winner it reads at the end may come from a later state.
- `hasGameStarted` and the `winner` listener, which only logs, are not modelled.
- `drawCollectibles` and `drawBombsAndExplosions` are called by the renderers, but their code is not part of this model. Their outcome is a parameter.
- `Players.Player.ChangeState` and `Players.Player.Animate` are called, but their code is not part of this model. `ChangeState` may change any field of its player and `Animate` only the frame and the facing direction.
- Pixels, fonts, colours as rendered, and floating-point positions are left out. `canvas.width / 2` and the full-canvas rectangle are symbolic.
- `Game.GameComponent.GameTime` and `Clock.FormattedTime`: the time is an integer number of milliseconds. NaN, `undefined` and fractional times are not modelled.
- A `null` route parameter is not modelled: `Leaderboard.LeaderboardComponent.OnInit` and `Game.GameComponent.OnInit` take a string.
- `ServerUrl.ServerUrlService`: the change notifications are recorded as the urls they carry. Subscribers and `onChange` are not modelled.
- `RoomService.RoomService`: the subscription to the server list is the method `OnServersPublished`, which the caller invokes on each publication.
- `Rx.Subject` models only a `BehaviorSubject`'s current value.
- An image load that never completes is not modelled. Every load is taken to either succeed or fail.
- `Game.GameComponent.CanvasContext` has one flag, `Canvas.hasContext`, for two cases the client tells apart. When there is no canvas element, or it has no `getContext`, the client lists the canvas error and returns `null`. When `getContext("2d")` itself returns `null`, the client returns `null` and lists nothing. The model lists the error in both cases.
- `ServerUrl.ServerUrlService.constructor` starts the url as `""`. In the client it is `undefined` until the first `set url`, so `getGameUrl()` then returns `"/undefined/game"`, where the model's `GameUrl` returns `"//game"`; the same holds for `getLeaderboardUrl()`.
- `Players.Player.animationFrame` is a `nat`. A newly built player's frame is `undefined` in the client, and `undefined % 3` gives `NaN` as the sprite column. The model does not cover that case.

## Findings

| source | as written | input that shows it | evidently intended | confidence | as-written member | corrected member |
|---|---|---|---|---|---|---|
| src/app/game/game.component.ts:237-242 | with a previous vector the new one starts from a fresh all-`false` vector; without one it copies the missing vector | ArrowUp keydown, then ArrowLeft keydown while ArrowUp is held: the second vector sent has `move_up` false | start from a copy of the previous vector when there is one, from a fresh vector otherwise, so each flag is true exactly while its key is held | not executed | Game.HeldKeyDropped | Game.IntendedReplayMirrorsKeys |
