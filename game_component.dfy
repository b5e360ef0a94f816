/**
 * The game view: turns key events into action vectors sent to the game room,
 * reconciles the client's player objects with each server snapshot, renders
 * the reconciled state, validates the id a spectator joins the game with, and
 * shows the game time.
 */
module Game {

  import opened Wrappers
  import opened Js
  import opened Models
  import opened Canvas2D
  import opened GameEngine
  import opened GameMapManager
  import opened Players
  import opened PlayerManager
  import opened GameScreen

  // ---------------------------------------------------------------------
  // Key input
  // ---------------------------------------------------------------------

  /** A keyboard event: its type (`"keydown"`, `"keyup"`, ...) and its key. */
  datatype KeyEvent = KeyEvent(eventType: string, key: string)

  predicate IsKeyDown(ev: KeyEvent) {
    ev.eventType == "keydown"
  }

  /** The five flags of an action vector, by name. */
  datatype Intent = MoveUp | MoveDown | MoveLeft | MoveRight | PlantBomb

  function FlagOf(a: PlayerAction, i: Intent): Flag {
    match i
    case MoveUp => a.moveUp
    case MoveDown => a.moveDown
    case MoveLeft => a.moveLeft
    case MoveRight => a.moveRight
    case PlantBomb => a.plantBomb
  }

  /** `a` with flag `i` set to `f`. */
  function WithFlag(a: PlayerAction, i: Intent, f: Flag): (r: PlayerAction)
    ensures FlagOf(r, i) == f
    ensures forall j :: j != i ==> FlagOf(r, j) == FlagOf(a, j)
  {
    match i
    case MoveUp => a.(moveUp := f)
    case MoveDown => a.(moveDown := f)
    case MoveLeft => a.(moveLeft := f)
    case MoveRight => a.(moveRight := f)
    case PlantBomb => a.(plantBomb := f)
  }

  /** The flag a key controls: the four arrows and the space bar. */
  function KeyIntent(key: string): Option<Intent> {
    if key == "ArrowUp" then Some(MoveUp)
    else if key == "ArrowDown" then Some(MoveDown)
    else if key == "ArrowLeft" then Some(MoveLeft)
    else if key == "ArrowRight" then Some(MoveRight)
    else if key == " " then Some(PlantBomb)
    else None
  }

  /** Distinct keys control distinct flags. */
  lemma KeyIntentInjective(k1: string, k2: string)
    requires KeyIntent(k1).Some? && KeyIntent(k1) == KeyIntent(k2)
    ensures k1 == k2
  {
  }

  /** The event applied to `base`: the flag of its key becomes "is a keydown"; the others keep their value. */
  function ApplyKey(base: PlayerAction, ev: KeyEvent): (r: PlayerAction)
    ensures forall i :: FlagOf(r, i) == if KeyIntent(ev.key) == Some(i) then Some(IsKeyDown(ev)) else FlagOf(base, i)
  {
    match KeyIntent(ev.key)
    case None => base
    case Some(i) => WithFlag(base, i, Some(IsKeyDown(ev)))
  }

  /**
   * The candidate vector of an event, as the client builds it: from a fresh
   * all-`false` vector when a previous vector exists, and from a copy of the
   * missing previous vector, with every flag undefined, when none does.
   */
  function Candidate(prev: Option<PlayerAction>, ev: KeyEvent): PlayerAction {
    ApplyKey(if prev.Some? then NewPlayerAction else UnsetPlayerAction, ev)
  }

  /** The change test: no previous vector, or some flag differs under `!==`. */
  function Changed(prev: Option<PlayerAction>, cand: PlayerAction): (r: bool)
    ensures r <==> prev.None? || prev.value != cand
    ensures r <==> prev.None? || exists i :: FlagOf(prev.value, i) != FlagOf(cand, i)
  {
    if prev.None? then true
    else
      var p := prev.value;
      assert p.moveDown != cand.moveDown ==> FlagOf(p, MoveDown) != FlagOf(cand, MoveDown);
      assert p.moveUp != cand.moveUp ==> FlagOf(p, MoveUp) != FlagOf(cand, MoveUp);
      assert p.moveLeft != cand.moveLeft ==> FlagOf(p, MoveLeft) != FlagOf(cand, MoveLeft);
      assert p.moveRight != cand.moveRight ==> FlagOf(p, MoveRight) != FlagOf(cand, MoveRight);
      assert p.plantBomb != cand.plantBomb ==> FlagOf(p, PlantBomb) != FlagOf(cand, PlantBomb);
      || p.moveDown != cand.moveDown
      || p.moveUp != cand.moveUp
      || p.moveLeft != cand.moveLeft
      || p.moveRight != cand.moveRight
      || p.plantBomb != cand.plantBomb
  }

  /**
   * Once a previous vector exists, every flag of the candidate is defined and
   * at most one is true: the one of the event's key, on a keydown.
   */
  lemma CandidateAfterPrevious(prev: Option<PlayerAction>, ev: KeyEvent)
    requires prev.Some?
    ensures forall i :: FlagOf(Candidate(prev, ev), i).Some?
    ensures forall i :: IsSet(FlagOf(Candidate(prev, ev), i)) <==> KeyIntent(ev.key) == Some(i) && IsKeyDown(ev)
  {
    var c := Candidate(prev, ev);
    forall i
      ensures FlagOf(c, i) == if KeyIntent(ev.key) == Some(i) then Some(IsKeyDown(ev)) else Some(false)
    {
      assert FlagOf(NewPlayerAction, i) == Some(false);
    }
  }

  /** Without a previous vector, only the flag of the event's key is defined. */
  lemma CandidateWithoutPrevious(ev: KeyEvent)
    ensures forall i :: FlagOf(Candidate(None, ev), i).Some? <==> KeyIntent(ev.key) == Some(i)
  {
    var c := Candidate(None, ev);
    forall i
      ensures FlagOf(c, i).Some? <==> KeyIntent(ev.key) == Some(i)
    {
      assert FlagOf(UnsetPlayerAction, i) == None;
    }
  }

  /** A key that controls no flag leaves the starting vector as it is. */
  lemma OtherKeysChangeNothing(prev: Option<PlayerAction>, ev: KeyEvent)
    requires KeyIntent(ev.key).None?
    ensures Candidate(prev, ev) == if prev.Some? then NewPlayerAction else UnsetPlayerAction
  {
  }

  /**
   * As written, a second arrow pressed while the first is still held releases
   * the first: the candidate forgets every flag but the new key's, although
   * no keyup for the first key came.
   */
  lemma HeldKeyDropped()
    ensures var events := [KeyEvent("keydown", "ArrowUp"), KeyEvent("keydown", "ArrowLeft")];
      var first := Candidate(None, events[0]);
      var second := Candidate(Some(first), events[1]);
      && IsSet(first.moveUp) && IsSet(second.moveLeft)
      && HeldAfter(events, MoveUp) && second.moveUp == Some(false)
  {
    var events := [KeyEvent("keydown", "ArrowUp"), KeyEvent("keydown", "ArrowLeft")];
    assert events[..1] == [KeyEvent("keydown", "ArrowUp")];
  }

  /**
   * The candidate the code evidently intends: a copy of the previous vector
   * when there is one, a fresh all-`false` vector otherwise, with the event
   * applied.
   */
  function IntendedCandidate(prev: Option<PlayerAction>, ev: KeyEvent): PlayerAction {
    ApplyKey(if prev.Some? then prev.value else NewPlayerAction, ev)
  }

  /** Whether the last event, among `events`, that concerns flag `i` pressed its key. */
  function HeldAfter(events: seq<KeyEvent>, i: Intent): bool {
    if events == [] then false
    else if KeyIntent(events[|events| - 1].key) == Some(i) then IsKeyDown(events[|events| - 1])
    else HeldAfter(events[..|events| - 1], i)
  }

  /** The vector the intended tracker holds after `events`. */
  function IntendedReplay(events: seq<KeyEvent>): Option<PlayerAction> {
    if events == [] then None
    else Some(IntendedCandidate(IntendedReplay(events[..|events| - 1]), events[|events| - 1]))
  }

  /** The intended tracker mirrors the keyboard: a flag is true exactly while its key is held. */
  lemma {:induction false} IntendedReplayMirrorsKeys(events: seq<KeyEvent>)
    requires events != []
    ensures forall i :: FlagOf(IntendedReplay(events).value, i) == Some(HeldAfter(events, i))
  {
    var init := events[..|events| - 1];
    var last := events[|events| - 1];
    if init != [] {
      IntendedReplayMirrorsKeys(init);
    } else {
      forall i
        ensures FlagOf(NewPlayerAction, i) == Some(HeldAfter(init, i))
      {
      }
    }
  }

  /** With the intended candidate, repeating the held state of a key sends nothing. */
  lemma IntendedRepeatSuppressed(prev: PlayerAction, ev: KeyEvent)
    requires KeyIntent(ev.key).Some? && FlagOf(prev, KeyIntent(ev.key).value) == Some(IsKeyDown(ev))
    ensures !Changed(Some(prev), IntendedCandidate(Some(prev), ev))
  {
    var c := IntendedCandidate(Some(prev), ev);
    assert forall i :: FlagOf(c, i) == FlagOf(prev, i);
  }

  // ---------------------------------------------------------------------
  // Requests to the game room
  // ---------------------------------------------------------------------

  /** The payload of a `"PlayerAction"` message. */
  datatype ActionPayload = ActionPayload(playerId: Option<string>, actions: PlayerAction)

  datatype Message = Message(kind: string, payload: ActionPayload)

  /** What the view asks of the game room, in order. */
  datatype RoomRequest =
    | Leave
    | Join(isPlaying: bool, playerId: Option<string>)
    | Send(message: Message)

  const EmptyIdError: string := "L'identifiant de l'utilisateur ne peut pas être vide, you hacker."
  const BlankIdError: string := "Don't try to fool me with your whitespaces!"
  const CanvasError: string := "Unable to access the game canvas."
  const ConnectionErrorPrefix: string := "Unable to connect to server with url "

  // ---------------------------------------------------------------------
  // Reconciling players
  // ---------------------------------------------------------------------

  /** `p` is as `new Player(info)` left it. */
  predicate Constructed(p: Player, info: PlayerInfo)
    reads p
  {
    && p.playerId == info.playerId
    && p.currentActions.None? && p.previousActions.None?
    && p.previousDirection.None? && !p.isAlive
  }

  /**
   * The players of a legacy render pass: the clear, the scene, then the
   * winner banner when the current state names a winner.
   */
  ghost predicate LegacyStages(stages: seq<Painted>, cache: map<string, Image>, state: GameStateOf<Player>,
                               winner: Option<PlayerId>, ids: seq<PlayerId>, seen: map<PlayerId, Seen>,
                               oracle: RenderOracle)
  {
    && |stages| == 6
    && stages[0] == Painted([ClearCanvas], true)
    && SceneStages(stages[1..5], cache, state.gameMap, ids, seen, oracle, true)
    && stages[5] == Painted(if IsTruthy(winner) then WinnerScreen(winner.value) else [], true)
  }

  class GameComponent {
    var hasJoinedGame: bool
    var isViewingGame: bool
    var previousActions: Option<PlayerAction>
    var serverUrl: string
    var clientId: Option<string>
    var userId: Option<string>
    var currentGameState: Option<GameStateOf<Player>>
    var errors: seq<string>
    var requests: seq<RoomRequest>

    const canvas: Canvas
    const engine: GameEngineService
    const mapManager: GameMapManagerService
    const playerManager: PlayerManagerService

    /** Both renderers draw through the one engine service. */
    predicate Wired() {
      mapManager.engine == engine && playerManager.engine == engine
    }

    constructor (canvas: Canvas, mapManager: GameMapManagerService, playerManager: PlayerManagerService)
      requires mapManager.engine == playerManager.engine
      ensures Wired() && this.canvas == canvas
      ensures !hasJoinedGame && !isViewingGame && previousActions.None?
      ensures userId.None? && clientId.None? && currentGameState.None?
      ensures errors == [] && requests == []
    {
      this.canvas := canvas;
      this.engine := mapManager.engine;
      this.mapManager := mapManager;
      this.playerManager := playerManager;
      hasJoinedGame, isViewingGame, previousActions := false, false, None;
      serverUrl, clientId, userId, currentGameState := "", None, None, None;
      errors, requests := [], [];
    }

    /** `ngOnInit`: joins the game room as a spectator. */
    method OnInit(url: string)
      modifies this
      ensures serverUrl == url && isViewingGame
      ensures requests == old(requests) + [Join(false, None)]
      ensures hasJoinedGame == old(hasJoinedGame) && previousActions == old(previousActions)
      ensures clientId == old(clientId) && userId == old(userId)
      ensures currentGameState == old(currentGameState) && errors == old(errors)
    {
      serverUrl := url;
      requests := requests + [Join(false, None)];
      isViewingGame := true;
    }

    /** The room's join signal: a join made to play, not to watch, makes the view a player. */
    method OnJoin()
      modifies this
      ensures hasJoinedGame == (old(hasJoinedGame) || !isViewingGame)
      ensures isViewingGame == old(isViewingGame) && previousActions == old(previousActions)
      ensures requests == old(requests) && errors == old(errors)
      ensures currentGameState == old(currentGameState)
      ensures serverUrl == old(serverUrl) && clientId == old(clientId) && userId == old(userId)
    {
      if !isViewingGame {
        hasJoinedGame := true;
      }
    }

    /** The client's error signal: the connection error is listed once. */
    method OnClientError()
      modifies this
      ensures errors == PushIfAbsent(old(errors), ConnectionErrorPrefix + serverUrl)
      ensures hasJoinedGame == old(hasJoinedGame) && isViewingGame == old(isViewingGame)
      ensures requests == old(requests) && currentGameState == old(currentGameState)
      ensures previousActions == old(previousActions)
      ensures serverUrl == old(serverUrl) && clientId == old(clientId) && userId == old(userId)
    {
      var message := ConnectionErrorPrefix + serverUrl;
      if message !in errors {
        errors := errors + [message];
      }
    }

    /**
     * `joinGame`: an empty or a blank id is refused with its own error and
     * cleared; any other id leaves the spectator room and joins as a player
     * under that id.
     */
    method JoinGame()
      modifies this
      ensures !IsTruthy(old(userId)) ==>
        errors == old(errors) + [EmptyIdError] && userId == Some("") && requests == old(requests)
      ensures IsTruthy(old(userId)) && TrimsToEmpty(old(userId).value) ==>
        errors == old(errors) + [BlankIdError] && userId == Some("") && requests == old(requests)
      ensures (!IsTruthy(old(userId)) || TrimsToEmpty(old(userId).value)) ==>
        isViewingGame == old(isViewingGame) && clientId == old(clientId)
      ensures IsTruthy(old(userId)) && !TrimsToEmpty(old(userId).value) ==>
        && requests == old(requests) + [Leave, Join(true, old(userId))]
        && !isViewingGame && clientId == old(userId) && userId == old(userId) && errors == old(errors)
      ensures hasJoinedGame == old(hasJoinedGame) && previousActions == old(previousActions)
      ensures currentGameState == old(currentGameState) && serverUrl == old(serverUrl)
    {
      if !IsTruthy(userId) {
        errors := errors + [EmptyIdError];
        userId := Some("");
        return;
      } else if TrimsToEmpty(userId.value) {
        errors := errors + [BlankIdError];
        userId := Some("");
        return;
      }
      requests := requests + [Leave];
      isViewingGame := false;
      clientId := userId;
      requests := requests + [Join(true, userId)];
    }

    /** `leaveGame`: back to watching. */
    method LeaveGame()
      modifies this
      ensures requests == old(requests) + [Leave]
      ensures !hasJoinedGame && isViewingGame
      ensures previousActions == old(previousActions) && errors == old(errors)
      ensures currentGameState == old(currentGameState)
      ensures serverUrl == old(serverUrl) && clientId == old(clientId) && userId == old(userId)
    {
      requests := requests + [Leave];
      hasJoinedGame := false;
      isViewingGame := true;
    }

    /**
     * `onActionInput`: a player's key event becomes the candidate vector,
     * which is stored and sent to the room when it differs from the stored
     * one. A spectator's events are ignored.
     */
    method OnActionInput(ev: KeyEvent)
      modifies this
      ensures !old(hasJoinedGame) ==> previousActions == old(previousActions) && requests == old(requests)
      ensures old(hasJoinedGame) ==>
        var cand := Candidate(old(previousActions), ev);
        && previousActions == Some(cand)
        && requests == old(requests) +
             if Changed(old(previousActions), cand) then [Send(Message("PlayerAction", ActionPayload(clientId, cand)))]
             else []
      ensures hasJoinedGame == old(hasJoinedGame) && isViewingGame == old(isViewingGame)
      ensures clientId == old(clientId) && userId == old(userId)
      ensures currentGameState == old(currentGameState) && errors == old(errors)
      ensures serverUrl == old(serverUrl)
    {
      if hasJoinedGame {
        var actions: PlayerAction;
        if previousActions.Some? {
          actions := NewPlayerAction;
        } else {
          actions := UnsetPlayerAction;
        }
        var isKeyDown := ev.eventType == "keydown";
        if ev.key == "ArrowUp" {
          actions := actions.(moveUp := Some(isKeyDown));
        } else if ev.key == "ArrowDown" {
          actions := actions.(moveDown := Some(isKeyDown));
        } else if ev.key == "ArrowLeft" {
          actions := actions.(moveLeft := Some(isKeyDown));
        } else if ev.key == "ArrowRight" {
          actions := actions.(moveRight := Some(isKeyDown));
        }
        if ev.key == " " {
          actions := actions.(plantBomb := Some(isKeyDown));
        }
        var hasChanged := previousActions.None?;
        if !hasChanged {
          var p := previousActions.value;
          hasChanged := p.moveDown != actions.moveDown || p.moveUp != actions.moveUp
                        || p.moveLeft != actions.moveLeft || p.moveRight != actions.moveRight
                        || p.plantBomb != actions.plantBomb;
        }
        previousActions := Some(actions);
        if hasChanged {
          requests := requests + [Send(Message("PlayerAction", ActionPayload(clientId, actions)))];
        }
      }
    }

    /**
     * `getGameTime`: minutes and seconds of the game time, joined by a colon,
     * with no padding; nothing before the first state.
     */
    function GameTime(): (text: Option<string>)
      reads this
      ensures text.None? <==> currentGameState.None?
    {
      if currentGameState.None? then None
      else
        var t := currentGameState.value.time;
        Some(IntToString(FloorDiv(t, 60000)) + ":" + IntToString(Rem(FloorDiv(t, 1000), 60)))
    }

    /**
     * `updatePlayerState`: the new registry has exactly the snapshot's ids.
     * A known id keeps its very object, updated in place; an unseen id gets a
     * new player built from the snapshot; ids missing from the snapshot are
     * dropped, and a dropped player no id of the snapshot still names is
     * left untouched. `ids` is the order in which the snapshot's ids are
     * enumerated.
     */
    method UpdatePlayerState(newState: GameStateOf<PlayerInfo>, ids: seq<PlayerId>)
      returns (players: map<PlayerId, Player>)
      requires currentGameState.Some?
      requires IsKeyOrder(ids, newState.players.Keys)
      modifies Registry(currentGameState.value.players)
      ensures players.Keys == newState.players.Keys
      ensures forall id :: id in players && id in currentGameState.value.players ==>
        players[id] == currentGameState.value.players[id]
      ensures forall id :: id in players && id !in currentGameState.value.players ==>
        fresh(players[id]) && Constructed(players[id], newState.players[id])
      ensures forall p :: p in currentGameState.value.players.Values && p !in players.Values ==> unchanged(p)
      ensures forall id, other ::
        (id in players && other in players && id != other && id !in currentGameState.value.players) ==>
          players[id] != players[other]
    {
      var known := currentGameState.value.players;
      players := map[];
      ghost var owner: map<Player, PlayerId> := map[];
      ghost var touched: map<Player, PlayerId> := map[];
      for i := 0 to |ids|
        invariant forall id :: id in players <==> id in ids[..i]
        invariant forall id :: id in players ==> id in newState.players
        invariant forall id :: id in players && id in known ==> players[id] == known[id]
        invariant forall id :: id in players && id !in known ==> players[id] in owner && owner[players[id]] == id
        invariant forall p :: p in owner ==> fresh(p) && owner[p] in newState.players && Constructed(p, newState.players[owner[p]])
        invariant forall p :: p in known.Values && p !in touched ==> unchanged(p)
        invariant forall p :: p in touched ==> touched[p] in players && players[touched[p]] == p
      {
        var id := ids[i];
        assert ids[..i + 1] == ids[..i] + [id];
        if id in known {
          var player := known[id];
          player.ChangeState(newState.players[id]);
          players := players[id := player];
          touched := touched[player := id];
        } else {
          var player := new Player(newState.players[id]);
          players := players[id := player];
          owner := owner[player := id];
        }
      }
    }

    /** `initPlayers`: a new player for every id of the snapshot, nothing reused. */
    method InitPlayers(newState: GameStateOf<PlayerInfo>, ids: seq<PlayerId>)
      returns (players: map<PlayerId, Player>)
      requires IsKeyOrder(ids, newState.players.Keys)
      ensures players.Keys == newState.players.Keys
      ensures forall id :: id in players ==> fresh(players[id]) && Constructed(players[id], newState.players[id])
      ensures forall id, other :: id in players && other in players && id != other ==> players[id] != players[other]
    {
      players := map[];
      ghost var owner: map<Player, PlayerId> := map[];
      for i := 0 to |ids|
        invariant forall id :: id in players <==> id in ids[..i]
        invariant forall id :: id in players ==> id in newState.players
        invariant forall id :: id in players ==> fresh(players[id]) && Constructed(players[id], newState.players[id])
        invariant forall id :: id in players ==> players[id] in owner && owner[players[id]] == id
      {
        var id := ids[i];
        assert ids[..i + 1] == ids[..i] + [id];
        var player := new Player(newState.players[id]);
        players := players[id := player];
        owner := owner[player := id];
      }
    }

    /** The connection and input fields, which drawing and state updates leave alone. */
    twostate predicate SessionKept()
      reads this
    {
      && hasJoinedGame == old(hasJoinedGame) && previousActions == old(previousActions)
      && serverUrl == old(serverUrl) && clientId == old(clientId) && userId == old(userId)
      && requests == old(requests)
    }

    /** `getCanvasContext`: the 2-D context, or an error listed when there is none. */
    method CanvasContext() returns (ctx: bool)
      modifies this
      ensures ctx == canvas.hasContext
      ensures errors == old(errors) + if ctx then [] else [CanvasError]
      ensures SessionKept() && isViewingGame == old(isViewingGame) && currentGameState == old(currentGameState)
    {
      ctx := canvas.hasContext;
      if !ctx {
        errors := errors + [CanvasError];
      }
    }

    /** The commands of `drawWinnerScreen` once it holds a context. */
    method PaintWinnerScreen(id: PlayerId)
      modifies canvas
      ensures canvas.trace == old(canvas.trace) + WinnerScreen(id)
    {
      canvas.Issue([SetGlobalAlpha(Dimmed)]);
      canvas.Issue([SetFillStyle("black")]);
      canvas.Issue([FillCanvas]);
      canvas.Issue([SetGlobalAlpha(Opaque)]);
      canvas.Issue([SetFont(OverlayFont)]);
      canvas.Issue([SetFillStyle("white")]);
      canvas.Issue([SetTextAlign("center")]);
      canvas.Issue([FillText(WinnerText(id), CanvasCenter, 150, true)]);
    }

    /**
     * `drawWinnerScreen`: dims the frame and announces the winner. Without a
     * context the error is listed and the first assignment to the missing
     * context throws, so nothing is drawn.
     */
    method DrawWinnerScreen(id: PlayerId)
      modifies this, canvas
      ensures errors == old(errors) + if canvas.hasContext then [] else [CanvasError]
      ensures canvas.trace == old(canvas.trace) + if canvas.hasContext then WinnerScreen(id) else []
      ensures SessionKept() && isViewingGame == old(isViewingGame) && currentGameState == old(currentGameState)
    {
      var ctx := CanvasContext();
      if ctx {
        PaintWinnerScreen(id);
      }
    }

    /**
     * The body of `draw` once the canvas is known to have a context (the
     * context lookups it repeats then list nothing): clears the canvas, draws
     * the scene, then the banner of `winner` when it names one.
     */
    method PaintFrame(state: GameStateOf<Player>, winner: Option<PlayerId>, ids: seq<PlayerId>, oracle: RenderOracle)
      returns (completed: bool, ghost stages: seq<Painted>)
      requires Wired() && engine.Valid() && IsKeyOrder(ids, state.players.Keys)
      requires canvas.hasContext
      modifies canvas, engine, Registry(state.players)
      ensures engine.Valid()
      ensures LegacyStages(stages, old(engine.cache), state, winner, ids, old(Snapshot(state.players)), oracle)
      ensures canvas.trace == old(canvas.trace) + Layered(stages)
      ensures completed == FirstRejected(stages).None?
    {
      ghost var seen := Snapshot(state.players);
      ghost var start := canvas.trace;
      canvas.Issue([DrawCmd.ClearCanvas]);
      assert Snapshot(state.players) == seen;
      ghost var afterClear := canvas.trace;
      ghost var scene;
      completed, scene := DrawScene(mapManager, playerManager, canvas, state, ids, oracle);
      ghost var middle := canvas.trace;
      if completed && IsTruthy(winner) {
        PaintWinnerScreen(winner.value);
      }
      stages := FramedTrace(start, afterClear, middle, canvas.trace, [DrawCmd.ClearCanvas], scene,
                            if IsTruthy(winner) then WinnerScreen(winner.value) else [], completed);
    }

    /**
     * `draw`, the view's own render pass over `state`, with the banner of the
     * current state's winner. Without a context, clearing lists the canvas
     * error and throws before anything is drawn.
     */
    method DrawCurrentState(state: GameStateOf<Player>, ids: seq<PlayerId>, oracle: RenderOracle)
      returns (completed: bool, ghost stages: seq<Painted>)
      requires Wired() && engine.Valid() && IsKeyOrder(ids, state.players.Keys)
      requires currentGameState.Some?
      modifies this, canvas, engine, Registry(state.players)
      ensures engine.Valid()
      ensures SessionKept() && isViewingGame == old(isViewingGame) && currentGameState == old(currentGameState)
      ensures !canvas.hasContext ==>
        errors == old(errors) + [CanvasError] && canvas.trace == old(canvas.trace) && !completed
      ensures canvas.hasContext ==>
        && errors == old(errors)
        && LegacyStages(stages, old(engine.cache), state, currentGameState.value.winner, ids,
                        old(Snapshot(state.players)), oracle)
        && canvas.trace == old(canvas.trace) + Layered(stages)
        && completed == FirstRejected(stages).None?
    {
      var ctx := CanvasContext();
      if ctx {
        completed, stages := PaintFrame(state, currentGameState.value.winner, ids, oracle);
      } else {
        completed, stages := false, [];
      }
    }

    /**
     * The first half of `updateState`: the reconciled players replace the
     * current ones. `seen` is what a draw reads of them.
     */
    method AdoptUpdate(newState: GameStateOf<PlayerInfo>, ids: seq<PlayerId>) returns (ghost seen: map<PlayerId, Seen>)
      requires currentGameState.Some? && IsKeyOrder(ids, newState.players.Keys)
      modifies this, Registry(currentGameState.value.players)
      ensures SessionKept() && isViewingGame == old(isViewingGame) && errors == old(errors)
      ensures currentGameState.Some? && SameApartFromPlayers(currentGameState.value, newState)
      ensures currentGameState.value.players.Keys == newState.players.Keys
      ensures forall id :: id in newState.players && id in old(currentGameState).value.players ==>
        currentGameState.value.players[id] == old(currentGameState).value.players[id]
      ensures forall id :: id in newState.players && id !in old(currentGameState).value.players ==>
        fresh(currentGameState.value.players[id])
      ensures Registry(currentGameState.value.players) <= old(Registry(currentGameState.value.players)) + 
        set id | id in newState.players && id !in old(currentGameState).value.players :: currentGameState.value.players[id]
      ensures seen == Snapshot(currentGameState.value.players)
      ensures forall id :: id in seen && id !in old(currentGameState).value.players ==> !seen[id].isAlive
    {
      var players := UpdatePlayerState(newState, ids);
      currentGameState := Some(WithPlayers(newState, players));
      seen := Snapshot(players);
      forall id | id in seen && id !in old(currentGameState).value.players
        ensures !seen[id].isAlive
      {
        assert Constructed(players[id], newState.players[id]);
      }
    }

    /**
     * `updateState`: reconciles the players of `newState` with the current
     * ones, makes the result the current state and draws it. `seen` is what
     * the draw reads of the reconciled players.
     */
    method UpdateState(newState: GameStateOf<PlayerInfo>, ids: seq<PlayerId>, oracle: RenderOracle)
      returns (completed: bool, ghost stages: seq<Painted>, ghost seen: map<PlayerId, Seen>)
      requires Wired() && engine.Valid() && IsKeyOrder(ids, newState.players.Keys)
      requires currentGameState.Some?
      modifies this, canvas, engine, Registry(currentGameState.value.players)
      ensures engine.Valid()
      ensures SessionKept() && isViewingGame == old(isViewingGame)
      ensures currentGameState.Some? && SameApartFromPlayers(currentGameState.value, newState)
      ensures currentGameState.value.players.Keys == newState.players.Keys
      ensures forall id :: id in newState.players && id in old(currentGameState).value.players ==>
        currentGameState.value.players[id] == old(currentGameState).value.players[id]
      ensures forall id :: id in newState.players && id !in old(currentGameState).value.players ==>
        fresh(currentGameState.value.players[id])
      ensures forall id :: id in seen && id !in old(currentGameState).value.players ==> !seen[id].isAlive
      ensures !canvas.hasContext ==>
        errors == old(errors) + [CanvasError] && canvas.trace == old(canvas.trace) && !completed
      ensures canvas.hasContext ==>
        && errors == old(errors)
        && LegacyStages(stages, old(engine.cache), currentGameState.value, newState.winner, ids, seen, oracle)
        && canvas.trace == old(canvas.trace) + Layered(stages)
        && completed == FirstRejected(stages).None?
    {
      seen := AdoptUpdate(newState, ids);
      completed, stages := DrawCurrentState(currentGameState.value, ids, oracle);
    }

    /**
     * The first half of `initGameState`: a new player for every id, the
     * state made current, the view watching, the errors cleared.
     */
    method AdoptFirstState(newState: GameStateOf<PlayerInfo>, ids: seq<PlayerId>) returns (ghost seen: map<PlayerId, Seen>)
      requires IsKeyOrder(ids, newState.players.Keys)
      modifies this
      ensures SessionKept() && isViewingGame && errors == []
      ensures currentGameState.Some? && SameApartFromPlayers(currentGameState.value, newState)
      ensures currentGameState.value.players.Keys == newState.players.Keys
      ensures forall id :: id in newState.players ==> fresh(currentGameState.value.players[id])
      ensures seen == Snapshot(currentGameState.value.players)
      ensures forall id :: id in seen ==> !seen[id].isAlive
    {
      var players := InitPlayers(newState, ids);
      currentGameState := Some(WithPlayers(newState, players));
      isViewingGame := true;
      errors := [];
      seen := Snapshot(players);
      forall id | id in seen
        ensures !seen[id].isAlive
      {
        assert Constructed(players[id], newState.players[id]);
      }
    }

    /**
     * `initGameState`: the first snapshot, with a new player for every id,
     * becomes the current state; the view watches, its errors are cleared,
     * and the state is drawn. Every new player is dead, so the first frame
     * draws no player.
     */
    method InitGameState(newState: GameStateOf<PlayerInfo>, ids: seq<PlayerId>, oracle: RenderOracle)
      returns (completed: bool, ghost stages: seq<Painted>)
      requires Wired() && engine.Valid() && IsKeyOrder(ids, newState.players.Keys)
      modifies this, canvas, engine
      ensures engine.Valid()
      ensures SessionKept() && isViewingGame
      ensures currentGameState.Some? && SameApartFromPlayers(currentGameState.value, newState)
      ensures currentGameState.value.players.Keys == newState.players.Keys
      ensures forall id :: id in newState.players ==> fresh(currentGameState.value.players[id])
      ensures errors == if canvas.hasContext then [] else [CanvasError]
      ensures !canvas.hasContext ==> canvas.trace == old(canvas.trace) && !completed
      ensures canvas.hasContext ==>
        && (exists seen :: LegacyStages(stages, old(engine.cache), currentGameState.value, newState.winner,
                                        ids, seen, oracle))
        && canvas.trace == old(canvas.trace) + Layered(stages)
        && completed == FirstRejected(stages).None?
      ensures canvas.hasContext && FirstRejected(stages[1..4]).None? ==> stages[4] == Painted([], true)
    {
      ghost var seen := AdoptFirstState(newState, ids);
      completed, stages := DrawCurrentState(currentGameState.value, ids, oracle);
      if canvas.hasContext {
        FirstFrameDrawsNoPlayer(stages, old(engine.cache), currentGameState.value, newState.winner, ids, seen, oracle);
      }
    }

    /**
     * The room's state-change signal: ignored until a first state is held,
     * then an update.
     */
    method OnStateChange(newState: GameStateOf<PlayerInfo>, ids: seq<PlayerId>, oracle: RenderOracle)
      returns (completed: bool)
      requires Wired() && engine.Valid() && IsKeyOrder(ids, newState.players.Keys)
      modifies this, canvas, engine, if currentGameState.Some? then Registry(currentGameState.value.players) else {}
      ensures engine.Valid()
      ensures old(currentGameState).None? ==> unchanged(this) && canvas.trace == old(canvas.trace)
      ensures old(currentGameState).Some? ==>
        currentGameState.Some? && SameApartFromPlayers(currentGameState.value, newState) &&
        currentGameState.value.players.Keys == newState.players.Keys
    {
      if currentGameState.None? {
        return true;
      }
      ghost var stages, seen;
      completed, stages, seen := UpdateState(newState, ids, oracle);
    }
  }

  lemma {:induction false} NoneLiving(ids: seq<PlayerId>, seen: map<PlayerId, Seen>)
    requires forall id :: id in ids ==> id in seen
    requires forall id :: id in seen ==> !seen[id].isAlive
    ensures Living(ids, seen) == []
  {
    if ids != [] {
      NoneLiving(ids[..|ids| - 1], seen);
    }
  }

  /** When no player is alive, as after `new Player`, the players stage draws nothing and resolves. */
  lemma NobodyAliveNothingDrawn(p: Painted, ids: seq<PlayerId>, seen: map<PlayerId, Seen>,
                                sheetAvailable: bool, hasContext: bool)
    requires forall id :: id in ids ==> id in seen
    requires forall id :: id in seen ==> !seen[id].isAlive
    requires PlayersPass(p, ids, seen, sheetAvailable, hasContext)
    ensures p.ok && p.cmds == []
  {
    NoneLiving(ids, seen);
  }

  /** In a pass over players none of whom is alive, the players stage draws nothing and resolves. */
  lemma FirstFrameDrawsNoPlayer(stages: seq<Painted>, cache: map<string, Image>, state: GameStateOf<Player>,
                                winner: Option<PlayerId>, ids: seq<PlayerId>, seen: map<PlayerId, Seen>,
                                oracle: RenderOracle)
    requires LegacyStages(stages, cache, state, winner, ids, seen, oracle)
    requires forall id :: id in seen ==> !seen[id].isAlive
    ensures FirstRejected(stages[1..4]).None? ==> stages[4] == Painted([], true)
  {
    if FirstRejected(stages[1..4]).None? {
      assert stages[1..5][..3] == stages[1..4];
      NobodyAliveNothingDrawn(stages[4], ids, seen, PlayerImage in cache || oracle.load(PlayerImage), true);
    }
  }

  /**
   * `getGameTime` read back: for a non-negative time, the text splits at its
   * colon into two decimal numbers, the minutes and the seconds within the
   * minute, that locate the time to the second.
   */
  lemma GameTimeReadsBack(view: GameComponent)
    requires view.currentGameState.Some? && view.currentGameState.value.time >= 0
    ensures var text := view.GameTime().value;
      var t := view.currentGameState.value.time;
      var colon := IndexOf(text, ':');
      && colon < |text|
      && AllDigits(text[..colon]) && AllDigits(text[colon + 1..])
      && ParseNat(text[colon + 1..]) < 60
      && ParseNat(text[..colon]) * 60000 + ParseNat(text[colon + 1..]) * 1000 <= t
      && t < ParseNat(text[..colon]) * 60000 + ParseNat(text[colon + 1..]) * 1000 + 1000
  {
    var t := view.currentGameState.value.time;
    var seconds := t / 1000;
    var minutes := seconds / 60;
    var second := seconds % 60;
    assert seconds == 60 * minutes + second;
    DivIffBetween(t, minutes, 60000);
    assert FloorDiv(t, 60000) == minutes;
    assert Rem(FloorDiv(t, 1000), 60) == second;
    var m := NatToString(minutes);
    var sec := NatToString(second);
    var text := view.GameTime().value;
    assert text == m + ":" + sec;
    var colon := IndexOf(text, ':');
    assert text[|m|] == ':';
    assert text[..colon] == m && text[colon + 1..] == sec;
    ParseNatToString(minutes);
    ParseNatToString(second);
  }
}
