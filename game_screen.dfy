/**
 * One render pass of the game screen: clear, map, collectibles, bombs and
 * explosions, living players, end-of-game overlay. Each stage is awaited, so
 * a rejecting stage ends the pass and every later stage draws nothing.
 */
module GameScreen {

  import opened Wrappers
  import opened Js
  import opened Models
  import opened Canvas2D
  import opened GameEngine
  import opened GameMapManager
  import opened Players
  import opened PlayerManager

  // ---------------------------------------------------------------------
  // Awaited stages
  // ---------------------------------------------------------------------

  /** The commands of every stage, in order. */
  function Flatten(stages: seq<Painted>): seq<DrawCmd> {
    if stages == [] then [] else stages[0].cmds + Flatten(stages[1..])
  }

  /**
   * The commands a sequence of awaited stages issues: each stage's own, up
   * to and including the first stage that rejects.
   */
  function Layered(stages: seq<Painted>): seq<DrawCmd> {
    if stages == [] then []
    else stages[0].cmds + if stages[0].ok then Layered(stages[1..]) else []
  }

  /** The index of the first stage that rejects, if any. */
  function FirstRejected(stages: seq<Painted>): (r: Option<nat>)
    ensures r.None? <==> forall j :: 0 <= j < |stages| ==> stages[j].ok
    ensures r.Some? ==> r.value < |stages| && !stages[r.value].ok && forall j :: 0 <= j < r.value ==> stages[j].ok
  {
    if stages == [] then None
    else if !stages[0].ok then Some(0)
    else
      var rest := FirstRejected(stages[1..]);
      assert forall j :: 1 <= j < |stages| ==> stages[j] == stages[1..][j - 1];
      if rest.None? then None else Some(rest.value + 1)
  }

  /**
   * The pass issues exactly the stages up to the first rejecting one, whole
   * and in order: every stage completes before the next one starts.
   */
  lemma {:induction false} LayeredIsStagesUpToRejection(stages: seq<Painted>)
    ensures var r := FirstRejected(stages);
      Layered(stages) == Flatten(if r.None? then stages else stages[..r.value + 1])
  {
    if stages != [] {
      LayeredIsStagesUpToRejection(stages[1..]);
      var r := FirstRejected(stages[1..]);
      if !stages[0].ok {
        assert stages[..1][1..] == [];
      } else if r.Some? {
        assert stages[..r.value + 2][1..] == stages[1..][..r.value + 1];
      }
    }
  }

  /** Stages after a rejection issue nothing, whatever they would have drawn. */
  lemma {:induction false} LayeredIgnoresLaterStage(stages: seq<Painted>, i: nat, k: nat, later: Painted)
    requires i < k < |stages| && !stages[i].ok
    requires forall j :: 0 <= j < i ==> stages[j].ok
    ensures Layered(stages[k := later]) == Layered(stages)
  {
    var t := stages[k := later];
    assert t[0] == stages[0];
    if i > 0 {
      assert t[1..] == stages[1..][k - 1 := later];
      LayeredIgnoresLaterStage(stages[1..], i - 1, k - 1, later);
    }
  }

  // ---------------------------------------------------------------------
  // Clear and overlay
  // ---------------------------------------------------------------------

  /** `clearCanvas` of the game screen: nothing without a context. */
  function ClearCmds(hasContext: bool): seq<DrawCmd> {
    if hasContext then [ClearCanvas] else []
  }

  const OverlayFont: string := "24px Marker Felt, fantasy"

  /** Darkens the whole frame, then restores full opacity. */
  const DimCmds: seq<DrawCmd> := [SetGlobalAlpha(Dimmed), SetFillStyle("black"), FillCanvas, SetGlobalAlpha(Opaque)]

  /** The text style of both end-of-game screens. */
  const BannerStyle: seq<DrawCmd> := [SetFont(OverlayFont), SetFillStyle("white"), SetTextAlign("center")]

  function WinnerText(id: PlayerId): string {
    "Player " + id + " has won!"
  }

  const DrawText1: string := "It's a draw, scrub :)"
  const DrawText2: string := "Seriously, try killing others next time..."

  /** `drawWinnerScreen` with a context. */
  function WinnerScreen(id: PlayerId): seq<DrawCmd> {
    DimCmds + BannerStyle + [FillText(WinnerText(id), CanvasCenter, 150, true)]
  }

  /** `drawNoWinnerScreen` with a context. */
  function NoWinnerScreen(): seq<DrawCmd> {
    DimCmds + BannerStyle + [FillText(DrawText1, CanvasCenter, 150, true), FillText(DrawText2, CanvasCenter, 200, true)]
  }

  /** The end-of-game overlay of the game screen. */
  function Overlay(state: GameStateOf<Player>, hasContext: bool): seq<DrawCmd> {
    if !hasContext || !state.isOver then []
    else if IsTruthy(state.winner) then WinnerScreen(state.winner.value)
    else NoWinnerScreen()
  }

  /** The texts drawn by `cmds`, with their baselines, in order. */
  function Texts(cmds: seq<DrawCmd>): seq<(string, int)> {
    if cmds == [] then []
    else (if cmds[0].FillText? then [(cmds[0].text, cmds[0].baseline)] else []) + Texts(cmds[1..])
  }

  /** The `globalAlpha` in effect after `cmds`, starting from `alpha`. */
  function AlphaAfter(cmds: seq<DrawCmd>, alpha: Alpha): Alpha {
    if cmds == [] then alpha
    else AlphaAfter(cmds[1..], if cmds[0].SetGlobalAlpha? then cmds[0].alpha else alpha)
  }

  /**
   * The overlay is drawn iff the game is over and there is a context: the
   * winner's line when a winner is named, the two draw lines otherwise.
   */
  lemma OverlayTexts(state: GameStateOf<Player>, hasContext: bool)
    ensures Overlay(state, hasContext) == [] <==> !hasContext || !state.isOver
    ensures hasContext && state.isOver && IsTruthy(state.winner) ==>
      Texts(Overlay(state, hasContext)) == [(WinnerText(state.winner.value), 150)]
    ensures hasContext && state.isOver && !IsTruthy(state.winner) ==>
      Texts(Overlay(state, hasContext)) == [(DrawText1, 150), (DrawText2, 200)]
  {
    var w := if state.winner.Some? then WinnerText(state.winner.value) else "";
    var banner := DimCmds + BannerStyle;
    TextsNone(banner);
    TextsAppend(banner, [FillText(w, CanvasCenter, 150, true)]);
    var line1, line2 := FillText(DrawText1, CanvasCenter, 150, true), FillText(DrawText2, CanvasCenter, 200, true);
    assert Texts([line2]) == [(DrawText2, 200)] by {
      assert [line2][1..] == [];
    }
    assert [line1, line2][1..] == [line2];
    TextsAppend(banner, [line1, line2]);
  }

  lemma {:induction false} TextsNone(s: seq<DrawCmd>)
    requires forall k :: 0 <= k < |s| ==> !s[k].FillText?
    ensures Texts(s) == []
  {
    if s != [] {
      TextsNone(s[1..]);
    }
  }

  lemma {:induction false} TextsAppend(s: seq<DrawCmd>, t: seq<DrawCmd>)
    ensures Texts(s + t) == Texts(s) + Texts(t)
  {
    if s == [] {
      assert s + t == t;
    } else {
      assert (s + t)[0] == s[0];
      assert (s + t)[1..] == s[1..] + t;
      TextsAppend(s[1..], t);
    }
  }

  lemma {:induction false} AlphaAfterAppend(s: seq<DrawCmd>, t: seq<DrawCmd>, alpha: Alpha)
    ensures AlphaAfter(s + t, alpha) == AlphaAfter(t, AlphaAfter(s, alpha))
  {
    if s == [] {
      assert s + t == t;
    } else {
      assert (s + t)[0] == s[0];
      assert (s + t)[1..] == s[1..] + t;
      AlphaAfterAppend(s[1..], t, if s[0].SetGlobalAlpha? then s[0].alpha else alpha);
    }
  }

  /** Commands that set no alpha leave it as it was. */
  lemma {:induction false} AlphaAfterNoSet(s: seq<DrawCmd>, alpha: Alpha)
    requires forall k :: 0 <= k < |s| ==> !s[k].SetGlobalAlpha?
    ensures AlphaAfter(s, alpha) == alpha
  {
    if s != [] {
      AlphaAfterNoSet(s[1..], alpha);
    }
  }

  /**
   * Both end-of-game screens fill the canvas at the dimmed alpha and draw
   * every line of text at full opacity, which is also what they leave set.
   */
  lemma {:induction false} OverlayAlphaRestored(state: GameStateOf<Player>, hasContext: bool, alpha: Alpha)
    requires hasContext && state.isOver
    ensures var cmds := Overlay(state, hasContext);
      && AlphaAfter(cmds, alpha) == Opaque
      && (forall k :: 0 <= k < |cmds| && cmds[k].FillCanvas? ==> AlphaAfter(cmds[..k], alpha) == Dimmed)
      && (forall k :: 0 <= k < |cmds| && cmds[k].FillText? ==> AlphaAfter(cmds[..k], alpha) == Opaque)
  {
    var cmds := Overlay(state, hasContext);
    var texts := cmds[|DimCmds|..];
    assert cmds == DimCmds + texts;
    assert forall k :: 0 <= k < |texts| ==> !texts[k].SetGlobalAlpha? && !texts[k].FillCanvas?;
    assert AlphaAfter(DimCmds, alpha) == Opaque by {
      assert DimCmds[1..][1..][1..][1..] == [];
    }
    AlphaAfterNoSet(texts, Opaque);
    AlphaAfterAppend(DimCmds, texts, alpha);
    forall k | 0 <= k < |cmds| && cmds[k].FillCanvas?
      ensures AlphaAfter(cmds[..k], alpha) == Dimmed
    {
      assert k == 2;
      assert cmds[..k] == [SetGlobalAlpha(Dimmed)] + [SetFillStyle("black")];
      assert AlphaAfter([SetGlobalAlpha(Dimmed)], alpha) == Dimmed by {
        assert [SetGlobalAlpha(Dimmed)][1..] == [];
      }
      AlphaAfterNoSet([SetFillStyle("black")], Dimmed);
      AlphaAfterAppend([SetGlobalAlpha(Dimmed)], [SetFillStyle("black")], alpha);
    }
    forall k | 0 <= k < |cmds| && cmds[k].FillText?
      ensures AlphaAfter(cmds[..k], alpha) == Opaque
    {
      assert k >= |DimCmds|;
      var between := texts[..k - |DimCmds|];
      assert cmds[..k] == DimCmds + between;
      AlphaAfterNoSet(between, Opaque);
      AlphaAfterAppend(DimCmds, between, alpha);
    }
  }

  // ---------------------------------------------------------------------
  // Living players
  // ---------------------------------------------------------------------

  ghost function Registry(players: map<PlayerId, Player>): set<Player> {
    set id | id in players :: players[id]
  }

  /** What the player loop reads of one player. */
  datatype Seen = Seen(isAlive: bool, coordinates: Point, hasActions: bool)

  ghost function SeenOf(player: Player): Seen
    reads player
  {
    Seen(player.isAlive, player.coordinates, player.currentActions.Some?)
  }

  ghost function Snapshot(players: map<PlayerId, Player>): (snap: map<PlayerId, Seen>)
    reads Registry(players)
    ensures snap.Keys == players.Keys
    ensures forall id :: id in players ==> snap[id] == SeenOf(players[id])
  {
    map id | id in players :: SeenOf(players[id])
  }

  /** The ids, in `ids` order, whose player is alive. */
  function Living(ids: seq<PlayerId>, seen: map<PlayerId, Seen>): (r: seq<PlayerId>)
    requires forall id :: id in ids ==> id in seen
    ensures |r| <= |ids|
    ensures forall k :: 0 <= k < |r| ==> r[k] in seen && seen[r[k]].isAlive
  {
    if ids == [] then []
    else
      var last := ids[|ids| - 1];
      Living(ids[..|ids| - 1], seen) + if seen[last].isAlive then [last] else []
  }

  lemma {:induction false} LivingPrefix(ids: seq<PlayerId>, i: nat, seen: map<PlayerId, Seen>)
    requires i <= |ids| && forall id :: id in ids ==> id in seen
    ensures Living(ids[..i], seen) <= Living(ids, seen)
    decreases |ids|
  {
    if i < |ids| {
      var front := ids[..|ids| - 1];
      assert front[..i] == ids[..i];
      LivingPrefix(front, i, seen);
    } else {
      assert ids[..i] == ids;
    }
  }

  lemma LivingStep(ids: seq<PlayerId>, i: nat, seen: map<PlayerId, Seen>)
    requires i < |ids| && forall id :: id in ids ==> id in seen
    ensures Living(ids[..i + 1], seen) == Living(ids[..i], seen) + if seen[ids[i]].isAlive then [ids[i]] else []
  {
    assert ids[..i + 1][..i] == ids[..i];
  }

  /** Every id that names a living player is among the living. */
  lemma {:induction false} LivingComplete(ids: seq<PlayerId>, seen: map<PlayerId, Seen>, j: nat)
    requires forall id :: id in ids ==> id in seen
    requires j < |ids| && seen[ids[j]].isAlive
    ensures ids[j] in Living(ids, seen)
  {
    if j < |ids| - 1 {
      LivingComplete(ids[..|ids| - 1], seen, j);
    }
  }

  /** A draw of the sprite sheet at the 32 x 32 square at `pos`, from a cell of the sheet. */
  predicate IsSpriteAt(cmd: DrawCmd, pos: Point) {
    && cmd.DrawImageRect?
    && cmd.src == PlayerImage
    && IsSheetCell(cmd.source)
    && cmd.dest == Rect(pos.x, pos.y, CellSize, CellSize)
  }

  /**
   * What the player stage did: it stops at the first living player it cannot
   * draw; it draws one 32 x 32 sprite per living player, in key order, at that
   * player's coordinates, with a source cell on the sheet.
   */
  predicate PlayersPass(p: Painted, ids: seq<PlayerId>, seen: map<PlayerId, Seen>,
                        sheetAvailable: bool, hasContext: bool)
    requires forall id :: id in ids ==> id in seen
  {
    var living := Living(ids, seen);
    && (p.ok <==> living == [] || (sheetAvailable && forall k :: 0 <= k < |living| ==> seen[living[k]].hasActions))
    && |p.cmds| <= |living|
    && (!hasContext ==> p.cmds == [])
    && (p.ok && hasContext ==> |p.cmds| == |living|)
    && forall k :: 0 <= k < |p.cmds| ==> IsSpriteAt(p.cmds[k], seen[living[k]].coordinates)
  }

  /**
   * The player loop after `i` turns: `lived` are the living players among
   * the first `i` ids, all drawable, and `cmds` holds one sprite per living
   * player when there is a context.
   */
  predicate DrawnSoFar(ids: seq<PlayerId>, i: nat, seen: map<PlayerId, Seen>, available: bool, hasContext: bool,
                       lived: seq<PlayerId>, cmds: seq<DrawCmd>)
    requires i <= |ids| && forall id :: id in ids ==> id in seen
  {
    && lived == Living(ids[..i], seen)
    && (lived != [] ==> available)
    && (forall k :: 0 <= k < |lived| ==> seen[lived[k]].hasActions)
    && |cmds| == (if hasContext then |lived| else 0)
    && (forall k :: 0 <= k < |cmds| ==> IsSpriteAt(cmds[k], seen[lived[k]].coordinates))
  }

  /** One more turn that drew the player under `ids[i]`, or skipped it. */
  lemma DrawnStep(ids: seq<PlayerId>, i: nat, seen: map<PlayerId, Seen>, available: bool, hasContext: bool,
                  lived: seq<PlayerId>, cmds: seq<DrawCmd>, drawn: seq<DrawCmd>)
    requires i < |ids| && forall id :: id in ids ==> id in seen
    requires DrawnSoFar(ids, i, seen, available, hasContext, lived, cmds)
    requires var s := seen[ids[i]];
      && (!s.isAlive ==> drawn == [])
      && (s.isAlive ==>
        && available && s.hasActions
        && |drawn| == (if hasContext then 1 else 0)
        && forall k :: 0 <= k < |drawn| ==> IsSpriteAt(drawn[k], s.coordinates))
    ensures DrawnSoFar(ids, i + 1, seen, available, hasContext,
                       lived + if seen[ids[i]].isAlive then [ids[i]] else [], cmds + drawn)
  {
    LivingStep(ids, i, seen);
  }

  /** A player loop that got through every id. */
  lemma PassCompleted(ids: seq<PlayerId>, seen: map<PlayerId, Seen>, available: bool, hasContext: bool,
                      lived: seq<PlayerId>, cmds: seq<DrawCmd>)
    requires forall id :: id in ids ==> id in seen
    requires DrawnSoFar(ids, |ids|, seen, available, hasContext, lived, cmds)
    ensures PlayersPass(Painted(cmds, true), ids, seen, available, hasContext)
  {
    assert ids[..|ids|] == ids;
  }

  /** A player loop that stopped at the living player `ids[i]`. */
  lemma PassStopped(ids: seq<PlayerId>, seen: map<PlayerId, Seen>, i: nat, available: bool, hasContext: bool,
                    lived: seq<PlayerId>, cmds: seq<DrawCmd>)
    requires i < |ids| && forall id :: id in ids ==> id in seen
    requires seen[ids[i]].isAlive && !(available && seen[ids[i]].hasActions)
    requires DrawnSoFar(ids, i, seen, available, hasContext, lived, cmds)
    ensures PlayersPass(Painted(cmds, false), ids, seen, available, hasContext)
  {
    var living := Living(ids, seen);
    LivingStep(ids, i, seen);
    LivingPrefix(ids, i + 1, seen);
    assert living[|lived|] == ids[i];
  }

  /** A cache that may have gained the sprite sheet, and nothing else. */
  predicate SheetOnlyAdded(before: map<string, Image>, after: map<string, Image>) {
    after == before || (PlayerImage !in before && PlayerImage in after && after == before[PlayerImage := after[PlayerImage]])
  }

  lemma SheetOnlyAddedTransitive(a: map<string, Image>, b: map<string, Image>, c: map<string, Image>)
    requires SheetOnlyAdded(a, b) && SheetOnlyAdded(b, c)
    ensures SheetOnlyAdded(a, c)
  {
  }

  /** One turn of the player loop: the player under `id` is drawn if alive, skipped otherwise. */
  method DrawIfAlive(playerManager: PlayerManagerService, canvas: Canvas, players: map<PlayerId, Player>,
                     id: PlayerId, sheetLoads: bool)
    returns (ok: bool, ghost drawn: seq<DrawCmd>)
    requires playerManager.engine.Valid() && id in players
    modifies playerManager.engine, canvas, players[id]
    ensures playerManager.engine.Valid()
    ensures SheetOnlyAdded(old(playerManager.engine.cache), playerManager.engine.cache)
    ensures forall other :: other in players ==> SeenOf(players[other]) == old(SeenOf(players[other]))
    ensures canvas.trace == old(canvas.trace) + drawn
    ensures var seen := old(SeenOf(players[id]));
      && (!seen.isAlive ==> ok && drawn == [] && playerManager.engine.cache == old(playerManager.engine.cache))
      && (seen.isAlive ==>
        && (ok <==> (PlayerImage in old(playerManager.engine.cache) || sheetLoads) && seen.hasActions)
        && (ok ==> PlayerImage in playerManager.engine.cache)
        && |drawn| == (if ok && canvas.hasContext then 1 else 0)
        && forall k :: 0 <= k < |drawn| ==> IsSpriteAt(drawn[k], seen.coordinates))
  {
    var player := players[id];
    drawn := [];
    ok := true;
    if player.isAlive {
      ok := playerManager.DrawPlayer(canvas, player, sheetLoads);
      if ok {
        SpriteCellOnSheet(player.currentActions.value, player.previousDirection, player.animationFrame);
        if canvas.hasContext {
          drawn := [PlayerSprite(player.coordinates, SpriteCol(player.animationFrame),
                                 SpriteRow(player.currentActions.value, player.previousDirection))];
        }
      }
    }
    assert forall other :: other in players ==> players[other] == player || unchanged(players[other]);
  }

  /** One turn of the player loop, with its bookkeeping. */
  method PlayerTurn(playerManager: PlayerManagerService, canvas: Canvas, players: map<PlayerId, Player>,
                    ids: seq<PlayerId>, i: nat, sheetLoads: bool, ghost seen: map<PlayerId, Seen>,
                    ghost available: bool, ghost start: seq<DrawCmd>, ghost lived: seq<PlayerId>, ghost cmds: seq<DrawCmd>)
    returns (ok: bool, ghost lived': seq<PlayerId>, ghost cmds': seq<DrawCmd>)
    requires playerManager.engine.Valid()
    requires i < |ids| && forall id :: id in ids ==> id in players && id in seen
    requires forall id :: id in players ==> id in seen && SeenOf(players[id]) == seen[id]
    requires available <==> PlayerImage in playerManager.engine.cache || sheetLoads
    requires lived != [] ==> PlayerImage in playerManager.engine.cache
    requires canvas.trace == start + cmds
    requires DrawnSoFar(ids, i, seen, available, canvas.hasContext, lived, cmds)
    modifies playerManager.engine, canvas, players[ids[i]]
    ensures playerManager.engine.Valid()
    ensures SheetOnlyAdded(old(playerManager.engine.cache), playerManager.engine.cache)
    ensures forall id :: id in players ==> SeenOf(players[id]) == seen[id]
    ensures canvas.trace == start + cmds'
    ensures ok ==>
      && (available <==> PlayerImage in playerManager.engine.cache || sheetLoads)
      && (lived' != [] ==> PlayerImage in playerManager.engine.cache)
      && DrawnSoFar(ids, i + 1, seen, available, canvas.hasContext, lived', cmds')
    ensures !ok ==> PlayersPass(Painted(cmds', false), ids, seen, available, canvas.hasContext)
  {
    ghost var drawn;
    ok, drawn := DrawIfAlive(playerManager, canvas, players, ids[i], sheetLoads);
    if !ok {
      PassStopped(ids, seen, i, available, canvas.hasContext, lived, cmds);
      return false, lived, cmds;
    }
    DrawnStep(ids, i, seen, available, canvas.hasContext, lived, cmds, drawn);
    lived' := lived + if seen[ids[i]].isAlive then [ids[i]] else [];
    cmds' := cmds + drawn;
  }

  /**
   * The player loop of a render pass: each living player is drawn in turn,
   * awaiting each draw.
   */
  method DrawLivingPlayers(playerManager: PlayerManagerService, canvas: Canvas, players: map<PlayerId, Player>,
                           ids: seq<PlayerId>, sheetLoads: bool)
    returns (ok: bool, ghost cmds: seq<DrawCmd>)
    requires playerManager.engine.Valid()
    requires forall id :: id in ids ==> id in players
    modifies playerManager.engine, canvas, Registry(players)
    ensures playerManager.engine.Valid()
    ensures SheetOnlyAdded(old(playerManager.engine.cache), playerManager.engine.cache)
    ensures forall id :: id in players ==> SeenOf(players[id]) == old(SeenOf(players[id]))
    ensures canvas.trace == old(canvas.trace) + cmds
    ensures PlayersPass(Painted(cmds, ok), ids, old(Snapshot(players)),
                        PlayerImage in old(playerManager.engine.cache) || sheetLoads, canvas.hasContext)
  {
    var engine := playerManager.engine;
    ghost var available := PlayerImage in engine.cache || sheetLoads;
    ghost var seen := Snapshot(players);
    ghost var start := canvas.trace;
    ghost var lived: seq<PlayerId> := [];
    cmds := [];
    for i := 0 to |ids|
      invariant engine.Valid()
      invariant SheetOnlyAdded(old(engine.cache), engine.cache)
      invariant forall id :: id in players ==> SeenOf(players[id]) == seen[id]
      invariant canvas.trace == start + cmds
      invariant available <==> PlayerImage in engine.cache || sheetLoads
      invariant lived != [] ==> PlayerImage in engine.cache
      invariant DrawnSoFar(ids, i, seen, available, canvas.hasContext, lived, cmds)
    {
      ghost var cacheBefore := engine.cache;
      ok, lived, cmds := PlayerTurn(playerManager, canvas, players, ids, i, sheetLoads, seen, available, start, lived, cmds);
      SheetOnlyAddedTransitive(old(engine.cache), cacheBefore, engine.cache);
      if !ok {
        return false, cmds;
      }
    }
    PassCompleted(ids, seen, available, canvas.hasContext, lived, cmds);
    ok := true;
  }

  // ---------------------------------------------------------------------
  // The render pass
  // ---------------------------------------------------------------------

  /**
   * What the parts of a render pass outside the model do: which image loads
   * succeed, and what the collectibles and the bombs-and-explosions stages
   * draw and whether they resolve.
   */
  datatype RenderOracle = RenderOracle(load: string -> bool, collectibles: Painted, bombs: Painted)

  lemma SheetIsNotAMapImage()
    ensures PlayerImage !in MapImages
  {
    assert PlayerImage[7] == 'c';
    assert BreakableImage[7] == 'b' && WalkableImage[7] == 't' && WallImage[7] == 'w';
  }

  /**
   * The part of a pass drawn under the players: the map, then the
   * collectibles, then the bombs and explosions, each awaited before the next.
   */
  method DrawBackground(mapManager: GameMapManagerService, canvas: Canvas, gameMap: GameMap, oracle: RenderOracle)
    returns (ok: bool, ghost stages: seq<Painted>)
    requires mapManager.engine.Valid()
    modifies mapManager.engine, canvas
    ensures mapManager.engine.Valid()
    ensures PlayerImage in mapManager.engine.cache <==> PlayerImage in old(mapManager.engine.cache)
    ensures stages == [MapPass(old(mapManager.engine.cache), gameMap, canvas.hasContext, oracle.load),
                       oracle.collectibles, oracle.bombs]
    ensures canvas.trace == old(canvas.trace) + Layered(stages)
    ensures ok == FirstRejected(stages).None?
  {
    SheetIsNotAMapImage();
    ghost var map_ := MapPass(mapManager.engine.cache, gameMap, canvas.hasContext, oracle.load);
    ghost var cache := mapManager.engine.cache;
    ghost var start := canvas.trace;
    ok := mapManager.DrawMap(canvas, gameMap, oracle.load);
    GrewElsewhereUnchanged(cache, mapManager.engine.cache, {BreakableImage, WalkableImage, WallImage}, oracle.load, PlayerImage);
    ghost var afterMap := canvas.trace;
    if ok {
      ok := mapManager.DrawCollectibles(canvas, oracle.collectibles);
    }
    ghost var afterCollectibles := canvas.trace;
    if ok {
      ok := mapManager.DrawBombsAndExplosions(canvas, oracle.bombs);
    }
    stages := [map_, oracle.collectibles, oracle.bombs];
    ThreeStageTrace(start, afterMap, afterCollectibles, canvas.trace, map_, oracle.collectibles, oracle.bombs);
  }

  /** The trace of three stages run one after the other, each only if the ones before it resolved. */
  lemma ThreeStageTrace(start: seq<DrawCmd>, t1: seq<DrawCmd>, t2: seq<DrawCmd>, t3: seq<DrawCmd>,
                        a: Painted, b: Painted, c: Painted)
    requires t1 == start + a.cmds
    requires t2 == t1 + (if a.ok then b.cmds else [])
    requires t3 == t2 + (if a.ok && b.ok then c.cmds else [])
    ensures t3 == start + Layered([a, b, c])
    ensures FirstRejected([a, b, c]).None? <==> a.ok && b.ok && c.ok
  {
    LayeredThree(a, b, c);
  }

  /** Three stages, unfolded. */
  lemma LayeredThree(a: Painted, b: Painted, c: Painted)
    ensures Layered([a, b, c]) == a.cmds + if !a.ok then [] else b.cmds + if !b.ok then [] else c.cmds
    ensures FirstRejected([a, b, c]).None? <==> a.ok && b.ok && c.ok
  {
    assert [c][1..] == [];
    assert Layered([c]) == c.cmds;
    assert [b, c][1..] == [c];
    assert Layered([b, c]) == b.cmds + if !b.ok then [] else c.cmds;
    assert [a, b, c][1..] == [b, c];
    assert [a, b, c][0] == a && [a, b, c][1] == b && [a, b, c][2] == c;
  }

  /**
   * The four stages of the middle of a pass: the map pass over `cache`, the
   * collectibles and the bombs as the oracle says, and, once those resolved,
   * the players pass over the players as `seen` before the pass.
   */
  ghost predicate SceneStages(stages: seq<Painted>, cache: map<string, Image>, gameMap: GameMap, ids: seq<PlayerId>,
                              seen: map<PlayerId, Seen>, oracle: RenderOracle, hasContext: bool)
  {
    && |stages| == 4
    && stages[0] == MapPass(cache, gameMap, hasContext, oracle.load)
    && stages[1] == oracle.collectibles && stages[2] == oracle.bombs
    && (forall id :: id in ids ==> id in seen)
    && (FirstRejected(stages[..3]).None? ==>
          PlayersPass(stages[3], ids, seen, PlayerImage in cache || oracle.load(PlayerImage), hasContext))
  }

  /** A stage that resolves lets the stages after it draw. */
  lemma LayeredCons(first: Painted, rest: seq<Painted>)
    requires first.ok
    ensures Layered([first] + rest) == first.cmds + Layered(rest)
  {
    assert ([first] + rest)[1..] == rest;
  }

  /** A pass framed by a clear before and an overlay after, both of which always resolve. */
  lemma FramedPass(clear: Painted, scene: seq<Painted>, overlay: Painted)
    requires clear.ok && overlay.ok
    ensures var stages := [clear] + (scene + [overlay]);
      Layered(stages) == clear.cmds + Layered(scene) + (if FirstRejected(scene).None? then overlay.cmds else [])
  {
    var tail := if FirstRejected(scene).None? then overlay.cmds else [];
    calc {
      Layered([clear] + (scene + [overlay]));
      { LayeredCons(clear, scene + [overlay]); }
      clear.cmds + Layered(scene + [overlay]);
      { LayeredAppend(scene, overlay); }
      clear.cmds + (Layered(scene) + tail);
      clear.cmds + Layered(scene) + tail;
    }
  }

  /**
   * The trace of a pass framed by a clear and an overlay, as the layering of
   * its stages.
   */
  lemma FramedTrace(start: seq<DrawCmd>, afterClear: seq<DrawCmd>, middle: seq<DrawCmd>, final: seq<DrawCmd>,
                    clear: seq<DrawCmd>, scene: seq<Painted>, overlay: seq<DrawCmd>, completed: bool)
    returns (stages: seq<Painted>)
    requires afterClear == start + clear && middle == afterClear + Layered(scene)
    requires completed == FirstRejected(scene).None?
    requires final == middle + if completed then overlay else []
    ensures stages == [Painted(clear, true)] + scene + [Painted(overlay, true)]
    ensures stages[1..|scene| + 1] == scene
    ensures final == start + Layered(stages)
    ensures completed == FirstRejected(stages).None?
  {
    var rest := scene + [Painted(overlay, true)];
    stages := [Painted(clear, true)] + rest;
    assert stages == [Painted(clear, true)] + scene + [Painted(overlay, true)];
    FramedPass(Painted(clear, true), scene, Painted(overlay, true));
    FirstRejectedShift(Painted(clear, true), rest);
    FirstRejectedAppend(scene, Painted(overlay, true));
    assert stages[1..|scene| + 1] == scene;
  }

  lemma FirstRejectedShift(first: Painted, rest: seq<Painted>)
    requires first.ok
    ensures FirstRejected([first] + rest).None? <==> FirstRejected(rest).None?
  {
    assert ([first] + rest)[1..] == rest;
  }

  lemma FirstRejectedAppend(stages: seq<Painted>, last: Painted)
    requires last.ok
    ensures FirstRejected(stages + [last]).None? <==> FirstRejected(stages).None?
  {
    var all := stages + [last];
    if FirstRejected(stages).None? {
      forall j | 0 <= j < |all|
        ensures all[j].ok
      {
        if j < |stages| {
          assert all[j] == stages[j];
        }
      }
    } else {
      var k := FirstRejected(stages).value;
      assert all[k] == stages[k];
    }
  }

  /**
   * The awaited middle of a render pass, shared by the game screen and the
   * game view: the background, then the living players.
   */
  method DrawScene(mapManager: GameMapManagerService, playerManager: PlayerManagerService, canvas: Canvas,
                   state: GameStateOf<Player>, ids: seq<PlayerId>, oracle: RenderOracle)
    returns (ok: bool, ghost stages: seq<Painted>)
    requires mapManager.engine == playerManager.engine && playerManager.engine.Valid()
    requires forall id :: id in ids ==> id in state.players
    modifies playerManager.engine, canvas, Registry(state.players)
    ensures playerManager.engine.Valid()
    ensures SceneStages(stages, old(playerManager.engine.cache), state.gameMap, ids, old(Snapshot(state.players)),
                        oracle, canvas.hasContext)
    ensures canvas.trace == old(canvas.trace) + Layered(stages)
    ensures ok == FirstRejected(stages).None?
  {
    ghost var seen := Snapshot(state.players);
    ghost var start := canvas.trace;
    ghost var background;
    ok, background := DrawBackground(mapManager, canvas, state.gameMap, oracle);
    ghost var middle := canvas.trace;
    ghost var players := Painted([], true);
    if ok {
      assert Snapshot(state.players) == seen;
      ghost var playerCmds;
      ok, playerCmds := DrawLivingPlayers(playerManager, canvas, state.players, ids, oracle.load(PlayerImage));
      players := Painted(playerCmds, ok);
    }
    stages := SceneFromParts(background, players, old(playerManager.engine.cache), state.gameMap, ids, seen,
                             oracle, canvas.hasContext, start, middle, canvas.trace);
  }

  /** The four stages of the scene, from the background's three and the players'. */
  lemma SceneFromParts(background: seq<Painted>, players: Painted, cache: map<string, Image>, gameMap: GameMap,
                       ids: seq<PlayerId>, seen: map<PlayerId, Seen>, oracle: RenderOracle, hasContext: bool,
                       start: seq<DrawCmd>, middle: seq<DrawCmd>, final: seq<DrawCmd>)
    returns (stages: seq<Painted>)
    requires background == [MapPass(cache, gameMap, hasContext, oracle.load), oracle.collectibles, oracle.bombs]
    requires forall id :: id in ids ==> id in seen
    requires FirstRejected(background).None? ==>
      PlayersPass(players, ids, seen, PlayerImage in cache || oracle.load(PlayerImage), hasContext)
    requires middle == start + Layered(background)
    requires final == middle + if FirstRejected(background).None? then players.cmds else []
    ensures stages == background + [players]
    ensures SceneStages(stages, cache, gameMap, ids, seen, oracle, hasContext)
    ensures final == start + Layered(stages)
    ensures FirstRejected(stages).None? <==> FirstRejected(background).None? && players.ok
  {
    stages := background + [players];
    assert stages[..3] == background;
    LayeredAppend(background, players);
    assert forall j :: 0 <= j < 3 ==> stages[j] == background[j];
  }

  class GameScreenComponent {
    const canvas: Canvas
    const engine: GameEngineService
    const mapManager: GameMapManagerService
    const playerManager: PlayerManagerService

    /** Both renderers draw through the one engine service, and so share its cache. */
    predicate Wired() {
      mapManager.engine == engine && playerManager.engine == engine
    }

    constructor (canvas: Canvas, mapManager: GameMapManagerService, playerManager: PlayerManagerService)
      requires mapManager.engine == playerManager.engine
      ensures Wired() && this.canvas == canvas
      ensures this.mapManager == mapManager && this.playerManager == playerManager
    {
      this.canvas := canvas;
      this.engine := mapManager.engine;
      this.mapManager := mapManager;
      this.playerManager := playerManager;
    }

    /** `clearCanvas`: wipes the canvas when there is a context. */
    method ClearCanvas()
      modifies canvas
      ensures canvas.trace == old(canvas.trace) + ClearCmds(canvas.hasContext)
    {
      if canvas.hasContext {
        canvas.Issue([DrawCmd.ClearCanvas]);
      }
    }

    /** `drawWinnerScreen`: dims the frame and announces the winner. */
    method DrawWinnerScreen(id: PlayerId)
      modifies canvas
      ensures canvas.trace == old(canvas.trace) + if canvas.hasContext then WinnerScreen(id) else []
    {
      if canvas.hasContext {
        canvas.Issue([SetGlobalAlpha(Dimmed)]);
        canvas.Issue([SetFillStyle("black")]);
        canvas.Issue([FillCanvas]);
        canvas.Issue([SetGlobalAlpha(Opaque)]);
        canvas.Issue([SetFont(OverlayFont)]);
        canvas.Issue([SetFillStyle("white")]);
        canvas.Issue([SetTextAlign("center")]);
        canvas.Issue([FillText(WinnerText(id), CanvasCenter, 150, true)]);
      }
    }

    /** `drawNoWinnerScreen`: dims the frame and announces a draw on two lines. */
    method DrawNoWinnerScreen()
      modifies canvas
      ensures canvas.trace == old(canvas.trace) + if canvas.hasContext then NoWinnerScreen() else []
    {
      if canvas.hasContext {
        canvas.Issue([SetGlobalAlpha(Dimmed)]);
        canvas.Issue([SetFillStyle("black")]);
        canvas.Issue([FillCanvas]);
        canvas.Issue([SetGlobalAlpha(Opaque)]);
        canvas.Issue([SetFont(OverlayFont)]);
        canvas.Issue([SetFillStyle("white")]);
        canvas.Issue([SetTextAlign("center")]);
        canvas.Issue([FillText(DrawText1, CanvasCenter, 150, true)]);
        canvas.Issue([FillText(DrawText2, CanvasCenter, 200, true)]);
      }
    }

    /** The end of a pass: the result screen once the game is over. */
    method DrawOverlay(state: GameStateOf<Player>)
      modifies canvas
      ensures canvas.trace == old(canvas.trace) + Overlay(state, canvas.hasContext)
    {
      if state.isOver {
        if IsTruthy(state.winner) {
          DrawWinnerScreen(state.winner.value);
        } else {
          DrawNoWinnerScreen();
        }
      }
    }

    /**
     * `draw`: one render pass over `state`, whose player keys enumerate in
     * the order `ids`. `completed` says whether the pass resolved.
     */
    method Draw(state: GameStateOf<Player>, ids: seq<PlayerId>, oracle: RenderOracle)
      returns (completed: bool, ghost stages: seq<Painted>)
      requires Wired() && engine.Valid() && IsKeyOrder(ids, state.players.Keys)
      modifies canvas, engine, Registry(state.players)
      ensures engine.Valid()
      ensures |stages| == 6
      ensures stages[0] == Painted(ClearCmds(canvas.hasContext), true)
      ensures SceneStages(stages[1..5], old(engine.cache), state.gameMap, ids, old(Snapshot(state.players)),
                          oracle, canvas.hasContext)
      ensures stages[5] == Painted(Overlay(state, canvas.hasContext), true)
      ensures canvas.trace == old(canvas.trace) + Layered(stages)
      ensures completed == FirstRejected(stages).None?
    {
      ghost var seen := Snapshot(state.players);
      ghost var start := canvas.trace;
      ClearCanvas();
      assert Snapshot(state.players) == seen;
      ghost var afterClear := canvas.trace;
      ghost var scene;
      completed, scene := DrawScene(mapManager, playerManager, canvas, state, ids, oracle);
      ghost var middle := canvas.trace;
      if completed {
        DrawOverlay(state);
      }
      stages := FramedTrace(start, afterClear, middle, canvas.trace, ClearCmds(canvas.hasContext), scene,
                            Overlay(state, canvas.hasContext), completed);
    }

    /**
     * The `state` input: a missing state only clears the canvas; a present
     * one starts a render pass.
     */
    method SetState(state: Option<GameStateOf<Player>>, ids: seq<PlayerId>, oracle: RenderOracle)
      returns (completed: bool, ghost stages: seq<Painted>)
      requires Wired() && engine.Valid()
      requires state.Some? ==> IsKeyOrder(ids, state.value.players.Keys)
      modifies canvas, engine, if state.Some? then Registry(state.value.players) else {}
      ensures engine.Valid()
      ensures state.None? ==> canvas.trace == old(canvas.trace) + ClearCmds(canvas.hasContext) && completed
      ensures state.None? ==> engine.cache == old(engine.cache)
      ensures state.Some? ==>
        && |stages| == 6
        && stages[0] == Painted(ClearCmds(canvas.hasContext), true)
        && SceneStages(stages[1..5], old(engine.cache), state.value.gameMap, ids, old(Snapshot(state.value.players)),
                       oracle, canvas.hasContext)
        && stages[5] == Painted(Overlay(state.value, canvas.hasContext), true)
        && canvas.trace == old(canvas.trace) + Layered(stages)
        && completed == FirstRejected(stages).None?
    {
      if state.Some? {
        completed, stages := Draw(state.value, ids, oracle);
      } else {
        ClearCanvas();
        completed, stages := true, [];
      }
    }
  }

  /** A final stage that always resolves adds its commands only if every stage before it resolved. */
  lemma {:induction false} LayeredAppend(stages: seq<Painted>, last: Painted)
    ensures Layered(stages + [last]) == Layered(stages) + if FirstRejected(stages).None? then last.cmds else []
  {
    if stages == [] {
      assert [last][1..] == [];
    } else {
      assert (stages + [last])[0] == stages[0];
      assert (stages + [last])[1..] == stages[1..] + [last];
      LayeredAppend(stages[1..], last);
    }
  }
}
