/**
 * The client-owned player record. Its identity is what the reconciler keeps
 * across snapshots, so it is a class; the registry holds references to it.
 */
module Players {

  import opened Wrappers
  import opened Models

  class Player {
    var previousActions: Option<PlayerAction>
    var playerId: PlayerId
    var currentActions: Option<PlayerAction>

    // Members the callers use that the record's own declaration leaves out.
    var animationFrame: nat
    var previousDirection: Option<Direction>
    var isAlive: bool
    var coordinates: Point

    /**
     * `new Player(info)`: only the id is copied; the action fields stay
     * undefined, as do the liveness flag (read as false by every caller) and
     * the facing direction. The frame counter and the coordinates are left
     * unspecified.
     */
    constructor (info: PlayerInfo)
      ensures playerId == info.playerId
      ensures currentActions == None && previousActions == None
      ensures previousDirection == None && !isAlive
    {
      playerId := info.playerId;
      previousActions := None;
      currentActions := None;
      previousDirection := None;
      isAlive := false;
    }

    /** The held vector becomes the previous one and `a` the current one. */
    method ChangeActions(a: PlayerAction)
      modifies this
      ensures currentActions == Some(a)
      ensures previousActions == old(currentActions)
      ensures playerId == old(playerId) && isAlive == old(isAlive)
      ensures coordinates == old(coordinates)
      ensures animationFrame == old(animationFrame)
      ensures previousDirection == old(previousDirection)
    {
      previousActions := currentActions;
      currentActions := Some(a);
    }

    /**
     * Copies a fresh server view into this record. Its body is not part of
     * the model: it may change any field of this object, and nothing else.
     */
    method ChangeState(info: PlayerInfo)
      modifies this
    {
      previousActions, playerId, currentActions := *, *, *;
      animationFrame, previousDirection, isAlive, coordinates := *, *, *, *;
    }

    /**
     * Advances the animation. Its body is not part of the model: it may change
     * the animation frame and the facing direction, and nothing else.
     */
    method Animate()
      modifies this
      ensures playerId == old(playerId) && isAlive == old(isAlive)
      ensures coordinates == old(coordinates)
      ensures currentActions == old(currentActions)
      ensures previousActions == old(previousActions)
    {
      animationFrame, previousDirection := *, *;
    }
  }

  /** Two successive action changes: the first vector is now the previous one. */
  method ChangeActionsTwice(p: Player, a: PlayerAction, b: PlayerAction)
    modifies p
    ensures p.previousActions == Some(a) && p.currentActions == Some(b)
    ensures p.playerId == old(p.playerId)
  {
    p.ChangeActions(a);
    p.ChangeActions(b);
  }
}
