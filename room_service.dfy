/**
 * The room list: every game of every server the load balancer reports,
 * flattened into one list, servers in the order their urls are listed and
 * each server's games in their own order.
 */
module RoomService {

  import opened Js
  import opened Models
  import opened Rx
  import opened ServerManager

  /** `Object.values(servers)` in the key order `urls`. */
  function ServerValues(servers: map<string, ServerInfo>, urls: seq<string>): (values: seq<ServerInfo>)
    requires forall i :: 0 <= i < |urls| ==> urls[i] in servers
    ensures |values| == |urls|
    ensures forall i :: 0 <= i < |urls| ==> values[i] == servers[urls[i]]
  {
    seq(|urls|, i requires 0 <= i < |urls| => servers[urls[i]])
  }

  /** `servers.map(s => s.games).reduce((acc, cur) => [...acc, ...cur], [])`. */
  function Rooms(servers: seq<ServerInfo>): seq<GameInfo> {
    if servers == [] then [] else Rooms(servers[..|servers| - 1]) + servers[|servers| - 1].games
  }

  /** The number of games the servers report, added up. */
  function TotalGames(servers: seq<ServerInfo>): nat {
    if servers == [] then 0 else |servers[0].games| + TotalGames(servers[1..])
  }

  /** No server, no room. */
  lemma RoomsOfNoServer()
    ensures Rooms([]) == []
  {
  }

  /** Flattening distributes over the concatenation of server lists. */
  lemma {:induction false} RoomsAppend(a: seq<ServerInfo>, b: seq<ServerInfo>)
    ensures Rooms(a + b) == Rooms(a) + Rooms(b)
    decreases |b|
  {
    if b == [] {
      assert a + b == a;
    } else {
      var b' := b[..|b| - 1];
      assert (a + b)[..|a + b| - 1] == a + b';
      RoomsAppend(a, b');
    }
  }

  /** The room list has as many entries as the servers have games. */
  lemma {:induction false} RoomsLength(servers: seq<ServerInfo>)
    ensures |Rooms(servers)| == TotalGames(servers)
  {
    if servers != [] {
      RoomsLength(servers[1..]);
      RoomsAppend([servers[0]], servers[1..]);
      assert [servers[0]] + servers[1..] == servers;
      assert [servers[0]][..0] == [];
    }
  }

  /** A single server's rooms are its games. */
  lemma RoomsOfOne(server: ServerInfo)
    ensures Rooms([server]) == server.games
  {
    assert [server][..0] == [];
  }

  /**
   * Order: game `j` of server `i` sits right after the games of the servers
   * before `i`, unmodified.
   */
  lemma {:induction false} RoomsPosition(servers: seq<ServerInfo>, i: nat, j: nat)
    requires i < |servers| && j < |servers[i].games|
    ensures TotalGames(servers[..i]) + j < |Rooms(servers)|
    ensures Rooms(servers)[TotalGames(servers[..i]) + j] == servers[i].games[j]
  {
    var before, after := servers[..i], servers[i + 1..];
    assert servers == before + ([servers[i]] + after);
    RoomsAppend(before, [servers[i]] + after);
    RoomsAppend([servers[i]], after);
    RoomsOfOne(servers[i]);
    RoomsLength(before);
  }

  /** A game is in the room list exactly when some server reports it. */
  lemma {:induction false} RoomsMembership(servers: seq<ServerInfo>, g: GameInfo)
    ensures g in Rooms(servers) <==> exists i :: 0 <= i < |servers| && g in servers[i].games
  {
    if servers != [] {
      var front := servers[..|servers| - 1];
      RoomsMembership(front, g);
      if exists i :: 0 <= i < |front| && g in front[i].games {
        var i :| 0 <= i < |front| && g in front[i].games;
        assert servers[i] == front[i];
      }
      if exists i :: 0 <= i < |servers| && g in servers[i].games {
        var i :| 0 <= i < |servers| && g in servers[i].games;
        if i < |front| {
          assert front[i] == servers[i];
        }
      }
    }
  }

  /** A game is listed exactly when one of the published servers reports it. */
  lemma PublishedRooms(servers: map<string, ServerInfo>, urls: seq<string>, g: GameInfo)
    requires IsKeyOrder(urls, servers.Keys)
    ensures g in Rooms(ServerValues(servers, urls)) <==> exists u :: u in servers && g in servers[u].games
  {
    var values := ServerValues(servers, urls);
    RoomsMembership(values, g);
    if exists u :: u in servers && g in servers[u].games {
      var u :| u in servers && g in servers[u].games;
      var i :| 0 <= i < |urls| && urls[i] == u;
      assert g in values[i].games;
    }
  }

  class RoomService {
    const serverManager: ServerManagerService
    var rooms: seq<GameInfo>

    /**
     * Subscribing to the server list publishes at once the rooms of its
     * current value, whose urls are listed in `urls`.
     */
    constructor (serverManager: ServerManagerService, urls: seq<string>)
      requires IsKeyOrder(urls, serverManager.servers.value.Keys)
      ensures this.serverManager == serverManager
      ensures rooms == Rooms(ServerValues(serverManager.servers.value, urls))
    {
      this.serverManager := serverManager;
      rooms := Rooms(ServerValues(serverManager.servers.value, urls));
    }

    /** The `errors` getter: the server manager's own errors subject, not a copy. */
    function Errors(): (subject: Subject<seq<string>>)
      reads this
      ensures subject == serverManager.errors
    {
      serverManager.errors
    }

    /**
     * The server-list subscription: the published servers, listed in the key
     * order `urls`, are flattened into the room list, which then holds
     * exactly the games some published server reports.
     */
    method OnServersPublished(urls: seq<string>)
      requires IsKeyOrder(urls, serverManager.servers.value.Keys)
      modifies this
      ensures rooms == Rooms(ServerValues(serverManager.servers.value, urls))
      ensures forall g :: g in rooms <==> exists u :: u in serverManager.servers.value && g in serverManager.servers.value[u].games
    {
      var servers := serverManager.servers.value;
      rooms := Rooms(ServerValues(servers, urls));
      forall g
        ensures g in rooms <==> exists u :: u in servers && g in servers[u].games
      {
        PublishedRooms(servers, urls, g);
      }
    }
  }
}
