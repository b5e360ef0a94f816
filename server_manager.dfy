/**
 * The load-balancer client: it publishes the game servers the load balancer
 * reports, each game tagged with the url of the server hosting it, and a
 * list of connection errors in which its own message appears at most once.
 */
module ServerManager {

  import opened Js
  import opened Models
  import opened Rx

  const LoadBalancerErrorPrefix: string := "Unable to communicate with load balancer located at "

  /** The games of one server, each tagged with that server's url. */
  function TagGames(games: seq<GameInfo>, url: string): (tagged: seq<GameInfo>)
    ensures |tagged| == |games|
    ensures forall i :: 0 <= i < |games| ==>
      && tagged[i].serverUrl == url
      && tagged[i].id == games[i].id
      && tagged[i].players == games[i].players
      && tagged[i].viewers == games[i].viewers
  {
    seq(|games|, i requires 0 <= i < |games| => games[i].(serverUrl := url))
  }

  /** A server entry with its games tagged with `url`. */
  function Tagged(server: ServerInfo, url: string): (tagged: ServerInfo)
    ensures tagged.url == server.url && tagged.playerCount == server.playerCount
    ensures tagged.gameCount == server.gameCount && tagged.viewerCount == server.viewerCount
    ensures tagged.games == TagGames(server.games, url)
  {
    server.(games := TagGames(server.games, url))
  }

  /** Tagging twice with the same url is tagging once. */
  lemma TaggedIdempotent(server: ServerInfo, url: string)
    ensures Tagged(Tagged(server, url), url) == Tagged(server, url)
  {
    var once := Tagged(server, url);
    var twice := Tagged(once, url);
    assert twice.games == once.games by {
      forall i | 0 <= i < |once.games|
        ensures twice.games[i] == once.games[i]
      {
      }
    }
  }

  /** Games that already carry `url` are left as they are. */
  lemma TagGamesKeepsTagged(games: seq<GameInfo>, url: string)
    requires forall i :: 0 <= i < |games| ==> games[i].serverUrl == url
    ensures TagGames(games, url) == games
  {
    var tagged := TagGames(games, url);
    forall i | 0 <= i < |games|
      ensures tagged[i] == games[i]
    {
    }
  }

  class ServerManagerService {
    const loadBalancerUrl: string
    const servers: Subject<map<string, ServerInfo>>
    const errors: Subject<seq<string>>
    /** The room's join signal was handled (it is listened to once). */
    var joinHandled: bool
    /** A state-change listener is registered. */
    var listening: bool

    /** The load-balancer error appears at most once. */
    ghost predicate Valid()
      reads this, errors
    {
      Count(errors.value, LoadBalancerErrorPrefix + loadBalancerUrl) <= 1
    }

    constructor (loadBalancerUrl: string)
      ensures this.loadBalancerUrl == loadBalancerUrl && Valid()
      ensures fresh(servers) && fresh(errors) && servers.value == map[] && errors.value == []
      ensures !joinHandled && !listening
    {
      this.loadBalancerUrl := loadBalancerUrl;
      servers := new Subject(map[]);
      errors := new Subject([]);
      joinHandled, listening := false, false;
    }

    /**
     * The load-balancer room's first join signal: the errors are cleared and
     * state changes are listened to if the room reports it has joined.
     * Later join signals are not listened to.
     */
    method OnJoin(roomHasJoined: bool)
      requires Valid()
      modifies this, errors
      ensures Valid() && joinHandled
      ensures !old(joinHandled) ==> errors.value == [] && listening == (old(listening) || roomHasJoined)
      ensures old(joinHandled) ==> errors.value == old(errors.value) && listening == old(listening)
    {
      if !joinHandled {
        joinHandled := true;
        errors.Next([]);
        if roomHasJoined {
          listening := true;
        }
      }
    }

    /**
     * A state change of the load-balancer room, reporting `state` with its
     * urls listed in `urls`: if listened to, every server's games are tagged
     * with that server's url and the result is published.
     */
    method OnStateChange(state: map<string, ServerInfo>, urls: seq<string>)
      requires IsKeyOrder(urls, state.Keys)
      modifies servers
      ensures !listening ==> servers.value == old(servers.value)
      ensures listening ==> servers.value.Keys == state.Keys
      ensures listening ==> forall u :: u in state ==> servers.value[u] == Tagged(state[u], u)
    {
      if listening {
        var copy := state;
        for i := 0 to |urls|
          invariant copy.Keys == state.Keys
          invariant forall u :: u in state ==> copy[u] == if u in urls[..i] then Tagged(state[u], u) else state[u]
        {
          var url := urls[i];
          assert url !in urls[..i];
          assert urls[..i + 1] == urls[..i] + [url];
          copy := copy[url := Tagged(copy[url], url)];
        }
        assert urls[..|urls|] == urls;
        servers.Next(copy);
      }
    }

    /** The client's error signal: the load-balancer error is listed unless it already is. */
    method OnClientError()
      requires Valid()
      modifies errors
      ensures Valid()
      ensures errors.value == PushIfAbsent(old(errors.value), LoadBalancerErrorPrefix + loadBalancerUrl)
    {
      var message := LoadBalancerErrorPrefix + loadBalancerUrl;
      if message !in errors.value {
        ghost var pushed := PushIfAbsent(errors.value, message);
        errors.Next(errors.value + [message]);
      }
    }
  }
}
