/**
 * The service that remembers which game server the user picked and builds
 * the two client routes under it. Setting the url stores it at once; the
 * change notification is sent later, from a timer, and carries the url
 * stored when the timer fires.
 */
module ServerUrl {

  const GameSuffix: string := "/game"
  const LeaderboardSuffix: string := "/leaderboard"

  /** The game route of a server. */
  function GameRoute(url: string): (route: string)
    ensures |route| == |url| + 6 && route[0] == '/'
    ensures route[1..|url| + 1] == url && route[|url| + 1..] == GameSuffix
  {
    "/" + url + GameSuffix
  }

  /** The leaderboard route of a server. */
  function LeaderboardRoute(url: string): (route: string)
    ensures |route| == |url| + 13 && route[0] == '/'
    ensures route[1..|url| + 1] == url && route[|url| + 1..] == LeaderboardSuffix
  {
    "/" + url + LeaderboardSuffix
  }

  /** The server a game route names, if `route` is one. */
  function ServerOfGameRoute(route: string): (url: string)
    requires |route| >= 6
  {
    route[1..|route| - 5]
  }

  /** A game route names the server it was built from. */
  lemma GameRouteRoundTrip(url: string)
    ensures ServerOfGameRoute(GameRoute(url)) == url
  {
  }

  /** Distinct servers have distinct routes, and no game route is a leaderboard route. */
  lemma RoutesDistinct(u: string, v: string)
    ensures GameRoute(u) == GameRoute(v) ==> u == v
    ensures LeaderboardRoute(u) == LeaderboardRoute(v) ==> u == v
    ensures GameRoute(u) != LeaderboardRoute(v)
  {
    var g, l := GameRoute(u), LeaderboardRoute(v);
    assert g[|g| - 1] == GameSuffix[4] == 'e';
    assert l[|l| - 1] == LeaderboardSuffix[11] == 'd';
    if GameRoute(u) == GameRoute(v) {
      assert u == GameRoute(u)[1..|u| + 1];
    }
    if LeaderboardRoute(u) == LeaderboardRoute(v) {
      assert u == LeaderboardRoute(u)[1..|u| + 1];
    }
  }

  class ServerUrlService {
    var serverUrl: string
    /** Change notifications scheduled and not yet sent. */
    var scheduled: nat
    /** The urls the change notifications carried, in order. */
    var notified: seq<string>

    constructor ()
      ensures serverUrl == "" && scheduled == 0 && notified == []
    {
      serverUrl, scheduled, notified := "", 0, [];
    }

    /** The `url` getter. */
    function Url(): string
      reads this
    {
      serverUrl
    }

    /** The `url` setter: stores `url` and schedules one notification. */
    method SetUrl(url: string)
      modifies this
      ensures Url() == url
      ensures scheduled == old(scheduled) + 1 && notified == old(notified)
    {
      serverUrl := url;
      scheduled := scheduled + 1;
    }

    /** A scheduled notification's timer fires: it sends the url stored now. */
    method FireNotification()
      requires scheduled > 0
      modifies this
      ensures notified == old(notified) + [serverUrl]
      ensures scheduled == old(scheduled) - 1 && serverUrl == old(serverUrl)
    {
      notified := notified + [serverUrl];
      scheduled := scheduled - 1;
    }

    /** `getGameUrl`. */
    function GameUrl(): (route: string)
      reads this
      ensures |route| == |Url()| + 6 && route[0] == '/'
      ensures route[1..|Url()| + 1] == Url() && route[|Url()| + 1..] == GameSuffix
      ensures ServerOfGameRoute(route) == Url()
      ensures route != LeaderboardUrl()
    {
      GameRouteRoundTrip(serverUrl);
      RoutesDistinct(serverUrl, serverUrl);
      GameRoute(serverUrl)
    }

    /** `getLeaderboardUrl`. */
    function LeaderboardUrl(): (route: string)
      reads this
      ensures |route| == |Url()| + 13 && route[0] == '/'
      ensures route[1..|Url()| + 1] == Url() && route[|Url()| + 1..] == LeaderboardSuffix
    {
      LeaderboardRoute(serverUrl)
    }
  }
}
