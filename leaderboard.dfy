/**
 * The leaderboard page: it connects to the leaderboard port of the server
 * named in its route, shows the statistics the leaderboard room publishes,
 * and lists a connection error at most once.
 */
module Leaderboard {

  import opened Wrappers
  import opened Js
  import opened Models

  const LeaderboardPort: string := ":3500"
  const ConnectionErrorPrefix: string := "Unable to connect to server with url "

  /** `s.split(":")[0]`: everything before the first colon. */
  function BeforeFirstColon(s: string): (host: string)
    ensures ':' !in host
    ensures |host| <= |s| && host == s[..|host|]
    ensures |host| < |s| ==> s[|host|] == ':'
    ensures ':' !in s ==> host == s
  {
    s[..IndexOf(s, ':')]
  }

  /** The route parameter with its port (and anything after it) replaced by the leaderboard port. */
  function RewriteServerUrl(param: string): (url: string)
    ensures url == BeforeFirstColon(param) + LeaderboardPort
    ensures Count(url, ':') == 1
  {
    var host := BeforeFirstColon(param);
    CountZero(host, ':');
    CountAppend(host, LeaderboardPort, ':');
    assert LeaderboardPort == [':'] + "3500";
    CountAppend([':'], "3500", ':');
    CountZero("3500", ':');
    host + LeaderboardPort
  }

  /** A url without a port gets the leaderboard port appended; any port is replaced. */
  lemma RewriteServerUrlCases(host: string, rest: string)
    requires ':' !in host
    ensures RewriteServerUrl(host) == host + LeaderboardPort
    ensures RewriteServerUrl(host + [':'] + rest) == host + LeaderboardPort
  {
    var s := host + [':'] + rest;
    var i := IndexOf(s, ':');
    assert s[..|host|] == host && s[|host|] == ':';
    assert forall k :: 0 <= k < i ==> s[k] in s[..i];
    assert forall k :: 0 <= k < |host| ==> s[k] in host;
    assert i == |host|;
  }

  /** Rewriting a rewritten url changes nothing. */
  lemma RewriteServerUrlIdempotent(param: string)
    ensures RewriteServerUrl(RewriteServerUrl(param)) == RewriteServerUrl(param)
  {
    var host := BeforeFirstColon(param);
    assert RewriteServerUrl(param) == host + [':'] + "3500";
    RewriteServerUrlCases(host, "3500");
  }

  class LeaderboardComponent {
    var serverUrl: string
    /** The url the client connects to. */
    var clientUrl: string
    var errors: seq<string>
    var stats: Option<BombermanStats>

    constructor ()
      ensures serverUrl == "" && clientUrl == "" && errors == [] && stats == None
    {
      serverUrl, clientUrl, errors, stats := "", "", [], None;
    }

    /** The connection error appears at most once. */
    ghost predicate Valid()
      reads this
    {
      Count(errors, ConnectionErrorPrefix + serverUrl) <= 1
    }

    /** `ngOnInit` with the route parameter `param`: the server url is rewritten and the client connects to it. */
    method OnInit(param: string)
      modifies this
      ensures serverUrl == RewriteServerUrl(param) && clientUrl == "ws:" + serverUrl
      ensures errors == old(errors) && stats == old(stats)
    {
      serverUrl := RewriteServerUrl(param);
      clientUrl := "ws:" + serverUrl;
    }

    /** The room's join signal clears the errors. */
    method OnJoin()
      modifies this
      ensures errors == [] && Valid()
      ensures serverUrl == old(serverUrl) && clientUrl == old(clientUrl) && stats == old(stats)
    {
      errors := [];
    }

    /** A state change of the room replaces the statistics shown. */
    method OnStateChange(state: BombermanStats)
      modifies this
      ensures stats == Some(state)
      ensures serverUrl == old(serverUrl) && clientUrl == old(clientUrl) && errors == old(errors)
    {
      stats := Some(state);
    }

    /** The client's error signal: the connection error is listed unless it already is. */
    method OnClientError()
      requires Valid()
      modifies this
      ensures Valid()
      ensures errors == PushIfAbsent(old(errors), ConnectionErrorPrefix + serverUrl)
      ensures serverUrl == old(serverUrl) && clientUrl == old(clientUrl) && stats == old(stats)
    {
      var message := ConnectionErrorPrefix + serverUrl;
      if message !in errors {
        ghost var pushed := PushIfAbsent(errors, message);
        errors := errors + [message];
      }
    }
  }
}
