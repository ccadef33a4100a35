/**
 * One pass of the daemon's main loop (main.go:247-305): the wait for running
 * checks before a configuration reload, and the selection of what to start.
 * Starting a goroutine becomes an action in the returned list; the sleep between
 * passes and the reload itself are left to the caller.
 */
module Scheduler {
  import opened Wrappers
  import opened Text
  import opened Config
  import opened Storage
  import opened ServerCheckDb
  import opened Alerting

  /** What one pass does for one target. */
  datatype TickAction =
    | NotConnected(server: ServerConfig)  // synchronous `SendAlerts` with a result that has no check
    | LaunchServer(server: ServerConfig)  // `go runServerChecks(server)`
    | LaunchWebsite(website: WebsiteConfig)  // `go runWebsiteChecks(website)`

  /** The alert sent for an enabled server without a session (main.go:282-285). */
  function NotConnectedRequest(): AlertRequest {
    AlertRequest("Server not connected", "Server not connected, cannot run checks")
  }

  /**
   * The not-connected alert is an ordinary `SendAlerts` call on a result with no
   * check, so it is judged and recorded under the id `<server>:-`. When the
   * results query for that id answers with no rows, nothing predates the window
   * and the alert does not go ahead. (The query can answer with rows: a check
   * named `-` stores results under that id, and the backend's token match also
   * returns results of other ids sharing a token with it.)
   */
  lemma NotConnectedAlert(result: ServerCheck, cfg: AlertConfig, table: SeverityTable, now: int,
                          sq: TargetQueries, wq: TargetQueries)
    requires result.server != null && result.check.None?
    ensures var req := NotConnectedRequest();
            var effects := Dispatch(result, null, req.subject, req.message, cfg, table, now, sq, wq);
            effects != [] ==> effects[|effects| - 1] == SaveAlert(AlertRecord(ReplaceSpaces(result.server.name) + ":-", now))
    ensures sq.results == Success([]) ==>
              Dispatch(result, null, NotConnectedRequest().subject, NotConnectedRequest().message, cfg, table, now, sq, wq) == []
  {
    assert ReplaceSpaces("-") == "-";
  }

  /** What the pass does for one server. */
  function ServerAction(server: ServerConfig): seq<TickAction>
    reads server
  {
    if !server.enabled then []
    else if server.session == null then [NotConnected(server)]
    else if !server.inProgress then [LaunchServer(server)]
    else []
  }

  /** What the pass does for one website. */
  function WebsiteAction(website: WebsiteConfig): seq<TickAction>
    reads website
  {
    if website.enabled && !website.inProgress then [LaunchWebsite(website)] else []
  }

  /** The actions for the servers, in configuration order. */
  function ServerActions(servers: seq<ServerConfig>): seq<TickAction>
    reads set i | 0 <= i < |servers| :: servers[i]
    decreases |servers|
  {
    if servers == [] then []
    else ServerActions(servers[..|servers| - 1]) + ServerAction(servers[|servers| - 1])
  }

  /** The actions for the websites, in configuration order. */
  function WebsiteActions(websites: seq<WebsiteConfig>): seq<TickAction>
    reads set i | 0 <= i < |websites| :: websites[i]
    decreases |websites|
  {
    if websites == [] then []
    else WebsiteActions(websites[..|websites| - 1]) + WebsiteAction(websites[|websites| - 1])
  }

  /** The two loops of main.go:275-303. */
  method SelectTick(servers: seq<ServerConfig>, websites: seq<WebsiteConfig>) returns (actions: seq<TickAction>)
    ensures actions == ServerActions(servers) + WebsiteActions(websites)
  {
    actions := [];
    for i := 0 to |servers|
      invariant actions == ServerActions(servers[..i])
    {
      assert servers[..i + 1][..i] == servers[..i];
      var server := servers[i];
      if !server.enabled {
        continue;
      }
      if server.session == null {
        actions := actions + [NotConnected(server)];
        continue;
      }
      if !server.inProgress {
        actions := actions + [LaunchServer(server)];
      }
    }
    assert servers[..|servers|] == servers;
    ghost var fromServers := actions;
    for i := 0 to |websites|
      invariant actions == fromServers + WebsiteActions(websites[..i])
    {
      assert websites[..i + 1][..i] == websites[..i];
      var website := websites[i];
      if !website.enabled {
        continue;
      }
      if !website.inProgress {
        actions := actions + [LaunchWebsite(website)];
      }
    }
    assert websites[..|websites|] == websites;
  }

  /**
   * A server is started exactly when it is listed, enabled, connected and not
   * already running; a server is reported as not connected exactly when it is
   * listed, enabled and has no session. So a pass never starts a server whose
   * checks are marked as running.
   */
  lemma {:induction false} ServerActionsIff(servers: seq<ServerConfig>, s: ServerConfig)
    ensures LaunchServer(s) in ServerActions(servers) <==>
              s in servers && s.enabled && s.session != null && !s.inProgress
    ensures NotConnected(s) in ServerActions(servers) <==> s in servers && s.enabled && s.session == null
    ensures forall a :: a in ServerActions(servers) ==> !a.LaunchWebsite?
    decreases |servers|
  {
    if servers != [] {
      var prefix := servers[..|servers| - 1];
      ServerActionsIff(prefix, s);
      assert servers == prefix + [servers[|servers| - 1]];
    }
  }

  /** A website is started exactly when it is listed, enabled and not already running. */
  lemma {:induction false} WebsiteActionsIff(websites: seq<WebsiteConfig>, w: WebsiteConfig)
    ensures LaunchWebsite(w) in WebsiteActions(websites) <==> w in websites && w.enabled && !w.inProgress
    ensures forall a :: a in WebsiteActions(websites) ==> a.LaunchWebsite?
    decreases |websites|
  {
    if websites != [] {
      var prefix := websites[..|websites| - 1];
      WebsiteActionsIff(prefix, w);
      assert websites == prefix + [websites[|websites| - 1]];
    }
  }

  /** Some target is still running. */
  predicate AnyRunning(servers: seq<ServerConfig>, websites: seq<WebsiteConfig>)
    reads set i | 0 <= i < |servers| :: servers[i]
    reads set i | 0 <= i < |websites| :: websites[i]
  {
    (exists i :: 0 <= i < |servers| && servers[i].inProgress) ||
    (exists i :: 0 <= i < |websites| && websites[i].inProgress)
  }

  /**
   * One round of the wait before a reload (main.go:253-271): true when a server
   * or a website is still running, in which case the daemon spins again.
   */
  method HasRunning(servers: seq<ServerConfig>, websites: seq<WebsiteConfig>) returns (hasRunning: bool)
    ensures hasRunning <==> AnyRunning(servers, websites)
  {
    hasRunning := false;
    var i := 0;
    while i < |servers|
      invariant 0 <= i <= |servers|
      invariant forall k :: 0 <= k < i ==> !servers[k].inProgress
    {
      if servers[i].inProgress {
        return true;
      }
      i := i + 1;
    }
    i := 0;
    while i < |websites|
      invariant 0 <= i <= |websites|
      invariant forall k :: 0 <= k < i ==> !websites[k].inProgress
    {
      if websites[i].inProgress {
        return true;
      }
      i := i + 1;
    }
  }
}
