/**
 * The monitor's configuration (config.go): checks, regex assertions, severity
 * policies, alert channel settings, server, website and group targets, and the
 * lookups the engine performs on them. The global `severity` table and the
 * global `config` become parameters.
 *
 * The SSH session types of ssh.go live here too, because a server holds its
 * session and a session points back to its server.
 */
module Config {
  import opened Wrappers

  /** Go's `int16`, the type of a policy's failure percentage. */
  type Int16 = x: int | -0x8000 <= x < 0x8000

  /** A regex assertion (config.go:23-30); nil-able fields become options. */
  datatype Regex = Regex(
    expression: string,
    index: Option<int>,
    greaterThan: Option<int>,
    lessThan: Option<int>,
    equals: string,
    contains: string)

  /** One named check run on a server (config.go:14-21). */
  datatype Check = Check(
    name: string,
    severityType: string,
    command: string,
    responseContains: string,
    regex: Option<Regex>,
    alert: string)
  {
    /** `Check.Severity()`: the policy named by the check, if it resolves. */
    function Severity(table: SeverityTable): (r: Option<SeverityConfig>)
      ensures r.Some? <==> severityType != "" && severityType in table
      ensures r.Some? ==> r.value == table[severityType]
    {
      ResolveSeverity(table, severityType)
    }
  }

  /**
   * A severity policy (config.go:55-60). The two durations are counts of
   * minutes: the source multiplies them by `time.Minute`.
   */
  datatype SeverityConfig = SeverityConfig(
    checkMinutes: int,
    failedAttemptsPercentage: Int16,
    alertResendMinutes: int,
    alerts: map<string, bool>)

  /** The global `severity` map: policy name to policy. */
  type SeverityTable = map<string, SeverityConfig>

  /** One notification channel's global settings (`SimplePushAlert`; credentials left out). */
  datatype ChannelConfig = ChannelConfig(enabled: bool, default: bool)

  /** `AlertConfig` with its two channels. */
  datatype AlertConfig = AlertConfig(simplePush: ChannelConfig, pushBullet: ChannelConfig)

  /** A named group of checks that servers can join (config.go:89-92). */
  datatype GroupConfig = GroupConfig(name: string, checks: seq<Check>)

  /** The warnings the loaders log about a target's severity name. */
  datatype Warning =
    | SeverityNotSpecified(target: string)
    | SeverityMissing(severity: string, target: string)

  /** An SSH client connection (`*ssh.Client`); only its identity matters here. */
  class SshClient {
    constructor ()
    {
    }
  }

  /** `sshSession` (ssh.go:10-13): the client and the server it was dialled for. */
  class SshSession {
    const client: SshClient?
    const server: ServerConfig

    constructor (client: SshClient?, server: ServerConfig)
      ensures this.client == client && this.server == server
    {
      this.client := client;
      this.server := server;
    }
  }

  /**
   * A monitored server (config.go:62-74). The engine itself updates only
   * `session` and `inProgress`; everything else is replaced wholesale on reload.
   */
  class ServerConfig {
    const name: string
    const host: string
    const port: int
    const username: string
    const password: string
    const severityType: string
    const groups: seq<string>
    const checks: seq<Check>
    const alerts: map<string, bool>
    const enabled: bool
    var session: SshSession?
    var inProgress: bool

    constructor (name: string, host: string, port: int, severityType: string,
                 groups: seq<string>, checks: seq<Check>, alerts: map<string, bool>, enabled: bool)
      ensures this.name == name && this.host == host && this.port == port
      ensures this.severityType == severityType && this.groups == groups && this.checks == checks
      ensures this.alerts == alerts && this.enabled == enabled
      ensures session == null && !inProgress
    {
      this.name := name;
      this.host := host;
      this.port := port;
      this.username := "";
      this.password := "";
      this.severityType := severityType;
      this.groups := groups;
      this.checks := checks;
      this.alerts := alerts;
      this.enabled := enabled;
      session := null;
      inProgress := false;
    }

    /** `ServerConfig.CanSendAlert` (config.go:301-307). */
    function CanSendAlert(alert: string, defaultValue: bool): (r: bool)
      ensures alert in alerts ==> r == alerts[alert]
      ensures alert !in alerts ==> r == defaultValue
    {
      Override(alerts, alert, defaultValue)
    }

    /** `ServerConfig.Severity()` (config.go:325-327). */
    function Severity(table: SeverityTable): (r: Option<SeverityConfig>)
      ensures r.Some? <==> severityType != "" && severityType in table
      ensures r.Some? ==> r.value == table[severityType]
    {
      ResolveSeverity(table, severityType)
    }
  }

  /**
   * A monitored website (config.go:76-87, with the `Enabled` and `Alerts` fields
   * the rest of the code uses). The response-time budget is in whole milliseconds.
   */
  class WebsiteConfig {
    const name: string
    const severityType: string
    const url: string
    const httpMethod: string
    const statusCode: int
    const maxResponseTimeMS: int
    const responseHeaders: map<string, string>
    const requestHeaders: map<string, string>
    const requestBody: string
    const alerts: map<string, bool>
    const enabled: bool
    var inProgress: bool

    constructor (name: string, severityType: string, httpMethod: string, statusCode: int,
                 maxResponseTimeMS: int, responseHeaders: map<string, string>,
                 alerts: map<string, bool>, enabled: bool)
      ensures this.name == name && this.severityType == severityType && this.httpMethod == httpMethod
      ensures this.statusCode == statusCode && this.maxResponseTimeMS == maxResponseTimeMS
      ensures this.responseHeaders == responseHeaders && this.alerts == alerts && this.enabled == enabled
      ensures !inProgress
    {
      this.name := name;
      this.severityType := severityType;
      this.url := "";
      this.httpMethod := httpMethod;
      this.statusCode := statusCode;
      this.maxResponseTimeMS := maxResponseTimeMS;
      this.responseHeaders := responseHeaders;
      this.requestHeaders := map[];
      this.requestBody := "";
      this.alerts := alerts;
      this.enabled := enabled;
      inProgress := false;
    }

    /** `WebsiteConfig.CanSendAlert`, the same override lookup as for servers. */
    function CanSendAlert(alert: string, defaultValue: bool): (r: bool)
      ensures alert in alerts ==> r == alerts[alert]
      ensures alert !in alerts ==> r == defaultValue
    {
      Override(alerts, alert, defaultValue)
    }

    /** `WebsiteConfig.Severity()` (config.go:329-331). */
    function Severity(table: SeverityTable): (r: Option<SeverityConfig>)
      ensures r.Some? <==> severityType != "" && severityType in table
      ensures r.Some? ==> r.value == table[severityType]
    {
      ResolveSeverity(table, severityType)
    }
  }

  /** A per-target channel override, falling back to the supplied default. */
  function Override(overrides: map<string, bool>, alert: string, defaultValue: bool): bool {
    if alert in overrides then overrides[alert] else defaultValue
  }

  /** `getSeverity` (config.go:309-319): the empty name and unknown names resolve to nothing. */
  function ResolveSeverity(table: SeverityTable, severityType: string): (r: Option<SeverityConfig>)
    ensures r.Some? <==> severityType != "" && severityType in table
    ensures r.Some? ==> r.value == table[severityType]
  {
    if severityType == "" then None
    else if severityType in table then Some(table[severityType])
    else None
  }

  /** The warning, if any, that a loader logs for one target's severity name. */
  function SeverityWarning(table: SeverityTable, target: string, severityType: string): (w: Option<Warning>)
    ensures w.None? <==> ResolveSeverity(table, severityType).Some?
    ensures w == Some(SeverityNotSpecified(target)) <==> severityType == ""
  {
    if severityType == "" then Some(SeverityNotSpecified(target))
    else if severityType !in table then Some(SeverityMissing(severityType, target))
    else None
  }

  /**
   * The warnings `loadServerConfig` logs after unmarshalling (config.go:185-191),
   * in server order: one per server whose severity name does not resolve.
   */
  function ServerWarnings(servers: seq<ServerConfig>, table: SeverityTable): (ws: seq<Warning>)
    ensures |ws| <= |servers|
    ensures forall i :: 0 <= i < |servers| && ResolveSeverity(table, servers[i].severityType).None? ==>
              SeverityWarning(table, servers[i].name, servers[i].severityType).value in ws
    ensures forall w :: w in ws ==>
              exists i :: 0 <= i < |servers| && SeverityWarning(table, servers[i].name, servers[i].severityType) == Some(w)
  {
    if servers == [] then []
    else
      var rest := ServerWarnings(servers[1..], table);
      assert forall i :: 1 <= i < |servers| ==> servers[i] == servers[1..][i - 1];
      match SeverityWarning(table, servers[0].name, servers[0].severityType)
      case None => rest
      case Some(w) => [w] + rest
  }

  /** The warnings `loadWebsitesConfig` logs after unmarshalling (config.go:207-213). */
  function WebsiteWarnings(websites: seq<WebsiteConfig>, table: SeverityTable): (ws: seq<Warning>)
    ensures |ws| <= |websites|
    ensures forall i :: 0 <= i < |websites| && ResolveSeverity(table, websites[i].severityType).None? ==>
              SeverityWarning(table, websites[i].name, websites[i].severityType).value in ws
    ensures forall w :: w in ws ==>
              exists i :: 0 <= i < |websites| && SeverityWarning(table, websites[i].name, websites[i].severityType) == Some(w)
  {
    if websites == [] then []
    else
      var rest := WebsiteWarnings(websites[1..], table);
      assert forall i :: 1 <= i < |websites| ==> websites[i] == websites[1..][i - 1];
      match SeverityWarning(table, websites[0].name, websites[0].severityType)
      case None => rest
      case Some(w) => [w] + rest
  }

  /** The warnings one target contributes: none, or its single warning. */
  function WarningsOf(w: Option<Warning>): seq<Warning> {
    if w.Some? then [w.value] else []
  }

  /**
   * The warnings are fixed exactly, server by server: appending a server appends
   * its own warning, if it has one, after all the earlier servers' warnings.
   */
  lemma {:induction false} ServerWarningsAppend(servers: seq<ServerConfig>, s: ServerConfig, table: SeverityTable)
    ensures ServerWarnings(servers + [s], table) ==
              ServerWarnings(servers, table) + WarningsOf(SeverityWarning(table, s.name, s.severityType))
    decreases |servers|
  {
    if servers == [] {
      assert servers + [s] == [s];
      assert [s][1..] == [];
    } else {
      assert (servers + [s])[0] == servers[0];
      assert (servers + [s])[1..] == servers[1..] + [s];
      ServerWarningsAppend(servers[1..], s, table);
    }
  }

  /** The same exact accumulation for websites. */
  lemma {:induction false} WebsiteWarningsAppend(websites: seq<WebsiteConfig>, w: WebsiteConfig, table: SeverityTable)
    ensures WebsiteWarnings(websites + [w], table) ==
              WebsiteWarnings(websites, table) + WarningsOf(SeverityWarning(table, w.name, w.severityType))
    decreases |websites|
  {
    if websites == [] {
      assert websites + [w] == [w];
      assert [w][1..] == [];
    } else {
      assert (websites + [w])[0] == websites[0];
      assert (websites + [w])[1..] == websites[1..] + [w];
      WebsiteWarningsAppend(websites[1..], w, table);
    }
  }
}
