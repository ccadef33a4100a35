/**
 * The SSH reconnect and retry policy (ssh.go:38-81) over an abstract transport.
 * `SshLibrary` stands for the SSH package: it answers each dial and each
 * session-open request from a script of outcomes given in advance, and logs which
 * client every session-open and every close was made on.
 */
module Ssh {
  import opened Wrappers
  import opened Config

  /** Why `RunCommand` failed. */
  datatype CommandError =
    | NotConnected            // "SSH not connected"
    | SessionFailed(host: string)  // "Could not start session for <host>: ..."
    | RunFailed(reason: string)    // the error `Run` returned

  class SshLibrary {
    /** Outcome of each successive `NewSession`; once exhausted, opens fail. */
    var openScript: seq<bool>
    /** Outcome of each successive dial; once exhausted, dials fail. */
    var dialScript: seq<bool>
    /** Output or error of running a command on an open session. */
    const run: string -> Result<string, string>
    /** The clients `NewSession` was called on, in order. */
    var sessionsOn: seq<SshClient>
    /** The clients that were closed, in order. */
    var closed: seq<SshClient>
    /** How many dials were attempted. */
    var dials: nat

    constructor (openScript: seq<bool>, dialScript: seq<bool>, run: string -> Result<string, string>)
      ensures this.openScript == openScript && this.dialScript == dialScript && this.run == run
      ensures sessionsOn == [] && closed == [] && dials == 0
    {
      this.openScript := openScript;
      this.dialScript := dialScript;
      this.run := run;
      sessionsOn, closed, dials := [], [], 0;
    }

    /**
     * `client.NewSession()`. A client that was closed refuses at once, without
     * consulting the script, as a closed SSH connection cannot open a channel.
     */
    method NewSession(client: SshClient) returns (ok: bool)
      modifies this`openScript, this`sessionsOn
      ensures ok == Opens(closed, old(openScript), client)
      ensures openScript == AfterOpen(closed, old(openScript), client)
      ensures sessionsOn == old(sessionsOn) + [client]
    {
      ok := client !in closed && openScript != [] && openScript[0];
      if client !in closed && openScript != [] {
        openScript := openScript[1..];
      }
      sessionsOn := sessionsOn + [client];
    }

    /** `ssh.Dial`: a fresh client on success. */
    method Dial() returns (client: SshClient?)
      modifies this`dialScript, this`dials
      ensures (client != null) == (old(dialScript) != [] && old(dialScript)[0])
      ensures client != null ==> fresh(client)
      ensures dialScript == if old(dialScript) == [] then [] else old(dialScript)[1..]
      ensures dials == old(dials) + 1
    {
      var ok := dialScript != [] && dialScript[0];
      if dialScript != [] {
        dialScript := dialScript[1..];
      }
      dials := dials + 1;
      client := null;
      if ok {
        client := new SshClient();
      }
    }

    /** `client.Close()`; its error is only logged. */
    method Close(client: SshClient)
      modifies this`closed
      ensures closed == old(closed) + [client]
    {
      closed := closed + [client];
    }
  }

  /** Whether a session-open on `client` succeeds: never on a closed client, otherwise as the script says. */
  predicate Opens(closed: seq<SshClient>, script: seq<bool>, client: SshClient) {
    client !in closed && script != [] && script[0]
  }

  /** The open script after a session-open on `client`: a refusal on a closed client consumes nothing. */
  function AfterOpen(closed: seq<SshClient>, script: seq<bool>, client: SshClient): seq<bool> {
    if client in closed || script == [] then script else script[1..]
  }

  /** Whether the next dial succeeds. */
  predicate Dials(script: seq<bool>) {
    script != [] && script[0]
  }

  /** `sshConnect`: dial the server and wrap the client in a new session. */
  method Connect(server: ServerConfig, lib: SshLibrary) returns (session: SshSession?)
    modifies lib`dialScript, lib`dials
    ensures (session != null) == Dials(old(lib.dialScript))
    ensures session != null ==> fresh(session) && session.server == server && session.client != null
    ensures session != null ==> fresh(session.client)
    ensures lib.dialScript == if old(lib.dialScript) == [] then [] else old(lib.dialScript)[1..]
    ensures lib.dials == old(lib.dials) + 1
  {
    var client := lib.Dial();
    if client == null {
      return null;
    }
    session := new SshSession(client, server);
  }

  /**
   * `sshReconnect` (ssh.go:38-56): closes the old client only when both the
   * session and its client exist, dials once, and replaces the server's session
   * only when the dial succeeds.
   */
  method Reconnect(server: ServerConfig, lib: SshLibrary) returns (ok: bool)
    modifies server`session, lib`closed, lib`dialScript, lib`dials
    ensures lib.closed == old(lib.closed) +
              (if old(server.session) != null && old(server.session.client) != null
               then [old(server.session.client)] else [])
    ensures ok == Dials(old(lib.dialScript))
    ensures ok ==> server.session != null && fresh(server.session) && server.session.server == server
    ensures ok ==> server.session.client != null && fresh(server.session.client)
    ensures !ok ==> server.session == old(server.session)
    ensures lib.dials == old(lib.dials) + 1
    ensures lib.dialScript == if old(lib.dialScript) == [] then [] else old(lib.dialScript)[1..]
  {
    if server.session != null && server.session.client != null {
      lib.Close(server.session.client);
    }
    var session := Connect(server, lib);
    if session == null {
      return false;
    }
    server.session := session;
    return true;
  }

  /** The result of running `command` on a session that opened. */
  function RunOutcome(lib: SshLibrary, command: string): Result<string, CommandError>
    reads lib
  {
    match lib.run(command)
    case Success(output) => Success(output)
    case Failure(reason) => Failure(RunFailed(reason))
  }

  /**
   * `RunCommand` (ssh.go:58-81). Without a session or client: "not connected",
   * with no reconnect. When the session fails to open: with `retry`, exactly one
   * reconnect of the session's server followed by one more attempt without
   * `retry`, made on the same receiver and so on the same, old client; without
   * `retry`, an error. A failing command is returned as is, with no retry.
   *
   * When the receiver is the server's current session, as at main.go:103, the
   * reconnect closes the receiver's own client, so the retry always fails.
   */
  method RunCommand(s: SshSession?, command: string, retry: bool, lib: SshLibrary)
    returns (r: Result<string, CommandError>)
    modifies lib`openScript, lib`sessionsOn, lib`closed, lib`dialScript, lib`dials
    modifies (if s != null && retry then {s.server} else {})`session
    decreases retry
    ensures s == null || s.client == null ==>
              && r == Failure(NotConnected)
              && lib.sessionsOn == old(lib.sessionsOn) && lib.dials == old(lib.dials) && lib.closed == old(lib.closed)
    ensures s != null && s.client != null && Opens(old(lib.closed), old(lib.openScript), s.client) ==>
              && r == RunOutcome(lib, command)
              && lib.sessionsOn == old(lib.sessionsOn) + [s.client]
              && lib.dials == old(lib.dials) && lib.closed == old(lib.closed)
              && s.server.session == old(s.server.session)
    ensures s != null && s.client != null && !Opens(old(lib.closed), old(lib.openScript), s.client) && !retry ==>
              && r == Failure(SessionFailed(s.server.host))
              && lib.sessionsOn == old(lib.sessionsOn) + [s.client]
              && lib.dials == old(lib.dials) && lib.closed == old(lib.closed)
              && s.server.session == old(s.server.session)
    ensures s != null && s.client != null && !Opens(old(lib.closed), old(lib.openScript), s.client) && retry ==>
              && lib.closed == old(lib.closed) +
                   (if old(s.server.session) != null && old(s.server.session.client) != null
                    then [old(s.server.session.client)] else [])
              && lib.dials == old(lib.dials) + 1
              && (Dials(old(lib.dialScript)) ==>
                    s.server.session != null && fresh(s.server.session) && s.server.session.server == s.server)
              && (!Dials(old(lib.dialScript)) ==> s.server.session == old(s.server.session))
              && lib.sessionsOn == old(lib.sessionsOn) + [s.client, s.client]
              && r == (if Opens(lib.closed, AfterOpen(old(lib.closed), old(lib.openScript), s.client), s.client)
                       then RunOutcome(lib, command)
                       else Failure(SessionFailed(s.server.host)))
    ensures s != null && s.client != null && !Opens(old(lib.closed), old(lib.openScript), s.client) && retry &&
            old(s.server.session) == s ==>
              r == Failure(SessionFailed(s.server.host))
    ensures s != null ==> s.server.inProgress == old(s.server.inProgress)
  {
    if s == null || s.client == null {
      return Failure(NotConnected);
    }
    var began := lib.NewSession(s.client);
    if !began {
      if retry {
        var _ := Reconnect(s.server, lib);
        r := RunCommand(s, command, false, lib);
        return r;
      }
      return Failure(SessionFailed(s.server.host));
    }
    r := RunOutcome(lib, command);
  }

  /** At most two session-open attempts per top-level call, both on the receiver's own client. */
  method RunCommandAttempts(s: SshSession, command: string, lib: SshLibrary)
    returns (r: Result<string, CommandError>)
    requires s.client != null
    modifies lib`openScript, lib`sessionsOn, lib`closed, lib`dialScript, lib`dials, s.server`session
    ensures old(|lib.sessionsOn|) < |lib.sessionsOn| <= old(|lib.sessionsOn|) + 2
    ensures forall i :: old(|lib.sessionsOn|) <= i < |lib.sessionsOn| ==> lib.sessionsOn[i] == s.client
    ensures lib.dials <= old(lib.dials) + 1
  {
    r := RunCommand(s, command, true, lib);
  }

  /**
   * The retry as evidently intended: after reconnecting, run on the server's
   * new session rather than on the receiver. A successful redial then gives the
   * retry a fresh, open client, and only the script decides the second attempt.
   */
  method RunCommandOnNewSession(s: SshSession?, command: string, lib: SshLibrary)
    returns (r: Result<string, CommandError>)
    modifies lib`openScript, lib`sessionsOn, lib`closed, lib`dialScript, lib`dials
    modifies (if s != null then {s.server} else {})`session
    ensures s == null || s.client == null ==> r == Failure(NotConnected)
    ensures s != null && s.client != null && Opens(old(lib.closed), old(lib.openScript), s.client) ==>
              r == RunOutcome(lib, command)
    ensures s != null && s.client != null && !Opens(old(lib.closed), old(lib.openScript), s.client) &&
            Dials(old(lib.dialScript)) ==>
              && s.server.session != null && s.server.session.client != null
              && s.server.session.client !in lib.closed
              && lib.sessionsOn == old(lib.sessionsOn) + [s.client, s.server.session.client]
              && var rest := AfterOpen(old(lib.closed), old(lib.openScript), s.client);
                 r == (if rest != [] && rest[0] then RunOutcome(lib, command)
                       else Failure(SessionFailed(s.server.host)))
    ensures s != null && s.client != null && !Opens(old(lib.closed), old(lib.openScript), s.client) &&
            !Dials(old(lib.dialScript)) ==>
              r.Failure?
  {
    if s == null || s.client == null {
      return Failure(NotConnected);
    }
    var began := lib.NewSession(s.client);
    if !began {
      var ok := Reconnect(s.server, lib);
      r := RunCommand(s.server.session, command, false, lib);
      return r;
    }
    r := RunOutcome(lib, command);
  }
}
