/**
 * A server check result (database_server_check.go): its correlation key, the
 * policy that governs it, the severity decision over its stored history and the
 * alert resend throttle. Storage queries are inputs.
 */
module ServerCheckDb {
  import opened Wrappers
  import opened Text
  import opened Config
  import opened Storage
  import Window

  /** The document `GetMapping` serialises for the search backend. */
  datatype ServerCheckDoc = ServerCheckDoc(
    testId: string,
    serverName: string,
    checkName: string,
    passed: bool,
    timestamp: int)

  /** The correlation key of a (server, check) pair: both names with spaces turned into hyphens. */
  function TestIdFor(serverName: string, checkName: string): (id: string)
    ensures |id| == |serverName| + 1 + |checkName|
    ensures ' ' !in id
  {
    ReplaceSpaces(serverName) + ":" + ReplaceSpaces(checkName)
  }

  /** One result of one check on one server (database_server_check.go:13-21). */
  class ServerCheck {
    var testId: string
    var serverName: string
    var checkName: string
    const server: ServerConfig?
    const check: Option<Check>
    var passed: bool
    var timestamp: int

    constructor (server: ServerConfig?, check: Option<Check>, passed: bool)
      ensures this.server == server && this.check == check && this.passed == passed
      ensures testId == "" && serverName == "" && checkName == "" && timestamp == 0
    {
      this.server := server;
      this.check := check;
      this.passed := passed;
      testId, serverName, checkName, timestamp := "", "", "", 0;
    }

    /** `GetServerName`: the server's name, or "-" without a server. */
    function GetServerName(): (r: string)
      ensures server == null ==> r == "-"
      ensures server != null ==> r == server.name
    {
      if server == null then "-" else server.name
    }

    /** `GetCheckName`: the check's name, or "-" without a check. */
    function GetCheckName(): (r: string)
      ensures check.None? ==> r == "-"
      ensures check.Some? ==> r == check.value.name
    {
      if check.None? then "-" else check.value.name
    }

    /** `GetTestId` (database_server_check.go:32-38). */
    function GetTestId(): (id: string)
      ensures id == TestIdFor(GetServerName(), GetCheckName())
      ensures |id| > 0 && ' ' !in id
    {
      TestIdFor(GetServerName(), GetCheckName())
    }

    /** `GetSeverity`: the check's policy when it resolves, otherwise the server's. */
    function GetSeverity(table: SeverityTable): (r: Option<SeverityConfig>)
      ensures check.Some? && check.value.Severity(table).Some? ==> r == check.value.Severity(table)
      ensures (check.None? || check.value.Severity(table).None?) ==>
                r == (if server == null then None else server.Severity(table))
    {
      var fromServer := if server != null then server.Severity(table) else None;
      if check.Some? && check.value.Severity(table).Some? then check.value.Severity(table) else fromServer
    }

    /** `GetSeverityName`: the check's severity name when its policy resolves, otherwise the server's. */
    function GetSeverityName(table: SeverityTable): (r: string)
      ensures check.Some? && check.value.Severity(table).Some? ==> r == check.value.severityType
      ensures (check.None? || check.value.Severity(table).None?) ==>
                r == (if server == null then "" else server.severityType)
    {
      var fromServer := if server != null then server.severityType else "";
      if check.Some? && check.value.Severity(table).Some? then check.value.severityType else fromServer
    }

    /** The severity decision `IsSevere` computes (database_server_check.go:161-197). */
    predicate Severe(table: SeverityTable, now: int, results: Query<Sample>)
      ensures Severe(table, now, results) ==> GetSeverity(table).Some?
    {
      match GetSeverity(table)
      case None => false
      case Some(policy) =>
        results.Failure? ||
        Window.Severe(results.value, now - policy.checkMinutes * Minute, policy.failedAttemptsPercentage)
    }

    /**
     * `IsSevere`: no policy means not severe; a failed results query means severe;
     * otherwise the windowed count decides.
     */
    method IsSevere(table: SeverityTable, now: int, results: Query<Sample>) returns (severe: bool)
      ensures severe == Severe(table, now, results)
      ensures GetSeverity(table).None? ==> !severe
      ensures GetSeverity(table).Some? && results.Failure? ==> severe
    {
      var severityConfig := GetSeverity(table);
      if severityConfig.None? {
        return false;
      }
      var timeFrom := now - severityConfig.value.checkMinutes * Minute;
      if results.Failure? {
        return true;
      }
      var hasOlder, failureCount, totalCount := Window.Tally(results.value, timeFrom);
      severe := hasOlder && failureCount * 100 > severityConfig.value.failedAttemptsPercentage * totalCount;
    }

    /** The start of the resend window `CanResendAlert` queries alerts from. */
    function ResendFrom(table: SeverityTable, now: int): int
      requires GetSeverity(table).Some?
    {
      now - GetSeverity(table).value.alertResendMinutes * Minute
    }

    /**
     * `CanResendAlert` (database_server_check.go:199-215): true exactly when the
     * alerts query failed or found no alert. The source dereferences the policy
     * without a nil check, so a resolving policy is required.
     */
    function CanResendAlert(table: SeverityTable, alerts: Query<AlertRecord>): (r: bool)
      requires GetSeverity(table).Some?
      ensures r <==> alerts.Failure? || |alerts.value| == 0
    {
      match alerts
      case Failure(_) => true
      case Success(found) => |found| == 0
    }

    /**
     * `GetMapping`: records the names and the id in the result's own fields,
     * stamps it with `now` when asked to, and returns the document to store.
     */
    method GetMapping(setTimestamp: bool, now: int) returns (doc: ServerCheckDoc)
      modifies this
      ensures serverName == GetServerName() && checkName == GetCheckName() && testId == GetTestId()
      ensures timestamp == if setTimestamp then now else old(timestamp)
      ensures passed == old(passed)
      ensures doc == ServerCheckDoc(testId, serverName, checkName, passed, timestamp)
    {
      serverName := GetServerName();
      checkName := GetCheckName();
      testId := GetTestId();
      if setTimestamp {
        timestamp := now;
      }
      doc := ServerCheckDoc(testId, serverName, checkName, passed, timestamp);
    }
  }

  /** The severity name `GetSeverityName` reports always names the policy `GetSeverity` resolves. */
  lemma SeverityNameAgrees(result: ServerCheck, table: SeverityTable)
    ensures result.GetSeverity(table) == ResolveSeverity(table, result.GetSeverityName(table))
  {
  }

  /** The id depends only on the two names, and the two normalised names are recoverable from it when the server name has no colon. */
  lemma {:induction false} TestIdSplits(s1: string, c1: string, s2: string, c2: string)
    requires ':' !in s1 && ':' !in s2
    requires TestIdFor(s1, c1) == TestIdFor(s2, c2)
    ensures ReplaceSpaces(s1) == ReplaceSpaces(s2) && ReplaceSpaces(c1) == ReplaceSpaces(c2)
  {
    var a, b := ReplaceSpaces(s1), ReplaceSpaces(s2);
    var id := TestIdFor(s1, c1);
    assert ':' !in a by {
      forall i | 0 <= i < |a| ensures a[i] != ':' {
        assert s1[i] != ':';
      }
    }
    assert ':' !in b by {
      forall i | 0 <= i < |b| ensures b[i] != ':' {
        assert s2[i] != ':';
      }
    }
    assert id[|a|] == ':' && id[|b|] == ':';
    assert forall i :: 0 <= i < |a| ==> id[i] == a[i];
    assert forall i :: 0 <= i < |b| ==> id[i] == b[i];
    assert |a| == |b|;
    assert a == id[..|a|] == b;
    assert ReplaceSpaces(c1) == id[|a| + 1..] == ReplaceSpaces(c2);
  }

  /**
   * Server ids keep the case of the names: every character of either name other
   * than a space appears unchanged in the id. Unlike website ids, they are not
   * lower-cased.
   */
  lemma TestIdKeepsCase(serverName: string, checkName: string)
    ensures forall i :: 0 <= i < |serverName| && serverName[i] != ' ' ==>
              TestIdFor(serverName, checkName)[i] == serverName[i]
    ensures forall i :: 0 <= i < |checkName| && checkName[i] != ' ' ==>
              TestIdFor(serverName, checkName)[|serverName| + 1 + i] == checkName[i]
  {
    var a, b := ReplaceSpaces(serverName), ReplaceSpaces(checkName);
    assert TestIdFor(serverName, checkName) == a + ":" + b;
  }

  /** A space and a hyphen normalise alike, so "db 1" and "db-1" share one id. */
  lemma TestIdSpaceHyphenCollide()
    ensures TestIdFor("db 1", "disk") == TestIdFor("db-1", "disk")
  {
  }
}
