/**
 * A website check result (database_website_check.go): its correlation key, its
 * policy, the severity decision and the alert resend throttle.
 */
module WebsiteCheckDb {
  import opened Wrappers
  import opened Text
  import opened Config
  import opened Storage
  import Window
  import ServerCheckDb

  /** The document `GetMapping` serialises for the search backend. */
  datatype WebsiteCheckDoc = WebsiteCheckDoc(
    testId: string,
    websiteName: string,
    passed: bool,
    timestamp: int)

  /** The correlation key of a website: "website:" and its lower-cased, hyphenated name. */
  function WebsiteTestIdFor(websiteName: string): (id: string)
    ensures |id| == 8 + |websiteName|
    ensures id[..8] == "website:"
  {
    "website:" + ToLower(ReplaceSpaces(websiteName))
  }

  /** After the prefix, each space of the name is a hyphen and every other character is lowered. */
  lemma WebsiteTestIdContent(websiteName: string)
    ensures forall i :: 0 <= i < |websiteName| ==>
              WebsiteTestIdFor(websiteName)[8 + i] ==
                (if websiteName[i] == ' ' then '-' else LowerChar(websiteName[i]))
  {
  }

  /** One result of one website check (database_website_check.go:13-19). */
  class WebsiteCheck {
    var testId: string
    var websiteName: string
    const website: WebsiteConfig?
    var passed: bool
    var timestamp: int

    constructor (website: WebsiteConfig?, passed: bool)
      ensures this.website == website && this.passed == passed
      ensures testId == "" && websiteName == "" && timestamp == 0
    {
      this.website := website;
      this.passed := passed;
      testId, websiteName, timestamp := "", "", 0;
    }

    /** `GetWebsiteName`: the website's name, or "-" without a website. */
    function GetWebsiteName(): (r: string)
      ensures website == null ==> r == "-"
      ensures website != null ==> r == website.name
    {
      if website == null then "-" else website.name
    }

    /** `GetTestId` (database_website_check.go:29-34). */
    function GetTestId(): (id: string)
      ensures id == WebsiteTestIdFor(GetWebsiteName())
      ensures |id| > 0
    {
      WebsiteTestIdFor(GetWebsiteName())
    }

    /** `GetSeverity`: only the website's own policy counts. */
    function GetSeverity(table: SeverityTable): (r: Option<SeverityConfig>)
      ensures website == null ==> r.None?
      ensures website != null ==> r == website.Severity(table)
    {
      if website != null then website.Severity(table) else None
    }

    /** `GetSeverityName`: the website's severity name, whether or not it resolves. */
    function GetSeverityName(): (r: string)
      ensures website == null ==> r == ""
      ensures website != null ==> r == website.severityType
    {
      if website != null then website.severityType else ""
    }

    /** The severity decision `IsSevere` computes (database_website_check.go:154-190). */
    predicate Severe(table: SeverityTable, now: int, results: Query<Sample>)
      ensures Severe(table, now, results) ==> GetSeverity(table).Some?
    {
      match GetSeverity(table)
      case None => false
      case Some(policy) =>
        results.Failure? ||
        Window.Severe(results.value, now - policy.checkMinutes * Minute, policy.failedAttemptsPercentage)
    }

    /**
     * `IsSevere`: no policy means not severe; a failed results query means severe;
     * otherwise the windowed count decides.
     */
    method IsSevere(table: SeverityTable, now: int, results: Query<Sample>) returns (severe: bool)
      ensures severe == Severe(table, now, results)
      ensures GetSeverity(table).None? ==> !severe
      ensures GetSeverity(table).Some? && results.Failure? ==> severe
    {
      var severityConfig := GetSeverity(table);
      if severityConfig.None? {
        return false;
      }
      var timeFrom := now - severityConfig.value.checkMinutes * Minute;
      if results.Failure? {
        return true;
      }
      var hasOlder, failureCount, totalCount := Window.Tally(results.value, timeFrom);
      severe := hasOlder && failureCount * 100 > severityConfig.value.failedAttemptsPercentage * totalCount;
    }

    /** The start of the resend window `CanResendAlert` queries alerts from. */
    function ResendFrom(table: SeverityTable, now: int): int
      requires GetSeverity(table).Some?
    {
      now - GetSeverity(table).value.alertResendMinutes * Minute
    }

    /**
     * `CanResendAlert` (database_website_check.go:136-152): true exactly when the
     * alerts query failed or found no alert; the policy is dereferenced unchecked.
     */
    function CanResendAlert(table: SeverityTable, alerts: Query<AlertRecord>): (r: bool)
      requires GetSeverity(table).Some?
      ensures r <==> alerts.Failure? || |alerts.value| == 0
    {
      match alerts
      case Failure(_) => true
      case Success(found) => |found| == 0
    }

    /** `GetMapping`: records the name and the id, and stamps the result with `now` when asked to. */
    method GetMapping(setTimestamp: bool, now: int) returns (doc: WebsiteCheckDoc)
      modifies this
      ensures websiteName == GetWebsiteName() && testId == GetTestId()
      ensures timestamp == if setTimestamp then now else old(timestamp)
      ensures passed == old(passed)
      ensures doc == WebsiteCheckDoc(testId, websiteName, passed, timestamp)
    {
      websiteName := GetWebsiteName();
      testId := GetTestId();
      if setTimestamp {
        timestamp := now;
      }
      doc := WebsiteCheckDoc(testId, websiteName, passed, timestamp);
    }
  }

  /** The severity name always names the policy `GetSeverity` resolves, or one that does not resolve. */
  lemma SeverityNameAgrees(result: WebsiteCheck, table: SeverityTable)
    ensures result.GetSeverity(table) == ResolveSeverity(table, result.GetSeverityName())
  {
  }

  /** Website ids contain no space. */
  lemma {:induction false} WebsiteTestIdHasNoSpace(name: string)
    ensures ' ' !in WebsiteTestIdFor(name)
  {
    var r := ReplaceSpaces(name);
    var id := WebsiteTestIdFor(name);
    forall i | 0 <= i < |id| ensures id[i] != ' ' {
      if i >= 8 {
        assert id[i] == LowerChar(r[i - 8]);
        assert r[i - 8] != ' ';
      }
    }
  }

  /** Names that differ only in the case of ASCII letters share one website id. */
  lemma {:induction false} WebsiteTestIdIgnoresCase(name1: string, name2: string)
    requires |name1| == |name2|
    requires forall i :: 0 <= i < |name1| ==> LowerChar(name1[i]) == LowerChar(name2[i])
    ensures WebsiteTestIdFor(name1) == WebsiteTestIdFor(name2)
  {
    var r1, r2 := ReplaceSpaces(name1), ReplaceSpaces(name2);
    forall i | 0 <= i < |name1| ensures LowerChar(r1[i]) == LowerChar(r2[i]) {
      assert (name1[i] == ' ') == (name2[i] == ' ');
    }
    assert ToLower(r1) == ToLower(r2);
  }

  /**
   * Server ids carry no "server:" prefix, so a server named "website" shares the
   * throttling key of a website: its check "shop" and the website "shop" collide.
   */
  lemma ServerAndWebsiteIdsCanCollide()
    ensures ServerCheckDb.TestIdFor("website", "shop") == WebsiteTestIdFor("shop")
  {
  }
}
