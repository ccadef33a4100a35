/**
 * The alert dispatcher (alert.go:10-90): decides whether a failing result may
 * alert, which channels receive it, and records the alert for throttling. The
 * notification calls and the alert write are returned as an ordered list of
 * effects; the storage queries the two severity checks make are inputs.
 */
module Alerting {
  import opened Wrappers
  import opened Config
  import opened Storage
  import opened ServerCheckDb
  import opened WebsiteCheckDb

  datatype Channel = SimplePush | PushBullet

  /** What one `SendAlerts` call does to the outside world, in order. */
  datatype Effect =
    | Notify(channel: Channel, subject: string, message: string)
    | SaveAlert(record: AlertRecord)

  /** A request to run `SendAlerts` with this subject and message. */
  datatype AlertRequest = AlertRequest(subject: string, message: string)

  /** The storage answers the severity evaluation of one target reads. */
  datatype TargetQueries = TargetQueries(results: Query<Sample>, alerts: Query<AlertRecord>)

  /** The override key of a channel in a target's `Alerts` map. */
  function ChannelKey(c: Channel): string {
    match c
    case SimplePush => "simplePush"
    case PushBullet => "pushBullet"
  }

  function ChannelSettings(cfg: AlertConfig, c: Channel): ChannelConfig {
    match c
    case SimplePush => cfg.simplePush
    case PushBullet => cfg.pushBullet
  }

  /** A server result that the dispatcher evaluates: present and pointing to a server. */
  predicate HasServer(serverResult: ServerCheck?) {
    serverResult != null && serverResult.server != null
  }

  /** A website result that the dispatcher evaluates: present and pointing to a website. */
  predicate HasWebsite(websiteResult: WebsiteCheck?) {
    websiteResult != null && websiteResult.website != null
  }

  /** A target that is severe but has an alert inside its resend window stops the whole call. */
  predicate Throttled(serverResult: ServerCheck?, websiteResult: WebsiteCheck?,
                      table: SeverityTable, now: int, sq: TargetQueries, wq: TargetQueries)
  {
    (HasServer(serverResult) && serverResult.Severe(table, now, sq.results) &&
     !serverResult.CanResendAlert(table, sq.alerts)) ||
    (HasWebsite(websiteResult) && websiteResult.Severe(table, now, wq.results) &&
     !websiteResult.CanResendAlert(table, wq.alerts))
  }

  /** The final severity: the website's verdict overwrites the server's. */
  predicate FinalSevere(serverResult: ServerCheck?, websiteResult: WebsiteCheck?,
                        table: SeverityTable, now: int, sq: TargetQueries, wq: TargetQueries)
  {
    if HasWebsite(websiteResult) then websiteResult.Severe(table, now, wq.results)
    else HasServer(serverResult) && serverResult.Severe(table, now, sq.results)
  }

  /** A channel is permitted when either evaluated target allows it, by override or by the global default. */
  predicate Permitted(serverResult: ServerCheck?, websiteResult: WebsiteCheck?, cfg: AlertConfig, c: Channel) {
    (HasServer(serverResult) &&
     serverResult.server.CanSendAlert(ChannelKey(c), ChannelSettings(cfg, c).default)) ||
    (HasWebsite(websiteResult) &&
     websiteResult.website.CanSendAlert(ChannelKey(c), ChannelSettings(cfg, c).default))
  }

  /** The channel is globally enabled and permitted for these targets. */
  predicate Sends(serverResult: ServerCheck?, websiteResult: WebsiteCheck?, cfg: AlertConfig, c: Channel) {
    ChannelSettings(cfg, c).enabled && Permitted(serverResult, websiteResult, cfg, c)
  }

  /** The alert id: the website result's id when one is given, otherwise the server result's. */
  function AlertIdOf(serverResult: ServerCheck?, websiteResult: WebsiteCheck?): string {
    if websiteResult != null then websiteResult.GetTestId()
    else if serverResult != null then serverResult.GetTestId()
    else ""
  }

  /** What `SendAlerts` does: nothing, or the permitted notifications followed by the alert record. */
  function Dispatch(serverResult: ServerCheck?, websiteResult: WebsiteCheck?, subject: string, message: string,
                    cfg: AlertConfig, table: SeverityTable, now: int, sq: TargetQueries, wq: TargetQueries): (r: seq<Effect>)
    ensures r == [] <==> Throttled(serverResult, websiteResult, table, now, sq, wq) ||
                         !FinalSevere(serverResult, websiteResult, table, now, sq, wq)
    ensures r != [] ==> |r| <= 3 && r[|r| - 1] == SaveAlert(AlertRecord(AlertIdOf(serverResult, websiteResult), now))
  {
    if Throttled(serverResult, websiteResult, table, now, sq, wq) ||
       !FinalSevere(serverResult, websiteResult, table, now, sq, wq)
    then []
    else
      (if Sends(serverResult, websiteResult, cfg, SimplePush) then [Notify(SimplePush, subject, message)] else []) +
      (if Sends(serverResult, websiteResult, cfg, PushBullet) then [Notify(PushBullet, subject, message)] else []) +
      [SaveAlert(AlertRecord(AlertIdOf(serverResult, websiteResult), now))]
  }

  /**
   * The first half of `SendAlerts` (alert.go:11-53): evaluates severity per given
   * target, stops when a severe target may not resend, and ORs the targets'
   * channel permissions into `canSend`. `proceed` is false wherever the source
   * returns early.
   */
  method EvaluateTargets(serverResult: ServerCheck?, websiteResult: WebsiteCheck?,
                         cfg: AlertConfig, table: SeverityTable, now: int, sq: TargetQueries, wq: TargetQueries)
    returns (proceed: bool, canSend: map<string, bool>)
    ensures proceed <==> !Throttled(serverResult, websiteResult, table, now, sq, wq) &&
                         FinalSevere(serverResult, websiteResult, table, now, sq, wq)
    ensures proceed ==> forall c :: ChannelKey(c) in canSend &&
                                   canSend[ChannelKey(c)] == Permitted(serverResult, websiteResult, cfg, c)
  {
    var server: ServerConfig? := null;
    var website: WebsiteConfig? := null;
    if serverResult != null {
      server := serverResult.server;
    }
    if websiteResult != null {
      website := websiteResult.website;
    }
    assert "simplePush" != "pushBullet" by {
      assert "simplePush"[0] != "pushBullet"[0];
    }
    var isSevere := false;
    canSend := map["simplePush" := false, "pushBullet" := false];
    if serverResult != null && server != null {
      isSevere := serverResult.IsSevere(table, now, sq.results);
      if isSevere && !serverResult.CanResendAlert(table, sq.alerts) {
        return false, canSend;
      }
      if server.CanSendAlert("simplePush", cfg.simplePush.default) {
        canSend := canSend["simplePush" := true];
      }
      if server.CanSendAlert("pushBullet", cfg.pushBullet.default) {
        canSend := canSend["pushBullet" := true];
      }
    }
    if websiteResult != null && website != null {
      isSevere := websiteResult.IsSevere(table, now, wq.results);
      if isSevere && !websiteResult.CanResendAlert(table, wq.alerts) {
        return false, canSend;
      }
      if website.CanSendAlert("simplePush", cfg.simplePush.default) {
        canSend := canSend["simplePush" := true];
      }
      if website.CanSendAlert("pushBullet", cfg.pushBullet.default) {
        canSend := canSend["pushBullet" := true];
      }
    }
    proceed := isSevere;
  }

  /**
   * `SendAlerts` (alert.go:10-90): after `EvaluateTargets`, notifies every
   * enabled and permitted channel, then records the alert under the id of the
   * website result if one is given, else the server result's.
   */
  method SendAlerts(serverResult: ServerCheck?, websiteResult: WebsiteCheck?, subject: string, message: string,
                    cfg: AlertConfig, table: SeverityTable, now: int, sq: TargetQueries, wq: TargetQueries)
    returns (effects: seq<Effect>)
    ensures effects == Dispatch(serverResult, websiteResult, subject, message, cfg, table, now, sq, wq)
  {
    var proceed, canSend := EvaluateTargets(serverResult, websiteResult, cfg, table, now, sq, wq);
    if !proceed {
      return [];
    }
    assert ChannelKey(SimplePush) == "simplePush" && ChannelKey(PushBullet) == "pushBullet";
    effects := [];
    if cfg.simplePush.enabled && canSend["simplePush"] {
      effects := effects + [Notify(SimplePush, subject, message)];
    }
    if cfg.pushBullet.enabled && canSend["pushBullet"] {
      effects := effects + [Notify(PushBullet, subject, message)];
    }
    var alertId := "";
    if serverResult != null {
      alertId := serverResult.GetTestId();
    }
    if websiteResult != null {
      alertId := websiteResult.GetTestId();
    }
    if alertId == "" {
      assert false;
    } else {
      effects := effects + [SaveAlert(AlertRecord(alertId, now))];
    }
  }

  /** Nothing is sent and nothing is recorded unless the final verdict is severe. */
  lemma AlertOnlyWhenSevere(serverResult: ServerCheck?, websiteResult: WebsiteCheck?, subject: string, message: string,
                            cfg: AlertConfig, table: SeverityTable, now: int, sq: TargetQueries, wq: TargetQueries)
    ensures Dispatch(serverResult, websiteResult, subject, message, cfg, table, now, sq, wq) != [] ==>
              FinalSevere(serverResult, websiteResult, table, now, sq, wq)
    ensures !HasServer(serverResult) && !HasWebsite(websiteResult) ==>
              Dispatch(serverResult, websiteResult, subject, message, cfg, table, now, sq, wq) == []
  {
  }

  /** A severe target with an alert inside its resend window suppresses every send and the record. */
  lemma ThrottleSuppresses(serverResult: ServerCheck?, websiteResult: WebsiteCheck?, subject: string, message: string,
                           cfg: AlertConfig, table: SeverityTable, now: int, sq: TargetQueries, wq: TargetQueries)
    requires Throttled(serverResult, websiteResult, table, now, sq, wq)
    ensures Dispatch(serverResult, websiteResult, subject, message, cfg, table, now, sq, wq) == []
  {
  }

  /**
   * A channel is notified exactly when the call goes ahead and the channel is
   * globally enabled and permitted by an override or the global default; and
   * when the call goes ahead, its last effect is the alert record, keyed by the
   * website result's id if there is one, else the server result's, never empty.
   */
  lemma ChannelsAndRecord(serverResult: ServerCheck?, websiteResult: WebsiteCheck?, subject: string, message: string,
                          cfg: AlertConfig, table: SeverityTable, now: int, sq: TargetQueries, wq: TargetQueries, c: Channel)
    ensures var effects := Dispatch(serverResult, websiteResult, subject, message, cfg, table, now, sq, wq);
            var proceeds := !Throttled(serverResult, websiteResult, table, now, sq, wq) &&
                            FinalSevere(serverResult, websiteResult, table, now, sq, wq);
            && (Notify(c, subject, message) in effects <==> proceeds && Sends(serverResult, websiteResult, cfg, c))
            && (proceeds ==> effects[|effects| - 1] == SaveAlert(AlertRecord(AlertIdOf(serverResult, websiteResult), now)))
            && (proceeds ==> AlertIdOf(serverResult, websiteResult) != "")
            && (forall e :: e in effects && e.SaveAlert? ==> e == effects[|effects| - 1])
  {
  }

  /**
   * Throttle invariant: when the alerts query succeeds with an answer that holds
   * at least the stored alerts for the id inside the resend window (the backend's
   * token match may return more), and the store already holds one, no new alert
   * is recorded. A failed alerts query lets the alert through.
   */
  lemma NoAlertInsideResendWindow(serverResult: ServerCheck, subject: string, message: string,
                                  cfg: AlertConfig, table: SeverityTable, now: int, sq: TargetQueries,
                                  wq: TargetQueries, store: seq<AlertRecord>, earlier: AlertRecord)
    requires serverResult.server != null
    requires serverResult.GetSeverity(table).Some? ==>
               && sq.alerts.Success?
               && forall a :: a in AlertsSince(store, serverResult.GetTestId(), serverResult.ResendFrom(table, now), now) ==>
                    a in sq.alerts.value
    requires earlier in store && earlier.alertId == serverResult.GetTestId()
    requires serverResult.GetSeverity(table).Some? ==>
               serverResult.ResendFrom(table, now) <= earlier.timestamp <= now
    ensures forall e :: e in Dispatch(serverResult, null, subject, message, cfg, table, now, sq, wq) ==> !e.SaveAlert?
  {
    if serverResult.Severe(table, now, sq.results) {
      assert earlier in AlertsSince(store, serverResult.GetTestId(), serverResult.ResendFrom(table, now), now);
      assert earlier in sq.alerts.value;
    }
  }

  /**
   * The same throttle invariant for a website alert, the call at main.go:233
   * (`SendAlerts(nil, websiteResult, …)`): the record is keyed by the website id.
   */
  lemma NoWebsiteAlertInsideResendWindow(websiteResult: WebsiteCheck, subject: string, message: string,
                                         cfg: AlertConfig, table: SeverityTable, now: int, sq: TargetQueries,
                                         wq: TargetQueries, store: seq<AlertRecord>, earlier: AlertRecord)
    requires websiteResult.website != null
    requires websiteResult.GetSeverity(table).Some? ==>
               && wq.alerts.Success?
               && forall a :: a in AlertsSince(store, websiteResult.GetTestId(), websiteResult.ResendFrom(table, now), now) ==>
                    a in wq.alerts.value
    requires earlier in store && earlier.alertId == websiteResult.GetTestId()
    requires websiteResult.GetSeverity(table).Some? ==>
               websiteResult.ResendFrom(table, now) <= earlier.timestamp <= now
    ensures forall e :: e in Dispatch(null, websiteResult, subject, message, cfg, table, now, sq, wq) ==> !e.SaveAlert?
  {
    if websiteResult.Severe(table, now, wq.results) {
      assert earlier in AlertsSince(store, websiteResult.GetTestId(), websiteResult.ResendFrom(table, now), now);
      assert earlier in wq.alerts.value;
    }
  }

  /** Go's read of a `map[string]bool`: a missing key reads as false. */
  function Lookup(m: map<string, bool>, key: string): bool {
    if key in m then m[key] else false
  }

  /**
   * The older `SendAlerts` of main.go:13-82, as written: it knows only the
   * SimplePush channel and sends when `canSend["canSend"]` is true, a key the map
   * never holds (a missing key reads as false).
   */
  function LegacyDispatch(serverResult: ServerCheck?, websiteResult: WebsiteCheck?, subject: string, message: string,
                          cfg: AlertConfig, table: SeverityTable, now: int, sq: TargetQueries, wq: TargetQueries): (r: seq<Effect>)
    ensures r == [] <==> Throttled(serverResult, websiteResult, table, now, sq, wq) ||
                         !FinalSevere(serverResult, websiteResult, table, now, sq, wq)
  {
    var canSend := map["simplePush" := Permitted(serverResult, websiteResult, cfg, SimplePush)];
    var flag := Lookup(canSend, "canSend");
    if Throttled(serverResult, websiteResult, table, now, sq, wq) ||
       !FinalSevere(serverResult, websiteResult, table, now, sq, wq)
    then []
    else
      (if cfg.simplePush.enabled && flag then [Notify(SimplePush, subject, message)] else []) +
      [SaveAlert(AlertRecord(AlertIdOf(serverResult, websiteResult), now))]
  }

  /** The older dispatcher never notifies any channel, whatever the configuration: it only records alerts. */
  lemma LegacyNeverNotifies(serverResult: ServerCheck?, websiteResult: WebsiteCheck?, subject: string, message: string,
                            cfg: AlertConfig, table: SeverityTable, now: int, sq: TargetQueries, wq: TargetQueries)
    ensures forall e :: e in LegacyDispatch(serverResult, websiteResult, subject, message, cfg, table, now, sq, wq) ==>
              e.SaveAlert?
  {
    assert "canSend" != "simplePush";
  }

  /** The live dispatcher notifies SimplePush whenever the alert goes ahead and SimplePush is enabled and permitted. */
  lemma NotifiesWhenPermitted(serverResult: ServerCheck?, websiteResult: WebsiteCheck?, subject: string, message: string,
                              cfg: AlertConfig, table: SeverityTable, now: int, sq: TargetQueries, wq: TargetQueries)
    requires !Throttled(serverResult, websiteResult, table, now, sq, wq)
    requires FinalSevere(serverResult, websiteResult, table, now, sq, wq)
    requires Sends(serverResult, websiteResult, cfg, SimplePush)
    ensures Dispatch(serverResult, websiteResult, subject, message, cfg, table, now, sq, wq)[0] ==
              Notify(SimplePush, subject, message)
  {
  }
}
