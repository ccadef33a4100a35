# Server monitor — a verified model

The system is a small monitoring daemon. It keeps a list of servers and a list of websites, each read from
JSON configuration.

**Checks.** On every tick of its main loop, the daemon does the following:
- for every enabled server without an SSH session, it calls the alert dispatcher with the subject "Server not connected" (this is judged like any other alert, under the id `<server>:-`);
- it starts the checks of every other enabled server or website that is not already running.

A server runs the commands of its checks over SSH. Those checks are its own, merged with those of the
groups it belongs to, and a later definition of a name replaces an earlier one. Each command's output is
judged in one of three ways:
- by an expected substring;
- by a regular expression whose captured column is compared with `greaterThan`, `lessThan` and `equals`;
- or not at all.

A website is requested with GET or POST. It is judged by its status code, its response time and a list of
header assertions.

**Results and alerts.** Every stored result is a document keyed by a test id. For a server check that id is
`<server>:<check>` with spaces turned into hyphens. For a website it is `website:<name>`, lower-cased with
spaces turned into hyphens.

A target with a severity is judged severe in two cases. Either the query for its stored results fails, or the
proportion of failures among its results inside its severity window exceeds the severity's threshold while
some stored result predates the window. Without a severity it is never severe. An alert is throttled when another one was recorded for the same id inside the
severity's resend interval. Notifications go to SimplePush and PushBullet, each globally enabled, with a
global default that a target can override per channel. Each alert that goes ahead is recorded.

**The model.** It is written module by module along the Go files:

| module | file | models |
|---|---|---|
| `Text` | text.dfy | the string helpers the source uses: space replacement, ASCII lower-casing, substring search, `strings.Join`, `strconv.Atoi` and decimal printing |
| `Config` | config.dfy | the configuration records, severity lookup, alert overrides, and the load-time severity warnings |
| `Storage` | storage.dfy | the Elasticsearch queries as values, and the alert history filter |
| `Window` | window.dfy | the severity window count shared by server and website results |
| `ServerCheckDb`, `WebsiteCheckDb` | server_check_db.dfy, website_check_db.dfy | the stored result objects: ids, names, severities, the severity verdict, the resend throttle and the stored document |
| `Alerting` | alerting.dfy | `SendAlerts` as a method whose effects are the notifications and the alert record, plus the older dispatcher in main.go |
| `Ssh` | ssh.dfy | connecting, reconnecting and running a command with one retry, over a scripted SSH library |
| `ServerRun` | server_run.dfy | `runServerChecks`: merging checks, judging each check, deduplicating regex messages, and the stored document and alert per check |
| `WebsiteRun` | website_run.dfy | `runWebsiteChecks`: judging a response and the header loop |
| `Scheduler` | scheduler.dfy | one tick of the main loop, and the "any check still running" scan |

**Boundaries.** The daemon's side effects are modelled as values or as inputs:
- Storage reads are inputs of type `Query<T>`, which is a `Result` of the rows or the error.
- Storage writes, notifications and started goroutines are returned as values.
- The clock is a parameter `now`, a whole number of seconds. Severity windows are counted in minutes of 60 seconds.
- Running a command is an input function `run`.
- The regular expression's `FindAllStringSubmatch` is an input function `findAll`.
- An HTTP response is an input of type `Result<HttpResponse, string>`.

## Model

| member | source | states |
|---|---|---|
| Text.ReplaceSpaces | database_server_check.go:32-38 | the result has the input's length; every space becomes `-` and every other character is kept |
| Text.Contains | main.go:117 | a match needs the text to be at least as long as the expected substring, and the empty substring always matches |
| Text.ToLower | database_website_check.go:29-34 | the result has the input's length; ASCII upper-case letters are mapped to lower case and all else is kept |
| Text.Join | main.go:157 | joining a single message gives that message unchanged |
| Text.NatToString | main.go:135 | the decimal text of a natural is non-empty, made only of digits, and starts with `0` only for zero |
| Text.IntToString | main.go:135 | the text starts with `-` exactly for negative numbers, followed then by the digits of the magnitude |
| Text.ScanDigits | main.go:133 | a scan that completes stays within the unsigned 64-bit range |
| Text.Atoi | main.go:133 | whatever the text, the value read lies in the signed 64-bit range |
| Text.ScanDigitsAppend | main.go:133 | scanning one more character continues from the value already read |
| Text.ScanNatToString | main.go:133-135 | scanning the printed form of a natural below 2^64 gives the natural back |
| Text.AtoiIntToString | main.go:133-135 | `Atoi` inverts decimal printing for every 64-bit integer |
| Config.Check.Severity | config.go:321-323 | a check's severity is the table entry named by its severity type, and absent when there is none |
| Config.ServerConfig.CanSendAlert | config.go:301-307 | a server's override for the channel decides when present; otherwise the global default does |
| Config.ServerConfig.Severity | config.go:325-327 | a server's severity is the table entry named by its severity type, and absent when there is none |
| Config.WebsiteConfig.CanSendAlert | alert.go:43-48 | a website's override for the channel decides when present; otherwise the global default does |
| Config.WebsiteConfig.Severity | config.go:329-331 | a website's severity is the table entry named by its severity type, and absent when there is none |
| Config.ResolveSeverity | config.go:309-319 | the lookup finds an entry exactly when the type is a key of the table, and then returns that entry |
| Config.SeverityWarning | config.go:185-191 | no warning exactly when the severity type resolves; the "not specified" warning exactly when the type is empty |
| Config.ServerWarnings | config.go:179-194 | at most one warning per server; every server whose severity does not resolve is warned about, and every warning is one server's |
| Config.ServerWarningsAppend | config.go:185-191 | the warnings are exactly each server's own warning, in server order: adding a server appends its warning, if it has one |
| Config.WebsiteWarnings | config.go:200-216 | the same as `ServerWarnings`, for websites |
| Config.WebsiteWarningsAppend | config.go:207-213 | the warnings are exactly each website's own warning, in website order |
| Storage.AlertsSince | database_server_check.go:247-275 | the idealised exact answer of the alert query: precisely the stored alerts for the id whose time lies inside the range (the backend's answer may hold more; see Left out) |
| Window.InWindow | database_server_check.go:178-182 | the window never holds more results than the history |
| Window.InWindowMembers | database_server_check.go:178-182 | a result is in the window exactly when it is in the history and stamped at or after the window's start |
| Window.Severe | database_server_check.go:192 | a severe verdict needs a result older than the window and a non-empty window |
| Window.Failures | database_server_check.go:183-187 | the failure count never exceeds the number of results |
| Window.Tally | database_server_check.go:178-190 | the loop reports whether an older result exists, the failures inside the window and the size of the window |
| Window.NoOlderNeverSevere | database_server_check.go:192-194 | without a result older than the window, the verdict is never severe |
| Window.EmptyWindowNeverSevere | database_server_check.go:192-196 | an empty window is never severe |
| Window.SevereBounds | database_server_check.go:192-196 | with a threshold that is not negative, a severe verdict needs a failure in the window; a threshold of 100 or more is never exceeded |
| Window.OnlyWindowCounts | database_server_check.go:178-196 | results inside the window decide the verdict, together with whether an older one exists |
| Window.FailMoreCounts | database_server_check.go:183-187 | turning a pass into a failure keeps the window's size and never lowers its failure count |
| Window.FailuresAppend | database_server_check.go:183-187 | appending at most one result adds its failure to the count |
| Window.SevereMonotone | database_server_check.go:178-196 | turning a pass into a failure never turns a severe verdict into a non-severe one |
| ServerCheckDb.TestIdFor | database_server_check.go:32-38 | the id is one character longer than the two names together and contains no space |
| ServerCheckDb.ServerCheck.GetTestId | database_server_check.go:32-38 | the id of a result is `TestIdFor` of its server name and check name |
| ServerCheckDb.ServerCheck.GetServerName | database_server_check.go:40-46 | the server's name, or `-` without a server |
| ServerCheckDb.ServerCheck.GetCheckName | database_server_check.go:48-54 | the check's name, or `-` without a check |
| ServerCheckDb.ServerCheck.GetMapping | database_server_check.go:56-73 | the stored document carries the test id, both names and the verdict; the timestamp is `now` when asked to set it and is left unchanged otherwise |
| ServerCheckDb.ServerCheck.GetSeverity | database_server_check.go:132-145 | the check's severity when the check names one that exists, else the server's |
| ServerCheckDb.ServerCheck.GetSeverityName | database_server_check.go:147-159 | the check's severity type when it resolves, else the server's |
| ServerCheckDb.ServerCheck.Severe | database_server_check.go:161-197 | a severe verdict always has a resolving severity behind it |
| ServerCheckDb.ServerCheck.IsSevere | database_server_check.go:161-197 | the counting method returns the `Severe` verdict: never severe without a severity, severe when the results query fails |
| ServerCheckDb.ServerCheck.CanResendAlert | database_server_check.go:199-215 | given a resolving severity, an alert may be sent exactly when the alerts query fails or finds none |
| ServerCheckDb.SeverityNameAgrees | database_server_check.go:132-159 | the severity name names the severity that `GetSeverity` picks |
| ServerCheckDb.TestIdSplits | database_server_check.go:32-38 | when server names hold no colon, equal ids mean equal names after space replacement |
| ServerCheckDb.TestIdKeepsCase | database_server_check.go:32-38 | every character of either name other than a space appears unchanged in the server id, so ids are not lower-cased |
| ServerCheckDb.TestIdSpaceHyphenCollide | database_server_check.go:32-38 | two different servers, one named with a space and one with a hyphen, share an id |
| WebsiteCheckDb.WebsiteTestIdFor | database_website_check.go:29-34 | the id starts with `website:` and is eight characters longer than the name |
| WebsiteCheckDb.WebsiteTestIdContent | database_website_check.go:29-34 | after the prefix, each space of the name becomes `-` and every other character is lower-cased |
| WebsiteCheckDb.WebsiteCheck.GetTestId | database_website_check.go:29-34 | the id of a result is `WebsiteTestIdFor` of its website name |
| WebsiteCheckDb.WebsiteCheck.GetWebsiteName | database_website_check.go:36-42 | the website's name, or `-` without a website |
| WebsiteCheckDb.WebsiteCheck.GetMapping | database_website_check.go:44-59 | the stored document carries the test id, the name and the verdict; the timestamp is `now` when asked to set it and is left unchanged otherwise |
| WebsiteCheckDb.WebsiteCheck.GetSeverity | database_website_check.go:118-125 | the website's severity, and absent without a website |
| WebsiteCheckDb.WebsiteCheck.GetSeverityName | database_website_check.go:127-134 | the website's severity type, and empty without a website |
| WebsiteCheckDb.WebsiteCheck.Severe | database_website_check.go:154-190 | a severe verdict always has a resolving severity behind it |
| WebsiteCheckDb.WebsiteCheck.IsSevere | database_website_check.go:154-190 | the counting method returns the `Severe` verdict: never severe without a severity, severe when the results query fails |
| WebsiteCheckDb.WebsiteCheck.CanResendAlert | database_website_check.go:136-152 | given a resolving severity, an alert may be sent exactly when the alerts query fails or finds none |
| WebsiteCheckDb.SeverityNameAgrees | database_website_check.go:118-134 | the severity name names the severity that `GetSeverity` picks |
| WebsiteCheckDb.WebsiteTestIdHasNoSpace | database_website_check.go:29-34 | a website id never contains a space |
| WebsiteCheckDb.WebsiteTestIdIgnoresCase | database_website_check.go:29-34 | names that differ only in ASCII case share an id |
| WebsiteCheckDb.ServerAndWebsiteIdsCanCollide | database_website_check.go:29-34 | a server check's id can equal a website's id, so the two kinds share throttle history |
| Alerting.EvaluateTargets | alert.go:11-53 | the call goes ahead exactly when no severe target is throttled and the final verdict is severe; then each channel's flag is its permission by either target |
| Alerting.Dispatch | alert.go:10-90 | nothing happens exactly when a severe target is throttled or the final verdict is not severe; otherwise at most three effects, the last being the alert record |
| Alerting.SendAlerts | alert.go:10-90 | the effects are exactly `Dispatch`: nothing, or the permitted notifications in channel order and then the alert record |
| Alerting.AlertOnlyWhenSevere | alert.go:51-53 | any effect implies a severe final verdict; with no evaluable target nothing happens |
| Alerting.ThrottleSuppresses | alert.go:25-42 | a severe target inside its resend window suppresses every notification and the record |
| Alerting.ChannelsAndRecord | alert.go:54-89 | a channel is notified exactly when the call goes ahead and the channel is enabled and permitted; the one record comes last, with a non-empty id taken from the website result if given |
| Alerting.NoAlertInsideResendWindow | alert.go:25-29 | when the alerts query succeeds with at least the stored in-window alerts for the id, and one exists, no new alert is recorded |
| Alerting.NoWebsiteAlertInsideResendWindow | alert.go:38-42 | the same for a website alert: when the website's alerts query succeeds with at least the stored in-window alerts for its id, and one exists, no new alert is recorded |
| Alerting.LegacyDispatch | main.go:13-82 | the older dispatcher acts exactly when no severe target is throttled and the final verdict is severe |
| Alerting.LegacyNeverNotifies | main.go:51-53 | the older dispatcher never notifies any channel |
| Alerting.NotifiesWhenPermitted | alert.go:56-58 | the live dispatcher notifies SimplePush first whenever the call goes ahead and SimplePush is enabled and permitted |
| Ssh.SshLibrary.NewSession | ssh.go:62 | a session opens exactly when the client is not closed and the next scripted answer is yes; a closed client is refused without consuming the script |
| Ssh.SshLibrary.Dial | ssh.go:27-30 | dialling consumes one scripted answer; success yields a fresh client |
| Ssh.Connect | ssh.go:17-36 | a session exists exactly when dialling succeeds, and it is fresh and holds the new client and the server |
| Ssh.Reconnect | ssh.go:38-56 | the old client is closed first when there is one; success installs a fresh session for this server; failure leaves the session as it was |
| Ssh.RunCommand | ssh.go:58-81 | no client means `NotConnected`; a failed first open without retry reports the failure; with retry, the server's old client is closed, one redial replaces the session only on success, and the result is decided by a second open on the receiver's own client. When the receiver is the server's session, the retry always fails; `inProgress` never changes |
| Ssh.RunCommandOnNewSession | ssh.go:64-68 | the corrected retry: after a successful redial, the second open is on the new, unclosed client and succeeds whenever the script allows; after a failed redial the call fails |
| Ssh.RunCommandAttempts | ssh.go:62-69 | one or two session opens, all on the session's own client, and at most one dial |
| ServerRun.PutAll | main.go:92-94 | the map after the loop is the map with each check put under its name in order |
| ServerRun.AddGroup | main.go:90-97 | a group's checks are put once per time the server lists the group |
| ServerRun.MergeChecks | main.go:87-101 | the merged map is `EffectiveChecks`: the listed groups' checks in global group order, then the server's own checks |
| ServerRun.PutLookup | main.go:93 | a name maps to the last check of that name put, or keeps its old value when none was |
| ServerRun.IncludedIff | main.go:89-98 | a check is included exactly when some listed group holds it |
| ServerRun.GroupHitsIff | main.go:90-97 | a group contributes a check exactly when the server lists the group and the group holds the check |
| ServerRun.DirectWins | main.go:99-101 | a server's own check replaces any group check of the same name |
| ServerRun.GroupOnlyIfListed | main.go:87-101 | every merged check is the server's own or comes from a listed group; each own check and each listed group's name is present |
| ServerRun.LaterGroupWins | main.go:89-98 | among listed groups sharing a check name, the one latest in the global list provides it unless the server defines the name |
| ServerRun.KeysAreNames | main.go:93 | every key of the merged map is the name of the check stored under it |
| ServerRun.RowViolations | main.go:132-145 | one row yields at most three messages |
| ServerRun.RowFailsIff | main.go:132-145 | a row yields a message exactly when its number is at most `greaterThan`, at least `lessThan`, or its text differs from `equals` |
| ServerRun.EvaluateRegex | main.go:131-146 | the loop collects the messages of every row in row order and passes exactly when there are none |
| ServerRun.ViolationsEmptyIff | main.go:131-147 | there are no messages exactly when no row yields one |
| ServerRun.FirstIndex | main.go:148-155 | the index of the first occurrence, with no earlier one |
| ServerRun.Distinct | main.go:148-155 | deduplication keeps the same set of messages and has no repetition |
| ServerRun.DistinctKeepsFirstOrder | main.go:148-155 | messages keep the order of their first occurrence |
| ServerRun.DistinctOfDistinct | main.go:148-155 | a list without repetition is unchanged |
| ServerRun.DistinctIdempotent | main.go:148-155 | deduplicating twice is deduplicating once |
| ServerRun.Dedup | main.go:148-155 | the loop with the `uniqueErrors` map computes `Distinct` |
| ServerRun.Classify | main.go:110-161 | a stored verdict carries an alert message exactly when it fails |
| ServerRun.CommandErrorSkips | main.go:110-115 | a command that fails to run leaves no stored result and no alert |
| ServerRun.SubstringDecides | main.go:116-123 | an expected substring decides alone: present is a stored pass, absent stores nothing |
| ServerRun.MissingIndexPasses | main.go:124-126 | a regex without an index leaves the check passing |
| ServerRun.RegexFailsIff | main.go:124-160 | an evaluated regex fails the check exactly when some row yields a message, and then the alert joins each distinct message once, in first-occurrence order |
| ServerRun.RunOne | main.go:102-174 | one check's stored document and alert are those `ExpectedReport` gives |
| ServerRun.RunServerChecks | main.go:84-177 | each merged check runs exactly once with its expected report, and the server is not busy afterwards |
| WebsiteRun.ResponseReasons | main.go:208-216 | at most two messages; none exactly when the status matches (or is not asserted) and the time is within its limit (or not asserted) |
| WebsiteRun.HeaderMessages | main.go:217-227 | one "should not exist" message per header in the given order |
| WebsiteRun.CheckHeaders | main.go:217-227 | the loop reports each header configured with an empty value exactly once, in some order, and nothing else |
| WebsiteRun.RunWebsiteChecks | main.go:179-245 | a failed request gives one message; otherwise the response messages and then the header messages; the result passes exactly when there are none, the alert joins them, and the website is not busy afterwards |
| WebsiteRun.ResponseHeadersIgnored | main.go:218-226 | the verdict never depends on the response's headers |
| WebsiteRun.ValuedHeadersNeverFail | main.go:218-226 | a header assertion with a non-empty value never fails the website |
| WebsiteRun.FailedRequestFails | main.go:205-206 | a failed request always fails the website |
| Scheduler.SelectTick | main.go:275-303 | the tick's actions are the servers' actions in order, then the websites' |
| Scheduler.ServerActionsIff | main.go:275-292 | a server gets a not-connected alert exactly when it is enabled and has no session; it gets its checks started exactly when it is enabled, connected and not busy |
| Scheduler.WebsiteActionsIff | main.go:293-303 | a website gets its checks started exactly when it is enabled and not busy |
| Scheduler.NotConnectedAlert | main.go:281-285 | the not-connected alert is recorded under `<server>:-`, and does not go ahead when the results query for that id answers with no rows |
| Scheduler.HasRunning | main.go:253-271 | the scan reports a running check exactly when some server or website is busy |

**Reading of the source where the model is subtle.**
- **Header assertions.** `runWebsiteChecks` compares each configured header with a value looked up in the
  same configured map, not in the response. A header configured with an empty value fails as "should not
  exist". A header with a non-empty value can therefore never fail, and the response's headers are never
  read. The model keeps this comparison as written.
- **Failure paths that skip storage.** When a server check's command fails, or its expected substring is
  missing, the loop hits `continue` after building the alert closure. The model follows this: no document
  is stored and no alert is raised for that check.
- **Retrying a command.** `RunCommand` with retry reconnects the server. It then calls itself on the same
  receiver, whose client is the old one, which the reconnect has just closed when the receiver is the
  server's session. The model retries on that same session. A closed client cannot open a session (the SSH
  library's behaviour), so this retry always fails; see Findings.
- **Server test ids.** These carry no `server:` prefix. The model uses the id the code builds.
- **Sparse history.** A target counts as severe only when some stored result predates the window. There
  is no estimate from a short history. The model uses the code's rule.
- **Severity names in alerts.** `SendAlerts` computes a severity name only for the log line; the model
  leaves the log out.

## Left out

- Goroutines: `runServerChecks`, `runWebsiteChecks` and `SendAlerts` are started concurrently in the source. The model runs each to completion and returns the requests it would start, so interleavings and races on `inProgress` are not modelled.
- The busy-wait loop around `HasConfigChanges` and the `time.Sleep` between ticks: only one scan (`HasRunning`) and one tick (`SelectTick`) are modelled, because reloading and the clock are outside the model.
- Storage I/O: `Save`, `GetResultsSince` and the Elasticsearch client, including the 1000-row page size and the one-minute slack in the time filter, are left out. Query answers are inputs and writes are returned values.
- The HTTP client, `AlertSimplePush` and `AlertPushBullet`: notifications are effects, and a request's answer is an input.
- Logging through `Info`, `Warn` and `Error`, and the `fmt.Println` debug line, are left out. Only the configuration warnings are modelled, because they carry a decision.
- Configuration file plumbing (`loadJson`, modification times, `CheckConfigChanges`, `HasConfigChanges`) is left out. The modelled loaders start from already decoded values.
- `regexp.Compile` and `FindAllStringSubmatch` are an input function `findAll` from the expression and the output to the rows. In the source, an expression that does not compile leaves `regex` nil. The call at main.go:129 then panics and stops the daemon. The model has no compile step and takes `findAll` as total, so it does not capture that panic.
- ServerRun.Classify: requires that every row holds the configured index (`IndexInRange`); `RunOne` and `RunServerChecks` require the same through `Evaluable`. In the source an index outside a row panics at main.go:132, and that panic is not modelled.
- Storage.AlertsSince: the source's query is an Elasticsearch match query on `alertId`, which is mapped as `text`. database_server_check.go:249 ORs its analysed tokens, so alerts whose ids merely share a token are returned too. database_website_check.go:224 ANDs them, which is still not an exact match, and both queries are capped at 1000 rows. The model's answer is the exact one. `Alerting.NoAlertInsideResendWindow` accepts any successful answer that contains it.
- The results query `GetResultsSince` is likewise a match query on `testId`, which is mapped as `text` (database_server_check.go:219), so its answer can include results of other ids sharing a token, for example the same server's other checks. Result histories are inputs of the model, so this is not modelled; in particular the not-connected alert's id `<server>:-` can find rows in the daemon, and `Scheduler.NotConnectedAlert` states only the case of an empty answer.
- `GetId` of results and alerts formats a time into the document id. Time formatting is left out, so the stored documents carry the test id and the timestamp.
- ServerCheckDb.ServerCheck.IsSevere: the failure percentage is computed in `float32` in the source and as exact rational arithmetic here (`failures * 100 > threshold * total`), so rounding at the boundary is not modelled.
- WebsiteCheckDb.WebsiteCheck.IsSevere: the same exact-arithmetic simplification of the `float32` percentage.
- WebsiteRun.RunWebsiteChecks: requires that a website with a method other than GET or POST asserts no status code and no response time. The source then reads a nil response, which would panic; the panic is not modelled.
- ServerCheckDb.ServerCheck.CanResendAlert: requires a resolving severity. The source dereferences the severity without a nil check, which is safe because `SendAlerts` asks only after a severe verdict, and a severe verdict needs a severity.
- WebsiteCheckDb.WebsiteCheck.CanResendAlert: requires a resolving severity, for the same reason.
- WebsiteRun.RunWebsiteChecks: the response time is a whole number of milliseconds rather than `float64` seconds times 1000, and the messages print it as an integer.
- Text.ToLower: only ASCII letters are lowered. Go's `strings.ToLower` also folds other Unicode letters.
- `ServerConfig.Port` is an `int16` in the source and an unbounded `int` here, because no modelled operation does arithmetic on it.
- api.go, logger.go, database.go, database_alert.go, database_intervention.go and the `mapping` package are not part of this model. They hold the HTTP API, logging, the index set-up and the document mappings.
- main.go:13 and alert.go:10 both declare a package-level `SendAlerts` in `package main`, which Go rejects as a redeclaration, so the files as given do not build together. The model takes alert.go's function as the one called at main.go:113, 120, 157, 233 and 282 (`Alerting.SendAlerts`), and models main.go's as the older dispatcher `Alerting.LegacyDispatch`.
- main.go:103 calls `RunCommand` with one argument, while ssh.go:58 declares two. `RunServerChecks` therefore takes command execution as an abstract input `run`, and `Ssh.RunCommand` is modelled separately.
- config.go does not declare `Enabled` and `Alerts` on `WebsiteConfig`, `Enabled` on `ServerConfig`, or `PushBullet` on `AlertConfig`, although the code uses them. The model gives them the types that use implies: bool, a map of string to bool, and a channel setting.
- The SSH transport (key files, `ssh.Dial` and the session's output buffer) is replaced by an `SshLibrary` that answers from scripted outcomes and records which clients sessions were opened on.
- `RunServerChecks` takes the command runner `run` as a function of the command text, so two merged checks with the same command see the same output. In the source, main.go:103 runs each check's command separately, and the two runs may answer differently.
- `RunServerChecks` evaluates the map loop in any order, through a nondeterministic choice of the next key. Go's randomised map order is therefore covered, but a particular order is not.
- The loop variable `check` captured by the closure in `runServerChecks` is treated as the current check (Go 1.22 semantics). The closure is never called on the paths where it is created before a `continue`.

## Findings

| source | as written | input that shows it | evidently intended | confidence | as-written member | corrected member |
|---|---|---|---|---|---|---|
| ssh.go:66 | after `sshReconnect`, the retry runs again on the old receiver, whose client the reconnect has just closed when the receiver is `server.Session` (as at main.go:103) | the first session-open fails, then the redial succeeds: the retry still fails, on the closed client | retry on the new `server.Session` | not executed | Ssh.RunCommand | Ssh.RunCommandOnNewSession |
| main.go:51 | the older `SendAlerts` in main.go (which Go cannot build beside alert.go's function of the same name; see Left out) sends SimplePush only when `canSend["canSend"]` is true, a key never set, so it never notifies | any severe, unthrottled alert with SimplePush enabled and permitted | test `canSend["simplePush"]`, as alert.go:56 does | not executed | Alerting.LegacyNeverNotifies | Alerting.NotifiesWhenPermitted |
