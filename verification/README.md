# TamperBay in Dafny

TamperBay is a small HTTP verb-tampering probe. Given a host (`-u`) and a
per-request timeout (`-t`), it makes sure the target names a scheme (it adds
`https://` when none is given). Then it sends OPTIONS, HEAD, GET, POST, PUT,
TRACE and CONNECT to that target, one after the other. POST and PUT carry the
body `verb=tampering`. After each response it logs:

- a method-specific check. OPTIONS reports the `Allow` header (section 10.2.1
  of RFC 9110). TRACE reports `Via` (section 7.6.3 of RFC 9110). CONNECT warns
  on status 407 (section 15.5.8 of RFC 9110).
- one summary record with the status, the body length and the number of
  distinct header fields.

Any error while building a request, sending it or reading its body is fatal and
ends the process, so nothing after that step is sent.

Below, a request is *issued* once the program hands it to the HTTP layer, which
builds it, sends it and reads the response. A request that fails to build is
issued but never reaches the network.

The model has five modules, one per file:

- `Wrappers` (wrappers.dfy): `Option` and `Result`.
- `Http` (http.dfy): the seven methods, header fields as a map from canonical
  name to values, with `Get`, and responses and requests. It also holds the
  abstract outcome of one exchange: `Failed(stage, reason)` or
  `Received(response)`.
- `Target` (target.dfy): normalisation of the hostname.
- `Reporting` (report.dfy): the structured log entries, and `Report`, which
  lists what is logged about one response.
- `TamperBay` (tamperbay.dfy): the fixed schedule and the program as a whole.
  - Class `Process` holds the program's package-level variables: `hostname`,
    `timeout`, `requestStatus`, `bodyLength` and `uniqueHeaders`. It also holds
    what the run makes observable: the requests handed to the HTTP layer, the
    log and how the process ends.
  - `Process.Run`, `Process.RunSchedule` and `Process.MakeRequest` update that
    state in place. Each is proved equal to a specification function:
    `MainSpec`, `RunPlan` and `MakeRequestStep`.
  - Lemmas about those functions state what a whole run does. They compare a
    run with reference definitions that stand apart from it: `FirstFailure`,
    `Attempted`, `Outcome` and `Expected`.

The network is a parameter `net: Request -> Exchange`. What the HTTP client
would do with a request is not modelled beyond the outcome it returns.

## Model

| member | source | states |
|---|---|---|
| `Http.Get` | main.go:105-115 | A header lookup yields "" exactly when the field is absent, has no value or has an empty first value. Otherwise it yields the first value. |
| `Target.Normalize` | main.go:32-38 | It fails exactly on the empty hostname. Otherwise the target always begins with `https://` or `http://`, still ends with the hostname, and grows by at most the `https://` prefix. |
| `Target.NormalizeKeepsScheme` | main.go:35-37 | A hostname that already begins with `https://` or `http://` is returned unchanged. |
| `Target.NormalizeAddsHttps` | main.go:35-37 | A non-empty hostname with neither prefix becomes `"https://" + hostname`. |
| `Target.NormalizeIdempotent` | main.go:35-37 | Normalising a normalised target changes nothing. |
| `Http.NamesDistinct` | main.go:40-70 | Distinct methods have distinct tokens. So the source's comparisons on the method string (lines 103, 110, 117) tell the same methods apart as the model's datatype does. |
| `Reporting.LevelOf` | main.go:33-119 | Severity: `log.Warn` at lines 106, 113 and 119 gives exactly the no-`Allow`, no-`Via` and 407 entries a warning. `log.Fatal` at lines 33, 82, 89 and 94 makes exactly the missing-host and request-error entries fatal. Every other entry is informational. |
| `Reporting.ErrorText` | main.go:80-95 | Each fatal request-error message ends with the error's description, verbatim. |
| `Reporting.Message` | main.go:80-116 | The logged `Allow` and `Via` values end their messages verbatim, and so do the descriptions of request errors. |
| `Reporting.Alarm` | main.go:106-119 | The alarm for OPTIONS, TRACE and CONNECT is logged at warning severity. |
| `Reporting.ChecksWarnings` | main.go:103-121 | The only warning among the method-specific messages is the method's alarm. It is logged when the response is suspicious, and only then. |
| `Reporting.ReportWarnings` | main.go:103-131 | The warnings logged about one response are exactly its method's alarm when the response is suspicious, and none otherwise. |
| `Reporting.ChecksFacts` | main.go:103-121 | The method-specific messages hold no summary record and at most one warning. They hold a warning exactly when the response is suspicious: OPTIONS without `Allow`, TRACE without `Via`, or CONNECT with status 407. |
| `Reporting.Report` | main.go:99-131 | What is logged about one response ends with its only summary record, which holds the status, the body length and the number of distinct header keys. It holds a warning, never more than one, exactly when the response is suspicious. |
| `Reporting.OptionsReport` | main.go:103-109 | For OPTIONS, the warning is logged exactly when `Allow` is absent, has no value or has an empty first value. In that case the log for the response is exactly the check line, the warning and the summary, with no `Allow` value. Otherwise the first `Allow` value is logged verbatim and there is no warning. |
| `Reporting.TraceReport` | main.go:110-116 | For TRACE, the warning is logged exactly when `Via` reads empty. In that case the log for the response is exactly the check line, the warning and the summary, with no `Via` value. Otherwise the first `Via` value is logged verbatim and there is no warning. |
| `Reporting.ConnectReport` | main.go:117-121 | For CONNECT, the proxy-authentication warning is logged exactly on status 407. For any other status, only the summary is logged. |
| `Reporting.PlainReport` | main.go:103-123 | HEAD, GET, POST and PUT get the summary record and nothing else. |
| `TamperBay.ExitCode` | main.go:81-95 | The process exits with status zero exactly when no fatal error ended it. |
| `TamperBay.FirstFailure` | main.go:81-95 | This is the index of the first step whose exchange fails, or the number of steps when none fails. Every earlier step received a response. |
| `TamperBay.Attempted` | main.go:40-95 | The requests issued are one per step, in order, up to and including the first failing step. |
| `TamperBay.Outcome` | main.go:81-95 | The run ends normally exactly when no step fails. Otherwise it ends with the stage of the first failure. |
| `TamperBay.Expected` | main.go:99-131 | There is one summary record per completed step, in order, with that response's figures. |
| `TamperBay.Alerts` | main.go:40-121 | There are no more expected warnings than completed steps. |
| `TamperBay.AlertsComplete` | main.go:103-121 | Every completed step whose response is suspicious contributes its method's alarm to the expected warnings. |
| `TamperBay.AlertsSound` | main.go:103-121 | Every expected warning is the alarm of some completed step whose response is suspicious. |
| `TamperBay.PlanShape` | main.go:40-71 | The schedule is OPTIONS, HEAD, GET, POST, PUT, TRACE, CONNECT, each once. Only POST and PUT carry `verb=tampering`. |
| `TamperBay.AdvanceFacts` | main.go:74-101 | One step issues exactly one request to the given target and leaves the target and timeout unchanged. It ends the process exactly when its exchange fails, logging the announcement and then the fatal message with the failing stage and the error. It overwrites the three globals with the response's figures only when the exchange succeeds. |
| `TamperBay.RunPlanKeeps` | main.go:36-71 | Working through the schedule never changes the target or the timeout. |
| `TamperBay.RunPlanIssues` | main.go:40-95 | Working through the schedule issues exactly the requests of `Attempted`, after those issued before. |
| `TamperBay.RunPlanExit` | main.go:81-95 | Working through the schedule ends exactly as `Outcome` says. |
| `TamperBay.StepSummaries` | main.go:99-123 | One step adds one summary record when its exchange succeeds and none when it fails. |
| `TamperBay.RunPlanSummaries` | main.go:99-131 | The summary records a run adds to the log are exactly those of `Expected`. |
| `TamperBay.StepWarnings` | main.go:74-121 | One step adds its method's alarm when the exchange succeeds with a suspicious response. Otherwise it adds no warning, even on a fatal error. |
| `TamperBay.RunPlanWarnings` | main.go:40-121 | The warnings a run adds to the log are exactly `Alerts`, after those logged before. |
| `TamperBay.RunPlanCounters` | main.go:99-101 | Afterwards, the globals hold the figures of the last completed response, or their earlier values when no request completed. |
| `TamperBay.RunPlanFatal` | main.go:80-95 | A run that fails ends its log with the fatal message of its first failure, which gives that failure's stage and error. |
| `TamperBay.MainRuns` | main.go:32-71 | With a hostname, the program works through the schedule against the normalised target. |
| `TamperBay.MainWithoutHost` | main.go:32-33 | An empty hostname logs the fatal message and ends the process with a non-zero status. No request of any method is issued. |
| `TamperBay.MainSchedule` | main.go:40-95 | A run issues the steps up to and including the first failing one, or all seven. It exits normally exactly when none fails, and otherwise ends with that failure. |
| `TamperBay.AttemptedFollowsOrder` | main.go:40-71 | The requests issued follow the method order. Each carries the body only POST and PUT have, and all seven are issued when nothing fails. |
| `TamperBay.MainRequests` | main.go:40-71 | A run issues OPTIONS, HEAD, GET, POST, PUT, TRACE, CONNECT in that order, at most once each, all to the same normalised target with the configured timeout. Only POST and PUT carry `verb=tampering`. A normal exit means all seven were issued. |
| `TamperBay.FatalStopsSchedule` | main.go:81-95 | If step k is the first to fail, exactly k+1 requests are issued, the last one being step k's method. The process ends with that failure, and the last entry logged is its fatal message. |
| `TamperBay.MainSummaries` | main.go:123-131 | Every completed request logs exactly one summary record, in schedule order, with its status, body length and header count. |
| `TamperBay.MainWarnings` | main.go:32-121 | The warnings a run logs are exactly `Alerts` over the schedule, against the normalised target. |
| `TamperBay.AlarmRaised` | main.go:103-121 | Consider a step whose method has an alarm and occurs nowhere else in the calls. Its alarm is among the expected warnings exactly when that step completed with a suspicious response. |
| `TamperBay.PlanAllowAlarm` | main.go:40-109 | The schedule raises the missing-`Allow` warning exactly when the OPTIONS request (step 0) completed and its `Allow` reads empty. |
| `TamperBay.PlanViaAlarm` | main.go:65-116 | The schedule raises the missing-`Via` warning exactly when the TRACE request (step 5) completed and its `Via` reads empty. |
| `TamperBay.PlanProxyAlarm` | main.go:69-121 | The schedule raises the proxy-authentication warning exactly when the CONNECT request (step 6) completed with status 407. |
| `TamperBay.MainAlarms` | main.go:32-121 | Consider a run whose log held no warnings before it started. The missing-`Allow` warning appears exactly when OPTIONS completed without `Allow`. The missing-`Via` warning appears exactly when TRACE completed without `Via`. The proxy-authentication warning appears exactly when CONNECT completed with 407. |
| `TamperBay.Process.constructor` | main.go:19-30 | The process starts with the flag values, zeroed globals, nothing issued, an empty log and no exit. |
| `TamperBay.Process.MakeRequest` | main.go:74-124 | One request updates the process state exactly as `MakeRequestStep` says. |
| `TamperBay.Process.RunSchedule` | main.go:40-71 | The seven calls update the process state exactly as `RunPlan` says. |
| `TamperBay.Process.Run` | main.go:27-72 | The program updates the process state exactly as `MainSpec` says. |

## Left out

- The HTTP exchange itself (`http.NewRequest`, `http.DefaultClient.Do`, `ioutil.ReadAll`) is a parameter, `net`. It returns either the stage at which it failed or the response. The model does not say why a URL would be rejected or a connection would fail.
- A request whose construction fails (`http.NewRequest`, main.go:80-82) still counts as issued, although the Go program ends before `Do` and nothing reaches the network. The model's requests are those handed to the HTTP layer, not those sent on the wire.
- The tolerated `context.Canceled` and `io.EOF` errors (main.go:81, 88) are treated as fatal. On those paths the request or response would be nil, and the next line would dereference it.
- TLS configuration (certificate checks turned off) and the `User-Agent: TamperBay` header are left out. They are library configuration with nothing to decide.
- The context deadline is not modelled. Nor is the `time.Duration(timeout) * time.Second` product, which could overflow for huge `-t` values. The timeout is carried unchanged in each request.
- The one-second pauses between requests and the per-request timeouts are left out, because the model has no clock.
- Flag parsing is left out. The `-u` and `-t` values are the constructor's parameters.
- logrus formatting is left out. Entries keep their kind, content and severity (`LevelOf`), and `Message` gives their text.
- Header-name canonicalisation (`textproto.CanonicalMIMEHeaderKey`) is not modelled. The header map is keyed by canonical names, and the only names looked up, `Allow` and `Via`, are already canonical.
