/**
 * The tool's run: normalise the target, then issue OPTIONS, HEAD, GET, POST,
 * PUT, TRACE and CONNECT to it in that order, logging a report of every
 * response.  Any fatal error ends the process on the spot, so nothing after it
 * is issued.  A request counts as issued once it is handed to the HTTP layer,
 * which builds it, sends it and reads the response; a request that fails to
 * build counts as issued too.
 *
 * The package-level variables of the program (the target, the timeout, and the
 * status, body length and header count of the latest response) are the fields
 * of class Process, together with what the run makes observable: the requests
 * handed to the HTTP layer, the log stream and how the process ends.  The
 * functions MakeRequestStep, RunPlan and MainSpec say what each step does to
 * that state; the lemmas state what a whole run does.
 */
module TamperBay {
  import opened Wrappers
  import opened Http
  import opened Target
  import opened Reporting

  /** The body sent with POST and PUT. */
  const ReqData: string := "verb=tampering"

  /** One step of the fixed schedule: a method and the body it carries. */
  datatype Call = Call(verb: Method, body: Option<string>)

  /** The fixed schedule, in the order the requests are sent. */
  const Plan: seq<Call> := [
    Call(OPTIONS, None), Call(HEAD, None), Call(GET, None),
    Call(POST, Some(ReqData)), Call(PUT, Some(ReqData)),
    Call(TRACE, None), Call(CONNECT, None)
  ]

  /** The order in which methods are sent, stated independently of Plan. */
  const Order: seq<Method> := [OPTIONS, HEAD, GET, POST, PUT, TRACE, CONNECT]

  /** The body a method is sent with: only POST and PUT carry one. */
  function BodyOf(m: Method): Option<string>
  {
    if m == POST || m == PUT then Some(ReqData) else None
  }

  /** Why the process stopped early. */
  datatype Cause = Config(error: ConfigError) | RequestFailed(stage: Stage)

  /** Whether the process is still running, or was ended by a fatal log entry. */
  datatype Exit = Running | Terminated(cause: Cause)

  /** The process exit status: zero unless a fatal error ended it. */
  function ExitCode(e: Exit): (code: int)
    ensures code == 0 <==> e == Running
  {
    if e == Running then 0 else 1
  }

  /** The program's global variables and the effects of the run so far. */
  datatype State = State(
    hostname: string,
    timeout: int,
    requestStatus: int,
    bodyLength: int,
    uniqueHeaders: int,
    issued: seq<Request>,
    log: seq<Entry>,
    exit: Exit)

  /** The request issued for one step of the schedule. */
  function RequestFor(c: Call, target: string, timeout: int): Request
  {
    Request(c.verb, target, timeout, c.body)
  }

  /**
   * One request: hand it to the HTTP layer; on failure log a fatal message and
   * end the process; on a response overwrite the three globals and log the report.
   */
  function MakeRequestStep(s: State, m: Method, target: string, timeout: int, body: Option<string>,
                           net: Request -> Exchange): State
  {
    var req := Request(m, target, timeout, body);
    var handed := s.(issued := s.issued + [req]);
    match net(req)
    case Failed(stage, reason) =>
      handed.(log := s.log + [RequestError(stage, reason)], exit := Terminated(RequestFailed(stage)))
    case Received(resp) =>
      handed.(requestStatus := resp.status, bodyLength := |resp.body|, uniqueHeaders := |resp.header|,
            log := s.log + Report(m, resp))
  }

  /** One step of the schedule: announce it, then make the request. */
  function Advance(s: State, c: Call, target: string, timeout: int, net: Request -> Exchange): State
  {
    MakeRequestStep(s.(log := s.log + [Making(c.verb)]), c.verb, target, timeout, c.body, net)
  }

  /** What one step does to the state; on failure, to the log too. */
  lemma AdvanceFacts(s: State, c: Call, target: string, timeout: int, net: Request -> Exchange)
    ensures var r := Advance(s, c, target, timeout, net);
            var ex := net(RequestFor(c, target, timeout));
            && r.hostname == s.hostname && r.timeout == s.timeout
            && r.issued == s.issued + [RequestFor(c, target, timeout)]
            && r.exit == (if ex.Failed? then Terminated(RequestFailed(ex.stage)) else s.exit)
            && (ex.Failed? ==> r.log == s.log + [Making(c.verb), RequestError(ex.stage, ex.reason)])
            && (ex.Failed? ==> (r.requestStatus, r.bodyLength, r.uniqueHeaders)
                               == (s.requestStatus, s.bodyLength, s.uniqueHeaders))
            && (ex.Received? ==> (r.requestStatus, r.bodyLength, r.uniqueHeaders)
                                 == (ex.resp.status, |ex.resp.body|, |ex.resp.header|))
  {
  }

  /** The remaining steps of the schedule, stopping at the first fatal error. */
  function RunPlan(s: State, calls: seq<Call>, target: string, timeout: int, net: Request -> Exchange): State
    decreases |calls|
  {
    if calls == [] || s.exit != Running then s
    else RunPlan(Advance(s, calls[0], target, timeout, net), calls[1..], target, timeout, net)
  }

  /** The whole program, from the parsed flags to the end of the run. */
  function MainSpec(s: State, net: Request -> Exchange): State
  {
    match Normalize(s.hostname)
    case Failure(_) =>
      s.(log := s.log + [HostMissing], exit := Terminated(Config(MissingHost)))
    case Success(target) =>
      RunPlan(s.(hostname := target), Plan, target, s.timeout, net)
  }

  /**
   * The index of the first step whose exchange fails, or |calls| when none
   * does: how far a run gets.
   */
  function FirstFailure(calls: seq<Call>, target: string, timeout: int, net: Request -> Exchange): (k: nat)
    ensures k <= |calls|
    ensures forall i :: 0 <= i < k ==> net(RequestFor(calls[i], target, timeout)).Received?
    ensures k < |calls| ==> net(RequestFor(calls[k], target, timeout)).Failed?
  {
    if calls == [] || net(RequestFor(calls[0], target, timeout)).Failed? then 0
    else 1 + FirstFailure(calls[1..], target, timeout, net)
  }

  /**
   * The requests issued for `calls`, stated apart from the run: one per step, in
   * order, up to and including the first step whose exchange fails.
   */
  function Attempted(calls: seq<Call>, target: string, timeout: int, net: Request -> Exchange): (rs: seq<Request>)
    ensures var k := FirstFailure(calls, target, timeout, net);
            |rs| == if k < |calls| then k + 1 else k
    ensures forall i :: 0 <= i < |rs| ==> rs[i] == RequestFor(calls[i], target, timeout)
  {
    if calls == [] then []
    else
      var req := RequestFor(calls[0], target, timeout);
      [req] + if net(req).Failed? then [] else Attempted(calls[1..], target, timeout, net)
  }

  /**
   * How the process ends after `calls`, stated apart from the run: normally
   * exactly when no exchange fails, otherwise with the first failure.
   */
  function Outcome(calls: seq<Call>, target: string, timeout: int, net: Request -> Exchange): (e: Exit)
    ensures var k := FirstFailure(calls, target, timeout, net);
            && (e == Running <==> k == |calls|)
            && (k < |calls| ==> e == Terminated(RequestFailed(net(RequestFor(calls[k], target, timeout)).stage)))
  {
    if calls == [] then Running
    else
      match net(RequestFor(calls[0], target, timeout))
      case Failed(stage, _) => Terminated(RequestFailed(stage))
      case Received(_) => Outcome(calls[1..], target, timeout, net)
  }

  /**
   * The summary records expected for `calls`, stated apart from the run: one
   * per completed exchange, in order, with that response's figures.
   */
  function Expected(calls: seq<Call>, target: string, timeout: int, net: Request -> Exchange): (es: seq<Entry>)
    ensures |es| == FirstFailure(calls, target, timeout, net)
    ensures forall i :: 0 <= i < |es| ==>
              es[i] == Summary(calls[i].verb, net(RequestFor(calls[i], target, timeout)).resp)
  {
    if calls == [] then []
    else
      match net(RequestFor(calls[0], target, timeout))
      case Failed(_, _) => []
      case Received(resp) => [Summary(calls[0].verb, resp)] + Expected(calls[1..], target, timeout, net)
  }

  /**
   * The warnings expected for `calls`, stated apart from the run: the alarm of
   * every completed exchange whose response is suspicious, in order, and
   * nothing else.
   */
  function Alerts(calls: seq<Call>, target: string, timeout: int, net: Request -> Exchange): (es: seq<Entry>)
    ensures |es| <= FirstFailure(calls, target, timeout, net)
  {
    if calls == [] then []
    else
      match net(RequestFor(calls[0], target, timeout))
      case Failed(_, _) => []
      case Received(resp) =>
        (if Suspicious(calls[0].verb, resp) then [Alarm(calls[0].verb)] else [])
        + Alerts(calls[1..], target, timeout, net)
  }

  /** Every completed step with a suspicious response contributes its alarm to Alerts. */
  lemma {:induction false} AlertsComplete(calls: seq<Call>, target: string, timeout: int,
                                          net: Request -> Exchange, i: nat)
    requires i < FirstFailure(calls, target, timeout, net)
    requires Suspicious(calls[i].verb, net(RequestFor(calls[i], target, timeout)).resp)
    ensures Alarm(calls[i].verb) in Alerts(calls, target, timeout, net)
  {
    var resp := net(RequestFor(calls[0], target, timeout)).resp;
    var head := if Suspicious(calls[0].verb, resp) then [Alarm(calls[0].verb)] else [];
    assert Alerts(calls, target, timeout, net) == head + Alerts(calls[1..], target, timeout, net);
    if i > 0 {
      assert calls[1..][i - 1] == calls[i];
      AlertsComplete(calls[1..], target, timeout, net, i - 1);
    }
  }

  /** Every entry of Alerts is the alarm of a completed step whose response is suspicious. */
  lemma {:induction false} AlertsSound(calls: seq<Call>, target: string, timeout: int,
                                       net: Request -> Exchange, e: Entry)
    requires e in Alerts(calls, target, timeout, net)
    ensures exists i :: 0 <= i < FirstFailure(calls, target, timeout, net)
                        && Suspicious(calls[i].verb, net(RequestFor(calls[i], target, timeout)).resp)
                        && e == Alarm(calls[i].verb)
  {
    var resp := net(RequestFor(calls[0], target, timeout)).resp;
    var head := if Suspicious(calls[0].verb, resp) then [Alarm(calls[0].verb)] else [];
    var rest := Alerts(calls[1..], target, timeout, net);
    assert Alerts(calls, target, timeout, net) == head + rest;
    if e in head {
      assert 0 < FirstFailure(calls, target, timeout, net);
    } else {
      AlertsSound(calls[1..], target, timeout, net, e);
      var i' :| 0 <= i' < FirstFailure(calls[1..], target, timeout, net)
                && Suspicious(calls[1..][i'].verb, net(RequestFor(calls[1..][i'], target, timeout)).resp)
                && e == Alarm(calls[1..][i'].verb);
      assert calls[1..][i'] == calls[i' + 1];
    }
  }

  /** The schedule sends each of the seven methods once, in order; only POST and PUT carry a body. */
  lemma PlanShape()
    ensures |Plan| == |Order| == 7
    ensures forall i :: 0 <= i < |Plan| ==> Plan[i].verb == Order[i] && Plan[i].body == BodyOf(Order[i])
    ensures forall i, j :: 0 <= i < j < |Order| ==> Order[i] != Order[j]
  {
  }

  lemma RunPlanStep(s: State, calls: seq<Call>, target: string, timeout: int, net: Request -> Exchange)
    requires calls != [] && s.exit == Running
    ensures RunPlan(s, calls, target, timeout, net)
         == RunPlan(Advance(s, calls[0], target, timeout, net), calls[1..], target, timeout, net)
  {
  }

  lemma RunPlanHalted(s: State, calls: seq<Call>, target: string, timeout: int, net: Request -> Exchange)
    requires s.exit != Running
    ensures RunPlan(s, calls, target, timeout, net) == s
  {
  }

  /** One step adds its method's alarm when the response is suspicious, and no warning otherwise. */
  lemma StepWarnings(s: State, c: Call, target: string, timeout: int, net: Request -> Exchange)
    ensures var r := Advance(s, c, target, timeout, net);
            Warnings(r.log) == Warnings(s.log) + match net(RequestFor(c, target, timeout))
                                                 case Failed(_, _) => []
                                                 case Received(resp) =>
                                                   if Suspicious(c.verb, resp) then [Alarm(c.verb)] else []
  {
    var announced := s.log + [Making(c.verb)];
    WarningsAppend(s.log, [Making(c.verb)]);
    Single(Making(c.verb));
    match net(RequestFor(c, target, timeout))
    case Failed(stage, reason) =>
      WarningsAppend(announced, [RequestError(stage, reason)]);
      Single(RequestError(stage, reason));
    case Received(resp) =>
      WarningsAppend(announced, Report(c.verb, resp));
      ReportWarnings(c.verb, resp);
  }

  /** A run leaves the target and the timeout as they were. */
  lemma {:induction false} RunPlanKeeps(s: State, calls: seq<Call>, target: string, timeout: int,
                                        net: Request -> Exchange)
    decreases |calls|
    ensures var r := RunPlan(s, calls, target, timeout, net);
            r.hostname == s.hostname && r.timeout == s.timeout
  {
    if calls != [] && s.exit == Running {
      AdvanceFacts(s, calls[0], target, timeout, net);
      RunPlanKeeps(Advance(s, calls[0], target, timeout, net), calls[1..], target, timeout, net);
    }
  }

  /** What a run issues: exactly the requests of Attempted, after those issued before. */
  lemma {:induction false} RunPlanIssues(s: State, calls: seq<Call>, target: string, timeout: int,
                                         net: Request -> Exchange)
    requires s.exit == Running
    decreases |calls|
    ensures RunPlan(s, calls, target, timeout, net).issued == s.issued + Attempted(calls, target, timeout, net)
  {
    if calls != [] {
      var req := RequestFor(calls[0], target, timeout);
      var s1 := Advance(s, calls[0], target, timeout, net);
      AdvanceFacts(s, calls[0], target, timeout, net);
      RunPlanStep(s, calls, target, timeout, net);
      if net(req).Failed? {
        RunPlanHalted(s1, calls[1..], target, timeout, net);
      } else {
        RunPlanIssues(s1, calls[1..], target, timeout, net);
        assert s.issued + [req] + Attempted(calls[1..], target, timeout, net)
            == s.issued + Attempted(calls, target, timeout, net);
      }
    }
  }

  /** How a run ends: exactly as Outcome says. */
  lemma {:induction false} RunPlanExit(s: State, calls: seq<Call>, target: string, timeout: int,
                                       net: Request -> Exchange)
    requires s.exit == Running
    decreases |calls|
    ensures RunPlan(s, calls, target, timeout, net).exit == Outcome(calls, target, timeout, net)
  {
    if calls != [] {
      var req := RequestFor(calls[0], target, timeout);
      var s1 := Advance(s, calls[0], target, timeout, net);
      AdvanceFacts(s, calls[0], target, timeout, net);
      RunPlanStep(s, calls, target, timeout, net);
      if net(req).Failed? {
        RunPlanHalted(s1, calls[1..], target, timeout, net);
      } else {
        RunPlanExit(s1, calls[1..], target, timeout, net);
      }
    }
  }

  /** One step adds one summary record when the exchange succeeds, and none when it fails. */
  lemma StepSummaries(s: State, c: Call, target: string, timeout: int, net: Request -> Exchange)
    ensures var r := Advance(s, c, target, timeout, net);
            Completions(r.log) == Completions(s.log) + match net(RequestFor(c, target, timeout))
                                                       case Failed(_, _) => []
                                                       case Received(resp) => [Summary(c.verb, resp)]
  {
    var announced := s.log + [Making(c.verb)];
    CompletionsAppend(s.log, [Making(c.verb)]);
    Single(Making(c.verb));
    match net(RequestFor(c, target, timeout))
    case Failed(stage, reason) =>
      CompletionsAppend(announced, [RequestError(stage, reason)]);
      Single(RequestError(stage, reason));
    case Received(resp) =>
      CompletionsAppend(announced, Report(c.verb, resp));
  }

  /**
   * The summary records a run adds to the log are exactly those of Expected:
   * one per completed request, in order; the records already logged stay.
   */
  lemma {:induction false} RunPlanSummaries(s: State, calls: seq<Call>, target: string, timeout: int,
                                            net: Request -> Exchange)
    requires s.exit == Running
    decreases |calls|
    ensures Completions(RunPlan(s, calls, target, timeout, net).log)
         == Completions(s.log) + Expected(calls, target, timeout, net)
  {
    if calls != [] {
      var req := RequestFor(calls[0], target, timeout);
      var s1 := Advance(s, calls[0], target, timeout, net);
      StepSummaries(s, calls[0], target, timeout, net);
      AdvanceFacts(s, calls[0], target, timeout, net);
      RunPlanStep(s, calls, target, timeout, net);
      if net(req).Failed? {
        RunPlanHalted(s1, calls[1..], target, timeout, net);
      } else {
        RunPlanSummaries(s1, calls[1..], target, timeout, net);
      }
    }
  }

  /**
   * The globals left behind: those of the last completed response, or the
   * values from before the run when no request completed.
   */
  lemma {:induction false} RunPlanCounters(s: State, calls: seq<Call>, target: string, timeout: int,
                                           net: Request -> Exchange)
    requires s.exit == Running
    decreases |calls|
    ensures var k := FirstFailure(calls, target, timeout, net);
            var r := RunPlan(s, calls, target, timeout, net);
            && (k == 0 ==> (r.requestStatus, r.bodyLength, r.uniqueHeaders)
                           == (s.requestStatus, s.bodyLength, s.uniqueHeaders))
            && (k > 0 ==>
                  var last := net(RequestFor(calls[k - 1], target, timeout)).resp;
                  (r.requestStatus, r.bodyLength, r.uniqueHeaders) == (last.status, |last.body|, |last.header|))
  {
    if calls != [] {
      var req := RequestFor(calls[0], target, timeout);
      var s1 := Advance(s, calls[0], target, timeout, net);
      AdvanceFacts(s, calls[0], target, timeout, net);
      RunPlanStep(s, calls, target, timeout, net);
      if net(req).Failed? {
        RunPlanHalted(s1, calls[1..], target, timeout, net);
      } else {
        RunPlanCounters(s1, calls[1..], target, timeout, net);
        var k := FirstFailure(calls, target, timeout, net);
        if k > 1 {
          assert calls[1..][k - 2] == calls[k - 1];
        }
      }
    }
  }

  /**
   * A run that fails ends its log with the fatal message of the first failure:
   * the stage it failed at and the error's description.
   */
  lemma {:induction false} RunPlanFatal(s: State, calls: seq<Call>, target: string, timeout: int,
                                        net: Request -> Exchange)
    requires s.exit == Running
    decreases |calls|
    ensures var k := FirstFailure(calls, target, timeout, net);
            var log := RunPlan(s, calls, target, timeout, net).log;
            k < |calls| ==>
              var ex := net(RequestFor(calls[k], target, timeout));
              |log| > 0 && log[|log| - 1] == RequestError(ex.stage, ex.reason)
  {
    if calls != [] {
      var req := RequestFor(calls[0], target, timeout);
      var s1 := Advance(s, calls[0], target, timeout, net);
      AdvanceFacts(s, calls[0], target, timeout, net);
      RunPlanStep(s, calls, target, timeout, net);
      if net(req).Failed? {
        RunPlanHalted(s1, calls[1..], target, timeout, net);
      } else {
        RunPlanFatal(s1, calls[1..], target, timeout, net);
        var k := FirstFailure(calls, target, timeout, net);
        if k < |calls| {
          assert calls[1..][k - 1] == calls[k];
        }
      }
    }
  }

  /**
   * The warnings a run adds to the log are exactly those of Alerts: one per
   * completed request with a suspicious response, in order.
   */
  lemma {:induction false} RunPlanWarnings(s: State, calls: seq<Call>, target: string, timeout: int,
                                           net: Request -> Exchange)
    requires s.exit == Running
    decreases |calls|
    ensures Warnings(RunPlan(s, calls, target, timeout, net).log)
         == Warnings(s.log) + Alerts(calls, target, timeout, net)
  {
    if calls != [] {
      var req := RequestFor(calls[0], target, timeout);
      var s1 := Advance(s, calls[0], target, timeout, net);
      StepWarnings(s, calls[0], target, timeout, net);
      AdvanceFacts(s, calls[0], target, timeout, net);
      RunPlanStep(s, calls, target, timeout, net);
      if net(req).Failed? {
        RunPlanHalted(s1, calls[1..], target, timeout, net);
      } else {
        var resp := net(req).resp;
        var head := if Suspicious(calls[0].verb, resp) then [Alarm(calls[0].verb)] else [];
        var rest := Alerts(calls[1..], target, timeout, net);
        RunPlanWarnings(s1, calls[1..], target, timeout, net);
        assert Alerts(calls, target, timeout, net) == head + rest;
        assert Warnings(s.log) + head + rest == Warnings(s.log) + (head + rest);
      }
    }
  }

  /** Without a hostname the process ends at once, and no request of any method is issued. */
  lemma MainWithoutHost(s: State, net: Request -> Exchange)
    requires s.hostname == ""
    ensures var r := MainSpec(s, net);
            && r.issued == s.issued
            && r.log == s.log + [HostMissing]
            && r.exit == Terminated(Config(MissingHost)) && ExitCode(r.exit) != 0
  {
  }

  /** With a hostname, the program runs the schedule against the normalised target. */
  lemma MainRuns(s: State, net: Request -> Exchange)
    requires s.hostname != ""
    ensures var target := Normalize(s.hostname).value;
            MainSpec(s, net) == RunPlan(s.(hostname := target), Plan, target, s.timeout, net)
  {
  }

  /**
   * With a hostname, the run issues the steps of the schedule up to and
   * including the first whose exchange fails (all seven when none fails); it
   * exits normally exactly when no exchange fails, and otherwise ends with
   * that failure, so nothing after the failing step is issued.
   */
  lemma MainSchedule(s: State, net: Request -> Exchange)
    requires s.hostname != "" && s.exit == Running
    ensures var target := Normalize(s.hostname).value;
            var k := FirstFailure(Plan, target, s.timeout, net);
            var r := MainSpec(s, net);
            && r.hostname == target && r.timeout == s.timeout
            && |r.issued| == |s.issued| + (if k < |Plan| then k + 1 else k)
            && (r.exit == Running <==> k == |Plan|)
            && (k < |Plan| ==>
                  r.exit == Terminated(RequestFailed(net(RequestFor(Plan[k], target, s.timeout)).stage)))
  {
    var target := Normalize(s.hostname).value;
    MainRuns(s, net);
    RunPlanKeeps(s.(hostname := target), Plan, target, s.timeout, net);
    RunPlanIssues(s.(hostname := target), Plan, target, s.timeout, net);
    RunPlanExit(s.(hostname := target), Plan, target, s.timeout, net);
  }

  /** The requests the schedule issues, stated against the method order. */
  lemma AttemptedFollowsOrder(target: string, timeout: int, net: Request -> Exchange)
    ensures var issued := Attempted(Plan, target, timeout, net);
            && 0 < |issued| <= |Order|
            && (forall i :: 0 <= i < |issued| ==> issued[i] == Request(Order[i], target, timeout, BodyOf(Order[i])))
            && (Outcome(Plan, target, timeout, net) == Running ==> |issued| == |Order|)
  {
    PlanShape();
  }

  /**
   * The requests a run issues: the methods OPTIONS, HEAD, GET, POST, PUT,
   * TRACE and CONNECT in this order, each at most once, all to the normalised
   * target with the configured timeout; POST and PUT carry `verb=tampering`
   * and the others no body.  A normal exit means all seven were issued.
   */
  lemma MainRequests(s: State, net: Request -> Exchange)
    requires s.hostname != "" && s.exit == Running
    ensures var target := Normalize(s.hostname).value;
            var r := MainSpec(s, net);
            var base := |s.issued|;
            && base < |r.issued| <= base + |Order|
            && r.issued[..base] == s.issued
            && (forall i :: base <= i < |r.issued| ==>
                  r.issued[i] == Request(Order[i - base], target, s.timeout, BodyOf(Order[i - base])))
            && (r.exit == Running ==> |r.issued| == base + |Order|)
  {
    var target := Normalize(s.hostname).value;
    MainRuns(s, net);
    RunPlanIssues(s.(hostname := target), Plan, target, s.timeout, net);
    RunPlanExit(s.(hostname := target), Plan, target, s.timeout, net);
    AttemptedFollowsOrder(target, s.timeout, net);
  }

  /**
   * A fatal error at step k: exactly steps 0..k were issued, and the process
   * ends with that failure, whose fatal message is the last entry logged.
   */
  lemma FatalStopsSchedule(s: State, net: Request -> Exchange, k: nat)
    requires s.hostname != "" && s.exit == Running && k < |Plan|
    requires var target := Normalize(s.hostname).value;
             && (forall i :: 0 <= i < k ==> net(RequestFor(Plan[i], target, s.timeout)).Received?)
             && net(RequestFor(Plan[k], target, s.timeout)).Failed?
    ensures var r := MainSpec(s, net);
            var target := Normalize(s.hostname).value;
            && |r.issued| == |s.issued| + k + 1
            && r.issued[|r.issued| - 1].verb == Order[k]
            && r.exit == Terminated(RequestFailed(net(RequestFor(Plan[k], target, s.timeout)).stage))
            && |r.log| > 0
            && r.log[|r.log| - 1] == RequestError(net(RequestFor(Plan[k], target, s.timeout)).stage,
                                                  net(RequestFor(Plan[k], target, s.timeout)).reason)
  {
    var target := Normalize(s.hostname).value;
    MainSchedule(s, net);
    MainRequests(s, net);
    MainRuns(s, net);
    RunPlanFatal(s.(hostname := target), Plan, target, s.timeout, net);
  }

  /**
   * The summary records a run logs are those of Expected: one per completed
   * request, in the order of the schedule, with the status, body length and
   * number of distinct header fields of that method's response.
   */
  lemma MainSummaries(s: State, net: Request -> Exchange)
    requires s.hostname != "" && s.exit == Running
    ensures var target := Normalize(s.hostname).value;
            Completions(MainSpec(s, net).log) == Completions(s.log) + Expected(Plan, target, s.timeout, net)
  {
    var target := Normalize(s.hostname).value;
    MainRuns(s, net);
    RunPlanSummaries(s.(hostname := target), Plan, target, s.timeout, net);
  }

  /**
   * The warnings a run logs are those of Alerts over the schedule: one per
   * completed request whose response is suspicious, in schedule order.
   */
  lemma MainWarnings(s: State, net: Request -> Exchange)
    requires s.hostname != "" && s.exit == Running
    ensures var target := Normalize(s.hostname).value;
            Warnings(MainSpec(s, net).log) == Warnings(s.log) + Alerts(Plan, target, s.timeout, net)
  {
    var target := Normalize(s.hostname).value;
    MainRuns(s, net);
    RunPlanWarnings(s.(hostname := target), Plan, target, s.timeout, net);
  }

  /**
   * For a step whose method has an alarm and occurs nowhere else in `calls`:
   * the alarm is among Alerts exactly when that step completed with a
   * suspicious response.
   */
  lemma AlarmRaised(calls: seq<Call>, target: string, timeout: int, net: Request -> Exchange, i: nat)
    requires i < |calls|
    requires calls[i].verb == OPTIONS || calls[i].verb == TRACE || calls[i].verb == CONNECT
    requires forall j :: 0 <= j < |calls| && j != i ==> calls[j].verb != calls[i].verb
    ensures Alarm(calls[i].verb) in Alerts(calls, target, timeout, net) <==>
              i < FirstFailure(calls, target, timeout, net)
              && Suspicious(calls[i].verb, net(RequestFor(calls[i], target, timeout)).resp)
  {
    var m := calls[i].verb;
    if Alarm(m) in Alerts(calls, target, timeout, net) {
      AlertsSound(calls, target, timeout, net, Alarm(m));
      var j :| 0 <= j < FirstFailure(calls, target, timeout, net)
               && Suspicious(calls[j].verb, net(RequestFor(calls[j], target, timeout)).resp)
               && Alarm(m) == Alarm(calls[j].verb);
      assert calls[j].verb == m;
    }
    if i < FirstFailure(calls, target, timeout, net)
       && Suspicious(m, net(RequestFor(calls[i], target, timeout)).resp) {
      AlertsComplete(calls, target, timeout, net, i);
    }
  }

  /** The schedule's missing-`Allow` alarm: raised exactly when OPTIONS, step 0, completed without `Allow`. */
  lemma PlanAllowAlarm(target: string, timeout: int, net: Request -> Exchange)
    ensures NoAllow in Alerts(Plan, target, timeout, net) <==>
              0 < FirstFailure(Plan, target, timeout, net)
              && Get(net(RequestFor(Plan[0], target, timeout)).resp.header, "Allow") == ""
  {
    PlanShape();
    AlarmRaised(Plan, target, timeout, net, 0);
  }

  /** The schedule's missing-`Via` alarm: raised exactly when TRACE, step 5, completed without `Via`. */
  lemma PlanViaAlarm(target: string, timeout: int, net: Request -> Exchange)
    ensures NoVia in Alerts(Plan, target, timeout, net) <==>
              5 < FirstFailure(Plan, target, timeout, net)
              && Get(net(RequestFor(Plan[5], target, timeout)).resp.header, "Via") == ""
  {
    PlanShape();
    AlarmRaised(Plan, target, timeout, net, 5);
  }

  /** The schedule's proxy-authentication alarm: raised exactly when CONNECT, step 6, completed with 407. */
  lemma PlanProxyAlarm(target: string, timeout: int, net: Request -> Exchange)
    ensures ProxyAuthRequired in Alerts(Plan, target, timeout, net) <==>
              6 < FirstFailure(Plan, target, timeout, net)
              && net(RequestFor(Plan[6], target, timeout)).resp.status == 407
  {
    PlanShape();
    AlarmRaised(Plan, target, timeout, net, 6);
  }

  /**
   * The warnings a run writes to a log that held none: a missing `Allow`
   * exactly when the OPTIONS request completed without one, a missing `Via`
   * exactly when the TRACE request did, and proxy authentication exactly when
   * the CONNECT request completed with status 407.
   */
  lemma MainAlarms(s: State, net: Request -> Exchange)
    requires s.hostname != "" && s.exit == Running && Warnings(s.log) == []
    ensures var target := Normalize(s.hostname).value;
            var k := FirstFailure(Plan, target, s.timeout, net);
            var warned := Warnings(MainSpec(s, net).log);
            && (NoAllow in warned <==>
                  0 < k && Get(net(RequestFor(Plan[0], target, s.timeout)).resp.header, "Allow") == "")
            && (NoVia in warned <==>
                  5 < k && Get(net(RequestFor(Plan[5], target, s.timeout)).resp.header, "Via") == "")
            && (ProxyAuthRequired in warned <==>
                  6 < k && net(RequestFor(Plan[6], target, s.timeout)).resp.status == 407)
  {
    var target := Normalize(s.hostname).value;
    MainWarnings(s, net);
    PlanAllowAlarm(target, s.timeout, net);
    PlanViaAlarm(target, s.timeout, net);
    PlanProxyAlarm(target, s.timeout, net);
  }

  /** The program's global variables, updated in place by Run and MakeRequest. */
  class Process {
    var hostname: string
    var timeout: int
    var requestStatus: int
    var bodyLength: int
    var uniqueHeaders: int
    /** Requests handed to the HTTP layer, in order. */
    var issued: seq<Request>
    /** The log stream. */
    var log: seq<Entry>
    var exit: Exit

    function Snapshot(): State
      reads this
    {
      State(hostname, timeout, requestStatus, bodyLength, uniqueHeaders, issued, log, exit)
    }

    /** The process as it starts, with the values of the -u and -t flags. */
    constructor (hostname: string, timeout: int)
      ensures Snapshot() == State(hostname, timeout, 0, 0, 0, [], [], Running)
    {
      this.hostname := hostname;
      this.timeout := timeout;
      requestStatus, bodyLength, uniqueHeaders := 0, 0, 0;
      issued, log, exit := [], [], Running;
    }

    /** Issue one request and report on its response, or end the process. */
    method MakeRequest(m: Method, target: string, timeout: int, body: Option<string>, net: Request -> Exchange)
      requires exit == Running
      modifies this
      ensures Snapshot() == MakeRequestStep(old(Snapshot()), m, target, timeout, body, net)
    {
      var req := Request(m, target, timeout, body);
      issued := issued + [req];
      match net(req)
      case Failed(stage, reason) =>
        log := log + [RequestError(stage, reason)];
        exit := Terminated(RequestFailed(stage));
      case Received(resp) =>
        requestStatus := resp.status;
        bodyLength := |resp.body|;
        uniqueHeaders := |resp.header|;
        var entries := Checks(m, resp) + [Completed(m, requestStatus, bodyLength, uniqueHeaders)];
        assert entries == Report(m, resp);
        log := log + entries;
    }

    /** The program: check and normalise the target, then work through the schedule. */
    method Run(net: Request -> Exchange)
      requires exit == Running
      modifies this
      ensures Snapshot() == MainSpec(old(Snapshot()), net)
    {
      if hostname == "" {
        log := log + [HostMissing];
        exit := Terminated(Config(MissingHost));
        return;
      }
      if !HasPrefix(hostname, HttpsScheme) && !HasPrefix(hostname, HttpScheme) {
        hostname := HttpsScheme + hostname;
      }
      MainRuns(old(Snapshot()), net);
      RunSchedule(net);
    }

    /** The seven requests of the schedule, in order, to the current target. */
    method RunSchedule(net: Request -> Exchange)
      requires exit == Running
      modifies this
      ensures Snapshot() == RunPlan(old(Snapshot()), Plan, old(hostname), old(timeout), net)
    {
      ghost var start := Snapshot();
      var i := 0;
      while i < |Plan| && exit == Running
        invariant 0 <= i <= |Plan|
        invariant hostname == start.hostname && timeout == start.timeout
        invariant RunPlan(Snapshot(), Plan[i..], hostname, timeout, net)
               == RunPlan(start, Plan, start.hostname, start.timeout, net)
      {
        ghost var before := Snapshot();
        RunPlanStep(before, Plan[i..], hostname, timeout, net);
        assert Plan[i..][1..] == Plan[i + 1..];
        log := log + [Making(Plan[i].verb)];
        MakeRequest(Plan[i].verb, hostname, timeout, Plan[i].body, net);
        assert Snapshot() == Advance(before, Plan[i], hostname, timeout, net);
        i := i + 1;
      }
      if i == |Plan| {
        assert Plan[i..] == [];
      } else {
        RunPlanHalted(Snapshot(), Plan[i..], hostname, timeout, net);
      }
    }
  }
}
