/**
 * What the tool logs.  For one completed response: a method-specific check
 * (OPTIONS reads `Allow`, TRACE reads `Via`, CONNECT looks for status 407),
 * then one summary record with the status code, body length and number of
 * distinct header fields.  Entries are kept structured, with their severity
 * and rendered text given by LevelOf and Message.
 */
module Reporting {
  import opened Http

  datatype Level = Info | Warning | Fatal

  /** One entry of the log stream. */
  datatype Entry =
    | Making(verb: Method)
    | CheckingAllow
    | NoAllow
    | Allowed(methods: string)
    | CheckingVia
    | NoVia
    | Proxies(via: string)
    | ProxyAuthRequired
    | Completed(verb: Method, status: int, length: int, uniqueHeaders: int)
    | HostMissing
    | RequestError(stage: Stage, reason: string)

  /** The severity an entry is written at. */
  function LevelOf(e: Entry): (l: Level)
    ensures l == Warning <==> e.NoAllow? || e.NoVia? || e.ProxyAuthRequired?
    ensures l == Fatal <==> e.HostMissing? || e.RequestError?
  {
    if e.NoAllow? || e.NoVia? || e.ProxyAuthRequired? then Warning
    else if e.HostMissing? || e.RequestError? then Fatal
    else Info
  }

  /** `text` followed by `value`, which stays recoverable as the tail. */
  function Tagged(text: string, value: string): (r: string)
    ensures |r| == |text| + |value| && r[|text|..] == value
  {
    text + value
  }

  /** The text of an entry that carries no value of its own. */
  function FixedText(e: Entry): string
    requires !e.Allowed? && !e.Proxies? && !e.RequestError?
  {
    match e
    case Making(m) => "Making " + Name(m) + " request..."
    case CheckingAllow => "Checking for allowed methods..."
    case NoAllow =>
      "The OPTIONS method does not appear to be properly implemented. No allowed methods were discovered."
    case CheckingVia => "Checking for proxy servers..."
    case NoVia => "The TRACE method may not be implemented. No proxy servers were identified."
    case ProxyAuthRequired => "The CONNECT method is implemented, but proxy authentication is required."
    case Completed(m, _, _, _) => Name(m) + " request completed."
    case HostMissing => "Must provide a hostname or IP."
    case _ => ""
  }

  /** The fatal text for a request that failed at `stage`, ending with the error's description. */
  function ErrorText(stage: Stage, reason: string): (r: string)
    ensures |reason| <= |r| && r[|r| - |reason|..] == reason
  {
    match stage
    case Construct => Tagged("Error: could not create HTTP request - ", reason)
    case Execute => Tagged("Error: response not received - ", reason)
    case ReadBody => Tagged("Error: Could not convert response body to byte array - ", reason)
  }

  /**
   * The text an entry is written with; a summary record also carries its three
   * fields.  Header values and error descriptions end the text verbatim.
   */
  function Message(e: Entry): (r: string)
    ensures e.Allowed? ==> |e.methods| <= |r| && r[|r| - |e.methods|..] == e.methods
    ensures e.Proxies? ==> |e.via| <= |r| && r[|r| - |e.via|..] == e.via
    ensures e.RequestError? ==> |e.reason| <= |r| && r[|r| - |e.reason|..] == e.reason
  {
    match e
    case Allowed(methods) => Tagged("Allowed methods: ", methods)
    case Proxies(via) => Tagged("Proxy Servers identified: ", via)
    case RequestError(stage, reason) => ErrorText(stage, reason)
    case _ => FixedText(e)
  }

  /** The entries of `log` written at warning severity, in order. */
  function Warnings(log: seq<Entry>): seq<Entry>
  {
    if log == [] then []
    else (if LevelOf(log[0]) == Warning then [log[0]] else []) + Warnings(log[1..])
  }

  /** The summary records of `log`, in order. */
  function Completions(log: seq<Entry>): seq<Entry>
  {
    if log == [] then []
    else (if log[0].Completed? then [log[0]] else []) + Completions(log[1..])
  }

  lemma {:induction false} CompletionsAppend(a: seq<Entry>, b: seq<Entry>)
    ensures Completions(a + b) == Completions(a) + Completions(b)
  {
    if a != [] {
      assert (a + b)[1..] == a[1..] + b;
      CompletionsAppend(a[1..], b);
    } else {
      assert a + b == b;
    }
  }

  lemma {:induction false} WarningsAppend(a: seq<Entry>, b: seq<Entry>)
    ensures Warnings(a + b) == Warnings(a) + Warnings(b)
  {
    if a != [] {
      assert (a + b)[1..] == a[1..] + b;
      WarningsAppend(a[1..], b);
    } else {
      assert a + b == b;
    }
  }

  lemma Single(e: Entry)
    ensures Warnings([e]) == if LevelOf(e) == Warning then [e] else []
    ensures Completions([e]) == if e.Completed? then [e] else []
  {
    assert [e][1..] == [];
  }

  lemma Pair(e: Entry, f: Entry)
    ensures Warnings([e, f]) == Warnings([e]) + Warnings([f])
    ensures Completions([e, f]) == Completions([e]) + Completions([f])
  {
    assert [e, f] == [e] + [f];
    WarningsAppend([e], [f]);
    CompletionsAppend([e], [f]);
  }

  /** The summary record of one response to method `m`. */
  function Summary(m: Method, resp: Response): Entry
  {
    Completed(m, resp.status, |resp.body|, |resp.header|)
  }

  /** The responses the tool flags as a possible misconfiguration. */
  predicate Suspicious(m: Method, resp: Response)
  {
    || (m == OPTIONS && Get(resp.header, "Allow") == "")
    || (m == TRACE && Get(resp.header, "Via") == "")
    || (m == CONNECT && resp.status == 407)
  }

  /** The warning a suspicious response to `m` raises. */
  function Alarm(m: Method): (e: Entry)
    requires m == OPTIONS || m == TRACE || m == CONNECT
    ensures LevelOf(e) == Warning
  {
    match m
    case OPTIONS => NoAllow
    case TRACE => NoVia
    case CONNECT => ProxyAuthRequired
  }

  /** The method-specific messages, before the summary. */
  function Checks(m: Method, resp: Response): seq<Entry>
  {
    match m
    case OPTIONS =>
      var allow := Get(resp.header, "Allow");
      [CheckingAllow] + (if allow == "" then [NoAllow] else [Allowed(allow)])
    case TRACE =>
      var via := Get(resp.header, "Via");
      [CheckingVia] + (if via == "" then [NoVia] else [Proxies(via)])
    case CONNECT =>
      if resp.status == 407 then [ProxyAuthRequired] else []
    case _ => []
  }

  /** The messages of one check and its outcome: no summary among them, a warning exactly when `bad`. */
  lemma CheckPairFacts(first: Entry, outcome: Entry, bad: bool)
    requires !first.Completed? && LevelOf(first) == Info
    requires !outcome.Completed? && (LevelOf(outcome) == Warning <==> bad)
    ensures Completions([first, outcome]) == []
    ensures Warnings([first, outcome]) == if bad then [outcome] else []
  {
    Pair(first, outcome);
    Single(first);
    Single(outcome);
  }

  /** The method-specific messages hold no summary, and a warning exactly on a suspicious response. */
  lemma ChecksFacts(m: Method, resp: Response)
    ensures Completions(Checks(m, resp)) == []
    ensures |Warnings(Checks(m, resp))| <= 1
    ensures Warnings(Checks(m, resp)) != [] <==> Suspicious(m, resp)
  {
    match m
    case OPTIONS =>
      var allow := Get(resp.header, "Allow");
      CheckPairFacts(CheckingAllow, if allow == "" then NoAllow else Allowed(allow), allow == "");
    case TRACE =>
      var via := Get(resp.header, "Via");
      CheckPairFacts(CheckingVia, if via == "" then NoVia else Proxies(via), via == "");
    case CONNECT =>
      Single(ProxyAuthRequired);
    case _ =>
  }

  /**
   * Everything logged about one completed response.  It ends with the one and
   * only summary record, and holds a warning exactly when the response is
   * suspicious for that method (never more than one).
   */
  function Report(m: Method, resp: Response): (r: seq<Entry>)
    ensures |r| >= 1 && r[|r| - 1] == Summary(m, resp)
    ensures Completions(r) == [Summary(m, resp)]
    ensures |Warnings(r)| <= 1
    ensures Warnings(r) != [] <==> Suspicious(m, resp)
  {
    var checks := Checks(m, resp);
    ChecksFacts(m, resp);
    Single(Summary(m, resp));
    CompletionsAppend(checks, [Summary(m, resp)]);
    WarningsAppend(checks, [Summary(m, resp)]);
    checks + [Summary(m, resp)]
  }

  /** The method-specific messages warn with the method's alarm on a suspicious response, and only then. */
  lemma ChecksWarnings(m: Method, resp: Response)
    ensures Warnings(Checks(m, resp)) == if Suspicious(m, resp) then [Alarm(m)] else []
  {
    match m
    case OPTIONS =>
      var allow := Get(resp.header, "Allow");
      CheckPairFacts(CheckingAllow, if allow == "" then NoAllow else Allowed(allow), allow == "");
    case TRACE =>
      var via := Get(resp.header, "Via");
      CheckPairFacts(CheckingVia, if via == "" then NoVia else Proxies(via), via == "");
    case CONNECT =>
      Single(ProxyAuthRequired);
    case _ =>
  }

  /** The warnings logged about one response: its method's alarm when suspicious, else none. */
  lemma ReportWarnings(m: Method, resp: Response)
    ensures Warnings(Report(m, resp)) == if Suspicious(m, resp) then [Alarm(m)] else []
  {
    assert Report(m, resp) == Checks(m, resp) + [Summary(m, resp)];
    WarningsAppend(Checks(m, resp), [Summary(m, resp)]);
    Single(Summary(m, resp));
    ChecksWarnings(m, resp);
  }

  /**
   * OPTIONS: a warning exactly when `Allow` is absent, has no value or an
   * empty first value, and then no value is logged; otherwise the first
   * `Allow` value, verbatim, and no warning.
   */
  lemma OptionsReport(resp: Response)
    ensures var h := resp.header;
      NoAllow in Report(OPTIONS, resp) <==> "Allow" !in h || h["Allow"] == [] || h["Allow"][0] == ""
    ensures var h := resp.header;
      "Allow" in h && h["Allow"] != [] && h["Allow"][0] != "" ==>
        Allowed(h["Allow"][0]) in Report(OPTIONS, resp) && Warnings(Report(OPTIONS, resp)) == []
    ensures Get(resp.header, "Allow") == "" ==>
              Report(OPTIONS, resp) == [CheckingAllow, NoAllow, Summary(OPTIONS, resp)]
  {
  }

  /**
   * TRACE: a warning exactly when `Via` is absent, has no value or an empty
   * first value, and then no value is logged; otherwise the first `Via`
   * value, verbatim, and no warning.
   */
  lemma TraceReport(resp: Response)
    ensures var h := resp.header;
      NoVia in Report(TRACE, resp) <==> "Via" !in h || h["Via"] == [] || h["Via"][0] == ""
    ensures var h := resp.header;
      "Via" in h && h["Via"] != [] && h["Via"][0] != "" ==>
        Proxies(h["Via"][0]) in Report(TRACE, resp) && Warnings(Report(TRACE, resp)) == []
    ensures Get(resp.header, "Via") == "" ==>
              Report(TRACE, resp) == [CheckingVia, NoVia, Summary(TRACE, resp)]
  {
  }

  /** CONNECT: a warning exactly on status 407, whatever the headers. */
  lemma ConnectReport(resp: Response)
    ensures ProxyAuthRequired in Report(CONNECT, resp) <==> resp.status == 407
    ensures resp.status != 407 ==> Report(CONNECT, resp) == [Summary(CONNECT, resp)]
  {
  }

  /** HEAD, GET, POST and PUT get the summary record and nothing else. */
  lemma PlainReport(m: Method, resp: Response)
    requires m in {HEAD, GET, POST, PUT}
    ensures Report(m, resp) == [Summary(m, resp)]
  {
  }
}
