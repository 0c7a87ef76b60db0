/**
 * The HTTP client that ships reports to the BitL desktop app. Its host,
 * port and timeout are fixed at construction. Sending is modelled as
 * appending a request (URL and payload) to the `posted` log: the JSON
 * encoding, the HTTP transport and its silently ignored failures are not
 * modelled. What the PHP code reads from its surroundings ($_SERVER, the
 * file system, debug_backtrace) is passed in as `Environment` and frames.
 */
module HttpClient {
  import opened Wrappers
  import opened Text
  import opened Values
  import opened Formatter
  import opened SourceContext

  /** An exception or error as the client sees it: class, message, location and the rendered trace. */
  datatype Throwable = Throwable(className: string, message: string, file: string, line: int, trace: string)

  /** The body of each request, one constructor per endpoint. */
  datatype Payload =
    | ErrorPayload(errorType: string, message: string, file: string, line: int, trace: string,
                   snippet: seq<SnippetLine>, domain: Option<string>)
    | WarningPayload(level: string, message: string, file: string, line: int, domain: Option<string>)
    | DumpPayload(file: string, line: int, content: string, valueType: string, domain: Option<string>)
    | QueryPayload(sql: string, bindings: seq<string>, time: real, connection: string,
                   callerFile: Option<string>, callerLine: Option<int>, domain: Option<string>)
    | MailPayload(from: string, to: seq<string>, cc: seq<string>, bcc: seq<string>, subject: string,
                  html: Option<string>, text: Option<string>)

  /** One POST: the full URL and the payload. */
  datatype Request = Request(url: string, payload: Payload)

  /**
   * What the client reads from the running process: the HTTP_HOST and
   * SERVER_NAME server variables and the readable source files, by path,
   * as lists of lines.
   */
  datatype Environment = Environment(httpHost: Option<string>, serverName: Option<string>,
                                     files: map<string, seq<string>>)

  /** detectDomain: HTTP_HOST if set, else SERVER_NAME, else none. */
  function DetectDomain(env: Environment): (r: Option<string>)
    ensures env.httpHost.Some? ==> r == env.httpHost
    ensures env.httpHost.None? ==> r == env.serverName
  {
    if env.httpHost.Some? then env.httpHost else env.serverName
  }

  /** An explicit domain wins over the detected one. */
  function ResolveDomain(domain: Option<string>, env: Environment): (r: Option<string>)
    ensures domain.Some? ==> r == domain
    ensures domain.None? ==> r == DetectDomain(env)
    ensures r.None? <==> domain.None? && env.httpHost.None? && env.serverName.None?
  {
    if domain.Some? then domain else DetectDomain(env)
  }

  /** The lines of a file, or none when it is missing or unreadable. */
  function SourceLines(env: Environment, path: string): (r: Option<seq<string>>)
    ensures r.Some? <==> path in env.files
    ensures r.Some? ==> r.value == env.files[path]
  {
    if path in env.files then Some(env.files[path]) else None
  }

  /** The caller location of a query: the file and line of the caller frame, each absent when missing. */
  function CallerLocation(caller: Option<Frame>): (Option<string>, Option<int>)
  {
    match caller
    case None => (None, None)
    case Some(f) => (f.file, f.line)
  }

  /** The payloads the send methods build. */
  function ErrorReport(e: Throwable, domain: Option<string>, env: Environment): Payload {
    ErrorPayload(e.className, e.message, e.file, e.line, e.trace,
                 CodeSnippet(SourceLines(env, e.file), e.line, 5), ResolveDomain(domain, env))
  }

  function WarningReport(message: string, file: string, line: int, domain: Option<string>, env: Environment): Payload {
    WarningPayload("Warning", message, file, line, ResolveDomain(domain, env))
  }

  function DumpReport(value: Value, file: string, line: int, domain: Option<string>, env: Environment): Payload {
    DumpPayload(file, line, Format(value), GetType(value), ResolveDomain(domain, env))
  }

  function QueryReport(sql: string, bindings: seq<string>, time: real, connection: Option<string>,
                       domain: Option<string>, env: Environment, backtrace: seq<Frame>): Payload
  {
    var location := CallerLocation(QueryCaller(Innermost(backtrace, QueryBacktraceLimit)));
    QueryPayload(sql, bindings, time, connection.GetOr("default"), location.0, location.1,
                 ResolveDomain(domain, env))
  }

  function MailReport(from: string, to: seq<string>, subject: string, html: Option<string>,
                      text: Option<string>, cc: seq<string>, bcc: seq<string>): Payload
  {
    MailPayload(from, to, cc, bcc, subject, html, text)
  }

  /** debug_backtrace in sendQuery is limited to 10 frames. */
  const QueryBacktraceLimit: nat := 10

  /** The frames debug_backtrace hands back under a limit: the innermost `limit` ones. */
  function Innermost(backtrace: seq<Frame>, limit: nat): (r: seq<Frame>)
    ensures |r| == if |backtrace| < limit then |backtrace| else limit
    ensures r <= backtrace
  {
    if |backtrace| <= limit then backtrace else backtrace[..limit]
  }

  class Client {
    const host: string
    const port: int
    const timeout: int
    /** Every request posted so far, oldest first. */
    var posted: seq<Request>

    /** The defaults are 127.0.0.1, port 8765 and a one-second timeout. */
    constructor (host: string := "127.0.0.1", port: int := 8765, timeout: int := 1)
      ensures this.host == host && this.port == port && this.timeout == timeout
      ensures posted == []
    {
      this.host := host;
      this.port := port;
      this.timeout := timeout;
      posted := [];
    }

    /** A client built with the default configuration and nothing posted yet. */
    predicate IsDefault()
      reads this
    {
      host == "127.0.0.1" && port == 8765 && timeout == 1 && posted == []
    }

    /** The URL of an endpoint on the configured server. */
    function Url(endpoint: string): (r: string)
    {
      "http://" + host + ":" + Decimal(port) + endpoint
    }

    /** post: one request to the endpoint; a failure never reaches the caller. */
    method Post(endpoint: string, payload: Payload)
      modifies this
      ensures posted == old(posted) + [Request(Url(endpoint), payload)]
    {
      posted := posted + [Request(Url(endpoint), payload)];
    }

    /** sendError: the exception, the code around its line (5 lines each side) and the domain. */
    method SendError(e: Throwable, domain: Option<string>, env: Environment)
      modifies this
      ensures posted == old(posted) + [Request(Url("/error"), ErrorReport(e, domain, env))]
    {
      var snippet := GetCodeSnippet(SourceLines(env, e.file), e.line);
      Post("/error", ErrorPayload(e.className, e.message, e.file, e.line, e.trace,
                                  snippet, ResolveDomain(domain, env)));
    }

    /** sendWarning: the level is always "Warning". */
    method SendWarning(message: string, file: string, line: int, domain: Option<string>, env: Environment)
      modifies this
      ensures posted == old(posted) + [Request(Url("/warning"), WarningReport(message, file, line, domain, env))]
    {
      Post("/warning", WarningPayload("Warning", message, file, line, ResolveDomain(domain, env)));
    }

    /** sendDump: the value is sent formatted, with its type name. */
    method SendDump(value: Value, file: string, line: int, domain: Option<string>, env: Environment)
      modifies this
      ensures posted == old(posted) + [Request(Url("/dump"), DumpReport(value, file, line, domain, env))]
    {
      var content := FormatValue(value);
      Post("/dump", DumpPayload(file, line, content, GetType(value), ResolveDomain(domain, env)));
    }

    /**
     * sendQuery: the caller is looked up in the innermost 10 frames; the
     * connection defaults to "default"; file and line are absent when there
     * is no frame or the frame has none.
     */
    method SendQuery(sql: string, bindings: seq<string>, time: real, connection: Option<string>,
                     domain: Option<string>, env: Environment, backtrace: seq<Frame>)
      modifies this
      ensures posted == old(posted) + [Request(Url("/query"),
                QueryReport(sql, bindings, time, connection, domain, env, backtrace))]
    {
      var caller := FindQueryCaller(Innermost(backtrace, QueryBacktraceLimit));
      var file := if caller.Some? then caller.value.file else None;
      var line := if caller.Some? then caller.value.line else None;
      Post("/query", QueryPayload(sql, bindings, time, connection.GetOr("default"), file, line,
                                  ResolveDomain(domain, env)));
    }

    /** sendMail: the message as given; mail carries no domain. */
    method SendMail(from: string, to: seq<string>, subject: string, html: Option<string>,
                    text: Option<string>, cc: seq<string>, bcc: seq<string>)
      modifies this
      ensures posted == old(posted) + [Request(Url("/mail"), MailReport(from, to, subject, html, text, cc, bcc))]
    {
      Post("/mail", MailPayload(from, to, cc, bcc, subject, html, text));
    }
  }

  /** The URL can be taken apart again: scheme, host, the port read back as a number, and the endpoint. */
  lemma UrlShape(c: Client, endpoint: string)
    ensures var u := c.Url(endpoint);
      && |u| == 8 + |c.host| + |Decimal(c.port)| + |endpoint|
      && u[..7] == "http://"
      && u[7..7 + |c.host|] == c.host
      && u[7 + |c.host|] == ':'
      && ParseDecimal(u[8 + |c.host|..|u| - |endpoint|]) == Some(c.port)
      && u[|u| - |endpoint|..] == endpoint
  {
    var head := "http://" + c.host + ":";
    var digits := Decimal(c.port);
    var u := c.Url(endpoint);
    assert u == head + digits + endpoint;
    assert |head| == 8 + |c.host|;
    assert u[..|head|] == head;
    assert u[|head|..|head| + |digits|] == digits;
    assert u[|head| + |digits|..] == endpoint;
    assert u[..7] == head[..7] && u[7..7 + |c.host|] == head[7..7 + |c.host|] && u[7 + |c.host|] == head[7 + |c.host|];
    DecimalRoundTrip(c.port);
  }

  /** The default server address is http://127.0.0.1:8765. */
  lemma DefaultUrl(c: Client, endpoint: string)
    requires c.host == "127.0.0.1" && c.port == 8765
    ensures c.Url(endpoint) == "http://127.0.0.1:8765" + endpoint
  {
  }
}
