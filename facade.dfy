/**
 * The BitL facade: static state made of an on/off switch (initially on)
 * and a client created on first use or installed by the application.
 * Every send is gated on the switch; a disabled facade neither creates a
 * client nor touches the one it has. One `BitL` object stands for the
 * class's static fields.
 */
module Facade {
  import opened Wrappers
  import opened Values
  import opened SourceContext
  import opened HttpClient

  /** dump's backtrace holds at most two frames: dump itself and its caller. */
  const DumpBacktraceLimit: nat := 2

  /**
   * The frame dump reports: its caller (frame 1) when there is one, else
   * frame 0; none for an empty backtrace.
   */
  function DumpCaller(backtrace: seq<Frame>): (r: Option<Frame>)
    ensures r.None? <==> |backtrace| == 0
    ensures |backtrace| >= 2 ==> r == Some(backtrace[1])
    ensures |backtrace| == 1 ==> r == Some(backtrace[0])
  {
    var frames := Innermost(backtrace, DumpBacktraceLimit);
    if |frames| > 1 then Some(frames[1]) else if |frames| > 0 then Some(frames[0]) else None
  }

  /** The file and line dump reports: "unknown" and 0 stand in for what the frame lacks. */
  function DumpLocation(backtrace: seq<Frame>): (r: (string, int))
    ensures DumpCaller(backtrace).Some? ==>
              r == (DumpCaller(backtrace).value.file.GetOr("unknown"), DumpCaller(backtrace).value.line.GetOr(0))
    ensures DumpCaller(backtrace).None? ==> r == ("unknown", 0)
  {
    match DumpCaller(backtrace)
    case None => ("unknown", 0)
    case Some(f) => (f.file.GetOr("unknown"), f.line.GetOr(0))
  }

  class BitL {
    var client: Client?
    var enabled: bool

    /** The initial static state: no client yet, and enabled. */
    constructor ()
      ensures client == null && enabled
    {
      client := null;
      enabled := true;
    }

    /** The requests the current client has posted; none while there is no client. */
    ghost function Log(): seq<Request>
      reads this, client
    {
      if client == null then [] else client.posted
    }

    /** Nothing observable changed: same switch, same client, nothing posted. */
    twostate predicate Untouched()
      reads this, client
    {
      enabled == old(enabled) && client == old(client)
      && (client != null ==> client.posted == old(client.posted))
    }

    /**
     * Exactly one request was posted, through the client that was set or,
     * when none was, through a new client with the default configuration.
     */
    twostate predicate SentOne(endpoint: string, payload: Payload)
      reads this, client
    {
      && enabled == old(enabled)
      && client != null
      && (old(client) != null ==> client == old(client))
      && (old(client) == null ==> fresh(client) && client.host == "127.0.0.1"
                                  && client.port == 8765 && client.timeout == 1)
      && client.posted == old(Log()) + [Request(client.Url(endpoint), payload)]
    }

    /** A send: one request when the facade was enabled, nothing at all otherwise. */
    twostate predicate Gated(endpoint: string, payload: Payload)
      reads this, client
    {
      if old(enabled) then SentOne(endpoint, payload) else Untouched()
    }

    /** client(): creates the default client only when none is set, and keeps it. */
    method GetClient() returns (c: Client)
      modifies this
      ensures client == c && enabled == old(enabled)
      ensures old(client) != null ==> c == old(client)
      ensures old(client) == null ==> fresh(c) && c.IsDefault()
    {
      if client == null {
        client := new Client();
      }
      c := client;
    }

    /** setClient: later sends go through `c`. */
    method SetClient(c: Client)
      modifies this
      ensures client == c && enabled == old(enabled)
    {
      client := c;
    }

    method Enable()
      modifies this
      ensures enabled && client == old(client)
    {
      enabled := true;
    }

    method Disable()
      modifies this
      ensures !enabled && client == old(client)
    {
      enabled := false;
    }

    method IsEnabled() returns (r: bool)
      ensures r == enabled
    {
      r := enabled;
    }

    method Error(e: Throwable, domain: Option<string>, env: Environment)
      modifies this, client
      ensures Gated("/error", ErrorReport(e, domain, env))
    {
      if !enabled {
        return;
      }
      var c := GetClient();
      c.SendError(e, domain, env);
    }

    method Warning(message: string, file: string, line: int, domain: Option<string>, env: Environment)
      modifies this, client
      ensures Gated("/warning", WarningReport(message, file, line, domain, env))
    {
      if !enabled {
        return;
      }
      var c := GetClient();
      c.SendWarning(message, file, line, domain, env);
    }

    /** dump: reports the value at its caller's location when enabled, and returns it unchanged either way. */
    method Dump(value: Value, domain: Option<string>, env: Environment, backtrace: seq<Frame>) returns (r: Value)
      modifies this, client
      ensures r == value
      ensures Gated("/dump", DumpReport(value, DumpLocation(backtrace).0, DumpLocation(backtrace).1, domain, env))
    {
      if !enabled {
        return value;
      }
      var location := DumpLocation(backtrace);
      var c := GetClient();
      c.SendDump(value, location.0, location.1, domain, env);
      return value;
    }

    method Query(sql: string, bindings: seq<string>, time: real, connection: Option<string>,
                 domain: Option<string>, env: Environment, backtrace: seq<Frame>)
      modifies this, client
      ensures Gated("/query", QueryReport(sql, bindings, time, connection, domain, env, backtrace))
    {
      if !enabled {
        return;
      }
      var c := GetClient();
      c.SendQuery(sql, bindings, time, connection, domain, env, backtrace);
    }

    method Mail(from: string, to: seq<string>, subject: string, html: Option<string>,
                text: Option<string>, cc: seq<string>, bcc: seq<string>)
      modifies this, client
      ensures Gated("/mail", MailReport(from, to, subject, html, text, cc, bcc))
    {
      if !enabled {
        return;
      }
      var c := GetClient();
      c.SendMail(from, to, subject, html, text, cc, bcc);
    }
  }
}
