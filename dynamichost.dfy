/**
 * The DynamicHost middleware: its configuration, its construction and its
 * request handler.
 *
 * A `DynamicHost` is never changed once `New` has built it, so it is a value
 * here; what `ServeHTTP` changes in place is the request, the response writer
 * and (by forwarding) the next handler.
 */
module DynamicHostPlugin {
  import opened Wrappers
  import opened Regexp
  import opened Http
  import opened Rules

  /** The plugin configuration: the rewrite rules, in evaluation order. */
  datatype Config = Config(headers: seq<HeaderConfig>)

  /** The header every rule writes, next to the request's host field. */
  const HostKey: string := "Host"

  /** The error `New` reports for a configuration without rules. */
  const EmptyHeadersError: string := "headers cannot be empty"

  /** The message of the 500 response for a pattern that does not compile. */
  const InvalidPatternMessage: string := "Invalid regex pattern"

  /** The default configuration: no rules at all. */
  function CreateConfig(): (c: Config)
    ensures |c.headers| == 0
  {
    Config([])
  }

  /** A built middleware: the next handler, the rules and the instance name. */
  datatype DynamicHost = DynamicHost(next: Handler, headers: seq<HeaderConfig>, name: string)
  {
    /**
     * Applies every rule to the request's host in list order, writing each
     * rule's output into both the host field and the `Host` header, then
     * forwards the request. The first pattern that does not compile ends the
     * request with a 500 response; the rules already applied stay applied and
     * the later patterns are never compiled.
     */
    method ServeHTTP<R>(rw: ResponseWriter, req: Request, c: Compiler<R>)
      modifies rw, req, next, c
      // Rules 0..k-1 were applied in order, each to the previous one's output,
      // where k is the first invalid rule or the number of rules.
      ensures Rewrite(c.engine, headers[..FirstInvalid(c.engine, headers)], old(req.host)) == Some(req.host)
      ensures req.headers ==
        if FirstInvalid(c.engine, headers) == 0 then old(req.headers)
        else old(req.headers)[HostKey := req.host]
      // Once a rule has been applied, the host field and the header agree.
      ensures FirstInvalid(c.engine, headers) > 0 ==> HostKey in req.headers && req.headers[HostKey] == req.host
      ensures req.url == old(req.url) && req.body == old(req.body)
      // The patterns compiled, in order, are those up to and including the
      // first invalid one.
      ensures c.log == old(c.log) + Patterns(
        if FirstInvalid(c.engine, headers) < |headers| then headers[..FirstInvalid(c.engine, headers) + 1]
        else headers)
      // Every pattern compiles: the fully rewritten request goes to `next`, once.
      ensures Rewrite(c.engine, headers, old(req.host)).Some? ==>
        Rewrite(c.engine, headers, old(req.host)) == Some(req.host) &&
        next.received == old(next.received) + [req] &&
        rw.status == old(rw.status) && rw.body == old(rw.body)
      // Some pattern does not compile: a 500 response and no forwarding.
      ensures Rewrite(c.engine, headers, old(req.host)).None? ==>
        next.received == old(next.received) &&
        rw.status == StatusInternalServerError &&
        rw.body == old(rw.body) + InvalidPatternMessage + "\n"
    {
      var e := c.engine;
      RewriteSucceedsIff(e, headers, req.host);
      var i := 0;
      while i < |headers|
        invariant i <= FirstInvalid(e, headers)
        invariant c.log == old(c.log) + Patterns(headers[..i])
        invariant Rewrite(e, headers[..i], old(req.host)) == Some(req.host)
        invariant req.headers == if i == 0 then old(req.headers) else old(req.headers)[HostKey := req.host]
        invariant req.url == old(req.url) && req.body == old(req.body)
        invariant rw.status == old(rw.status) && rw.body == old(rw.body)
        invariant next.received == old(next.received)
      {
        PatternsPrefixStep(headers, i);
        var re := c.Compile(headers[i].regexPattern);
        if re.None? {
          rw.Error(InvalidPatternMessage, StatusInternalServerError);
          return;
        }
        var newHost := e.replaceAll(re.value, req.host, headers[i].newHost);
        RewritePrefixStep(e, headers, i, old(req.host), req.host);
        req.host := newHost;
        req.SetHeader(HostKey, newHost);
        i := i + 1;
      }
      assert headers[..i] == headers;
      next.ServeHTTP(rw, req);
    }
  }

  /** `New`: refuses a configuration without rules; otherwise keeps the
      configured rules as they are, in the same order. */
  function New(next: Handler, config: Config, name: string): (r: Result<DynamicHost, string>)
    ensures r.Failure? <==> |config.headers| == 0
    ensures r.Failure? ==> r.error == EmptyHeadersError
    ensures r.Success? ==> r.value.headers == config.headers && r.value.next == next && r.value.name == name
  {
    if |config.headers| == 0 then Failure(EmptyHeadersError)
    else Success(DynamicHost(next, config.headers, name))
  }

  /** The default configuration is always refused. */
  lemma DefaultConfigRejected(next: Handler, name: string)
    ensures New(next, CreateConfig(), name) == Failure(EmptyHeadersError)
  {
  }
}
