/** What `createTransport` promises, stated over every input and every
    behaviour of the foreign code it calls. */
module TransportProperties {
  import opened Wrappers
  import opened Environment
  import opened Transport

  /** A stdio transport receives the resolver's command and arguments
      unchanged, the merged child environment and a piped stderr. The
      resolver is asked about `command ?? ""` and `args`, defaulting to []. */
  lemma StdioResult(options: TransportOptions, host: Host)
    requires options.transportType == "stdio"
    ensures var r := CreateTransport(options, host);
      r.Ok? ==>
        && r.value.Stdio?
        && r.value.stderr == "pipe"
        && host.findActualExecutable(options.command.GetOr(""), options.args.GetOr([]))
           == Ok(Resolved(r.value.command, r.value.args))
        && r.value.env == ChildEnvironment(host.processEnv, host.defaultEnvironment)
  {
  }

  /** When the resolver and the constructor both succeed, stdio succeeds. */
  lemma StdioSucceeds(options: TransportOptions, host: Host, resolved: Resolved)
    requires options.transportType == "stdio"
    requires host.findActualExecutable(options.command.GetOr(""), options.args.GetOr([])) == Ok(resolved)
    requires host.constructorThrows(
      Stdio(resolved.cmd, resolved.args, ChildEnvironment(host.processEnv, host.defaultEnvironment), "pipe")).None?
    ensures CreateTransport(options, host)
         == Ok(Stdio(resolved.cmd, resolved.args, ChildEnvironment(host.processEnv, host.defaultEnvironment), "pipe"))
  {
  }

  /** The stdio environment: every defined process entry with its value,
      every default not overridden with its default value, nothing else;
      an entry named `__proto__` is dropped. */
  lemma StdioEnvironment(options: TransportOptions, host: Host)
    requires CreateTransport(options, host).Ok? && CreateTransport(options, host).value.Stdio?
    ensures var env := CreateTransport(options, host).value.env;
      && (forall k :: k in env <==>
            (k in host.processEnv && k != ProtoKey && host.processEnv[k].Some?) || k in host.defaultEnvironment)
      && (forall k :: k in host.processEnv && k != ProtoKey && host.processEnv[k].Some? ==>
            env[k] == host.processEnv[k].value)
      && (forall k :: k in host.defaultEnvironment && (k !in host.processEnv || k == ProtoKey || host.processEnv[k].None?) ==>
            env[k] == host.defaultEnvironment[k])
  {
    StdioResult(options, host);
  }

  /** "stdio" is dispatched first: the URL, the headers and the TLS flag
      play no part in its outcome. */
  lemma StdioIgnoresNetworkFields(options: TransportOptions, host: Host,
                                  url: Option<string>, headers: Option<map<string, string>>,
                                  disable: Option<bool>)
    requires options.transportType == "stdio"
    ensures CreateTransport(options.(url := url, headers := headers, disableSSLVerification := disable), host)
         == CreateTransport(options, host)
  {
  }

  /** A resolver that throws makes stdio fail with its wrapped message. */
  lemma StdioResolverThrows(options: TransportOptions, host: Host, e: Thrown)
    requires options.transportType == "stdio"
    requires host.findActualExecutable(options.command.GetOr(""), options.args.GetOr([])) == Err(e)
    ensures CreateTransport(options, host) == Err(Rethrown(e))
  {
  }

  /** A stdio constructor that throws makes stdio fail with its wrapped
      message, after the resolver succeeded. */
  lemma StdioConstructorThrows(options: TransportOptions, host: Host, resolved: Resolved, e: Thrown)
    requires options.transportType == "stdio"
    requires host.findActualExecutable(options.command.GetOr(""), options.args.GetOr([])) == Ok(resolved)
    requires host.constructorThrows(
      Stdio(resolved.cmd, resolved.args, ChildEnvironment(host.processEnv, host.defaultEnvironment), "pipe")) == Some(e)
    ensures CreateTransport(options, host) == Err(Rethrown(e))
  {
  }

  /** Any type but "stdio" without a URL, or with an empty one, fails with
      the URL error, before parsing and before the type is checked. */
  lemma MissingUrl(options: TransportOptions, host: Host)
    requires options.transportType != "stdio"
    requires options.url.None? || options.url == Some("")
    ensures CreateTransport(options, host)
         == Err("Failed to create transport: " + "URL must be provided for SSE or HTTP transport types.")
  {
  }

  /** A URL that does not parse fails with the parser's message. */
  lemma UrlDoesNotParse(options: TransportOptions, host: Host, message: string)
    requires options.transportType != "stdio"
    requires options.url.Some? && options.url.value != ""
    requires host.parseUrl(options.url.value) == Err(message)
    ensures CreateTransport(options, host) == Err("Failed to create transport: " + message)
  {
  }

  /** An unknown type with a URL that parses fails as unsupported. */
  lemma UnsupportedType(options: TransportOptions, host: Host)
    requires options.transportType !in {"stdio", "sse", "http"}
    requires options.url.Some? && options.url.value != ""
    requires host.parseUrl(options.url.value).Ok?
    ensures CreateTransport(options, host)
         == Err("Failed to create transport: " + "Unsupported transport type: " + options.transportType)
  {
    assert Prefix + (UnsupportedMessage + options.transportType)
        == Prefix + UnsupportedMessage + options.transportType;
  }

  /** An unknown type never yields a transport, and its error is one of the
      URL error, the parse error or the unsupported-type error, in that
      order of precedence. */
  lemma UnknownTypeFails(options: TransportOptions, host: Host)
    requires options.transportType !in {"stdio", "sse", "http"}
    ensures CreateTransport(options, host) ==
      if options.url.None? || options.url.value == "" then
        Err(Prefix + MissingUrlMessage)
      else if host.parseUrl(options.url.value).Err? then
        Err(Prefix + host.parseUrl(options.url.value).error)
      else
        Err(Prefix + UnsupportedMessage + options.transportType)
  {
    assert Prefix + (UnsupportedMessage + options.transportType)
        == Prefix + UnsupportedMessage + options.transportType;
  }

  /** A successful SSE transport: the parsed URL, `requestInit` exactly when
      headers were given and holding them unchanged, the custom fetch under
      `eventSourceInit.fetch` exactly when TLS checks are disabled, never
      under `fetch`; its agent selector picks the unverified agent exactly
      for "https:" request URLs. */
  lemma SseResult(options: TransportOptions, host: Host)
    ensures var r := CreateTransport(options, host);
      r.Ok? && r.value.Sse? ==>
        && options.transportType == "sse"
        && options.url.Some?
        && host.parseUrl(options.url.value) == Ok(r.value.url)
        && (r.value.options.requestInit.Some? <==> options.headers.Some?)
        && (r.value.options.requestInit.Some? ==> r.value.options.requestInit.value.headers == options.headers.value)
        && (r.value.options.eventSourceInit.Some? <==> options.disableSSLVerification == Some(true))
        && r.value.options.fetch.None?
        && (r.value.options.eventSourceInit.Some? ==>
              forall u: Url :: AgentFor(r.value.options.eventSourceInit.value.fetch, u)
                               == if u.protocol == "https:" then Some(Agent(false)) else None)
  {
  }

  /** A successful streamable HTTP transport: as for SSE, but the custom
      fetch sits under `fetch` and never under `eventSourceInit`. */
  lemma HttpResult(options: TransportOptions, host: Host)
    ensures var r := CreateTransport(options, host);
      r.Ok? && r.value.Http? ==>
        && options.transportType == "http"
        && options.url.Some?
        && host.parseUrl(options.url.value) == Ok(r.value.url)
        && (r.value.options.requestInit.Some? <==> options.headers.Some?)
        && (r.value.options.requestInit.Some? ==> r.value.options.requestInit.value.headers == options.headers.value)
        && (r.value.options.fetch.Some? <==> options.disableSSLVerification == Some(true))
        && r.value.options.eventSourceInit.None?
        && (r.value.options.fetch.Some? ==>
              forall u: Url :: AgentFor(r.value.options.fetch.value, u)
                               == if u.protocol == "https:" then Some(Agent(false)) else None)
  {
  }

  /** A successful result is of the kind the type asks for. */
  lemma ResultMatchesType(options: TransportOptions, host: Host)
    requires CreateTransport(options, host).Ok?
    ensures options.transportType == "stdio" <==> CreateTransport(options, host).value.Stdio?
    ensures options.transportType == "sse" <==> CreateTransport(options, host).value.Sse?
    ensures options.transportType == "http" <==> CreateTransport(options, host).value.Http?
  {
  }

  /** A network transport is built whenever its constructor accepts it. */
  lemma NetworkSucceeds(options: TransportOptions, host: Host, url: Url)
    requires options.transportType in {"sse", "http"}
    requires options.url.Some? && options.url.value != ""
    requires host.parseUrl(options.url.value) == Ok(url)
    ensures var fetch := CreateCustomFetch(HttpsAgent(options));
      var t := if options.transportType == "sse" then Sse(url, SseOptions(options, fetch))
               else Http(url, HttpOptions(options, fetch));
      CreateTransport(options, host) ==
        match host.constructorThrows(t)
        case None => Ok(t)
        case Some(e) => Err(Rethrown(e))
  {
  }

  /** Every failure of the dispatch, whatever threw it, becomes one error
      and no transport comes with it. Its message is the prefix and the
      thrown error's message, or the prefix and its string form when it is
      not an `Error`; a value that cannot be turned into text makes the
      conversion's own error escape, without the prefix. */
  lemma ErrorsAreWrapped(options: TransportOptions, host: Host)
    ensures CreateTransport(options, host).Err? <==> Dispatch(options, host).Err?
    ensures Dispatch(options, host).Err? && Dispatch(options, host).error.ErrorObject? ==>
      CreateTransport(options, host).error == "Failed to create transport: " + Dispatch(options, host).error.message
    ensures Dispatch(options, host).Err? && Dispatch(options, host).error.NonError? ==>
      CreateTransport(options, host).error == "Failed to create transport: " + Dispatch(options, host).error.rendered
    ensures Dispatch(options, host).Err? && Dispatch(options, host).error.Unconvertible? ==>
      CreateTransport(options, host).error == Dispatch(options, host).error.conversionError
  {
  }
}
