/** Selection and assembly of an MCP client transport (`createTransport`).
    Every call into foreign code is an input held by `Host`; the three SDK
    transport constructors are recorded by the arguments they receive. */
module Transport {
  import opened Wrappers
  import opened Environment

  /** A parsed URL, as far as this code looks into it. */
  datatype Url = Url(href: string, protocol: string)

  /** A thrown value, as the catch clause sees it: an `Error` object with
      its message, any other value with what `String(value)` renders it as,
      or a value the catch clause cannot turn into text (`String(value)`
      throws, as for `Object.create(null)`, or reading `message` throws),
      with the message of what that conversion throws. */
  datatype Thrown =
    | ErrorObject(message: string)
    | NonError(rendered: string)
    | Unconvertible(conversionError: string)

  /** `TransportOptions`; an absent optional field is `None`. */
  datatype TransportOptions = TransportOptions(
    transportType: string,
    command: Option<string>,
    args: Option<seq<string>>,
    url: Option<string>,
    headers: Option<map<string, string>>,
    disableSSLVerification: Option<bool>)

  /** What `findActualExecutable` returns. */
  datatype Resolved = Resolved(cmd: string, args: seq<string>)

  /** An `https.Agent`, recorded by its certificate policy. */
  datatype Agent = Agent(rejectUnauthorized: bool)

  /** The custom fetch built around an HTTPS agent. */
  datatype CustomFetch = CustomFetch(httpsAgent: Agent)

  datatype RequestInit = RequestInit(headers: map<string, string>)

  datatype EventSourceInit = EventSourceInit(fetch: CustomFetch)

  /** The untyped `transportOptions` object; an unset slot is `None`. */
  datatype ClientOptions = ClientOptions(
    requestInit: Option<RequestInit>,
    eventSourceInit: Option<EventSourceInit>,
    fetch: Option<CustomFetch>)

  /** The arguments each SDK transport constructor receives. */
  datatype Transport =
    | Stdio(command: string, args: seq<string>, env: Env, stderr: string)
    | Sse(url: Url, options: ClientOptions)
    | Http(url: Url, options: ClientOptions)

  /** The foreign code the factory calls, as inputs. */
  datatype Host = Host(
    processEnv: Snapshot,
    defaultEnvironment: Env,
    findActualExecutable: (string, seq<string>) -> Result<Resolved, Thrown>,
    parseUrl: string -> Result<Url, string>,
    constructorThrows: Transport -> Option<Thrown>)

  const Prefix := "Failed to create transport: "
  const MissingUrlMessage := "URL must be provided for SSE or HTTP transport types."
  const UnsupportedMessage := "Unsupported transport type: "

  /** The message of the error the catch clause throws for `e`: the prefix
      and the `Error`'s message or the `String(...)` rendering; when that
      conversion itself throws, its error escapes the catch clause with no
      prefix. */
  function Rethrown(e: Thrown): (m: string)
    ensures !e.Unconvertible? ==> Prefix <= m
    ensures e.ErrorObject? ==> m == Prefix + e.message
    ensures e.NonError? ==> m == Prefix + e.rendered
    ensures e.Unconvertible? ==> m == e.conversionError
  {
    match e
    case ErrorObject(m) => Prefix + m
    case NonError(s) => Prefix + s
    case Unconvertible(m) => m
  }

  /** Calls the SDK constructor on `t`: it returns `t` or throws. */
  function Construct(t: Transport, host: Host): (r: Result<Transport, Thrown>)
    ensures r == Ok(t) <==> host.constructorThrows(t).None?
    ensures r.Err? ==> host.constructorThrows(t) == Some(r.error)
  {
    match host.constructorThrows(t)
    case None => Ok(t)
    case Some(e) => Err(e)
  }

  /** `createStdioTransport`, as a function of its inputs: a stdio transport
      built from what the resolver returns for `command ?? ""` and the
      defaulted arguments, with the child environment and a piped stderr. */
  function StdioTransport(options: TransportOptions, host: Host): (r: Result<Transport, Thrown>)
    ensures r.Ok? ==>
      && r.value.Stdio?
      && r.value.stderr == "pipe"
      && host.findActualExecutable(options.command.GetOr(""), options.args.GetOr([]))
         == Ok(Resolved(r.value.command, r.value.args))
      && r.value.env == ChildEnvironment(host.processEnv, host.defaultEnvironment)
    ensures r.Err? ==>
      || host.findActualExecutable(options.command.GetOr(""), options.args.GetOr([])) == Err(r.error)
      || exists resolved ::
           && host.findActualExecutable(options.command.GetOr(""), options.args.GetOr([])) == Ok(resolved)
           && host.constructorThrows(Stdio(resolved.cmd, resolved.args,
                ChildEnvironment(host.processEnv, host.defaultEnvironment), "pipe")) == Some(r.error)
  {
    var args := options.args.GetOr([]);
    var env := ChildEnvironment(host.processEnv, host.defaultEnvironment);
    match host.findActualExecutable(options.command.GetOr(""), args)
    case Err(e) => Err(e)
    case Ok(resolved) => Construct(Stdio(resolved.cmd, resolved.args, env, "pipe"), host)
  }

  /** `createStdioTransport` step by step: default the arguments, copy the
      defined process entries, spread them over the defaults, resolve the
      command and build the stdio transport. */
  method CreateStdioTransport(options: TransportOptions, host: Host) returns (r: Result<Transport, Thrown>)
    ensures r == StdioTransport(options, host)
  {
    var args: seq<string> := [];
    if options.args.Some? {
      args := options.args.value;
    }
    var processEnv := CollectProcessEnv(host.processEnv);
    var env := Merge(host.defaultEnvironment, processEnv);
    var resolved := host.findActualExecutable(options.command.GetOr(""), args);
    if resolved.Err? {
      return Err(resolved.error);
    }
    var transport := Stdio(resolved.value.cmd, resolved.value.args, env, "pipe");
    var thrown := host.constructorThrows(transport);
    if thrown.Some? {
      return Err(thrown.value);
    }
    r := Ok(transport);
  }

  /** The HTTPS agent, built only when certificate checks are disabled. */
  function HttpsAgent(options: TransportOptions): (a: Option<Agent>)
    ensures a.Some? <==> options.disableSSLVerification == Some(true)
    ensures a.Some? ==> !a.value.rejectUnauthorized
  {
    if options.disableSSLVerification == Some(true) then Some(Agent(false)) else None
  }

  /** `createCustomFetch`: no fetch override without an agent. */
  function CreateCustomFetch(httpsAgent: Option<Agent>): (f: Option<CustomFetch>)
    ensures f.Some? <==> httpsAgent.Some?
    ensures f.Some? ==> f.value.httpsAgent == httpsAgent.value
  {
    match httpsAgent
    case None => None
    case Some(agent) => Some(CustomFetch(agent))
  }

  /** The per-request `agent` selector installed by the custom fetch. */
  function AgentFor(fetch: CustomFetch, requestUrl: Url): (a: Option<Agent>)
    ensures a.Some? <==> requestUrl.protocol == "https:"
    ensures a.Some? ==> a.value == fetch.httpsAgent
  {
    if requestUrl.protocol == "https:" then Some(fetch.httpsAgent) else None
  }

  /** The `requestInit` slot both builders fill from the headers. */
  function RequestInitFor(options: TransportOptions): (ri: Option<RequestInit>)
    ensures ri.Some? <==> options.headers.Some?
    ensures ri.Some? ==> ri.value.headers == options.headers.value
  {
    match options.headers
    case None => None
    case Some(h) => Some(RequestInit(h))
  }

  /** The options given to `SSEClientTransport`: headers under
      `requestInit`, the custom fetch under `eventSourceInit.fetch`. */
  function SseOptions(options: TransportOptions, customFetch: Option<CustomFetch>): (o: ClientOptions)
    ensures o.requestInit == RequestInitFor(options)
    ensures o.eventSourceInit.Some? <==> customFetch.Some?
    ensures o.eventSourceInit.Some? ==> o.eventSourceInit.value.fetch == customFetch.value
    ensures o.fetch.None?
  {
    var o := ClientOptions(None, None, None);
    var o := if options.headers.Some? then o.(requestInit := RequestInitFor(options)) else o;
    if customFetch.Some? then o.(eventSourceInit := Some(EventSourceInit(customFetch.value))) else o
  }

  /** The options given to `StreamableHTTPClientTransport`: headers under
      `requestInit`, the custom fetch under `fetch`. */
  function HttpOptions(options: TransportOptions, customFetch: Option<CustomFetch>): (o: ClientOptions)
    ensures o.requestInit == RequestInitFor(options)
    ensures o.fetch == customFetch
    ensures o.eventSourceInit.None?
  {
    var o := ClientOptions(None, None, None);
    var o := if options.headers.Some? then o.(requestInit := RequestInitFor(options)) else o;
    if customFetch.Some? then o.(fetch := customFetch) else o
  }

  /** The body of the `try` block of `createTransport`: the transport built,
      or the value it throws. "stdio" is checked first; every other type
      needs a non-empty URL that parses, and only then is the type checked. */
  function Dispatch(options: TransportOptions, host: Host): (r: Result<Transport, Thrown>)
    ensures r.Ok? ==>
      && (r.value.Stdio? <==> options.transportType == "stdio")
      && (r.value.Sse? <==> options.transportType == "sse")
      && (r.value.Http? <==> options.transportType == "http")
    ensures options.transportType != "stdio" && (options.url.None? || options.url.value == "") ==>
      r == Err(ErrorObject(MissingUrlMessage))
    ensures options.transportType !in {"stdio", "sse", "http"} ==> r.Err?
  {
    if options.transportType == "stdio" then
      StdioTransport(options, host)
    else if options.url.None? || options.url.value == "" then
      Err(ErrorObject(MissingUrlMessage))
    else
      match host.parseUrl(options.url.value)
      case Err(m) => Err(ErrorObject(m))
      case Ok(url) =>
        var httpsAgent := HttpsAgent(options);
        if options.transportType == "sse" then
          Construct(Sse(url, SseOptions(options, CreateCustomFetch(httpsAgent))), host)
        else if options.transportType == "http" then
          Construct(Http(url, HttpOptions(options, CreateCustomFetch(httpsAgent))), host)
        else
          Err(ErrorObject(UnsupportedMessage + options.transportType))
  }

  /** `createTransport`: the transport, or one error whose message is the
      prefix followed by the message of what the dispatch threw, unless
      that value cannot be turned into text. */
  function CreateTransport(options: TransportOptions, host: Host): (r: Result<Transport, string>)
    ensures r.Ok? <==> Dispatch(options, host).Ok?
    ensures r.Err? ==> Prefix <= r.error || Dispatch(options, host).error.Unconvertible?
  {
    match Dispatch(options, host)
    case Ok(t) => Ok(t)
    case Err(e) => Err(Rethrown(e))
  }
}
