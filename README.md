# Transport factory of the MCP Inspector CLI, in Dafny

This project models `createTransport` from the MCP Inspector's command-line
client. The function takes a `TransportOptions` record and returns one of three
client transports: a stdio transport that launches a subprocess, an SSE
transport, or a streamable HTTP transport. If anything goes wrong it throws a
single error, and no transport comes back. That error's message starts with
`Failed to create transport: `. The one exception is a thrown value that the
catch clause cannot turn into text: then the error of that conversion
escapes, without the prefix.

The model treats every foreign call as an input. These inputs are bundled in
`Transport.Host`:

- `process.env` is a snapshot map from each key to a value that may be
  `undefined` (`Option<string>`).
- `getDefaultEnvironment()` is a map.
- `findActualExecutable` is a function that returns the resolved command
  and arguments, or a thrown value.
- `new URL` is a partial parser. It returns a `Url` (its href and protocol)
  or the message of the `TypeError` it throws.
- The three SDK constructors are recorded by the arguments they receive
  (`Transport.Transport`). The hook `constructorThrows` says whether a
  constructor throws on those arguments, and what it throws.

A thrown value (`Transport.Thrown`) takes one of three forms:

- an `Error`, which carries its message;
- any other value, which carries its `String(...)` rendering;
- a value the catch clause cannot convert, which carries the message of the
  error that the conversion throws. Examples are a null-prototype object,
  whose `String(...)` throws, and an `Error` whose `message` getter throws.

The catch clause adds the prefix in the first two cases; in the third, the
conversion's error is what `createTransport` throws.

Modules:

- `Wrappers`: `Option` and `Result`.
- `Environment`: the copying loop over the process environment, which is a
  method with loop invariants. It also holds the specification function
  that loop is proved against, and the spread merge over the default
  environment.
- `Transport`: the data model and the operations. `createStdioTransport` is
  modelled twice: as the method `CreateStdioTransport`, which follows the
  source step by step, and as the function `StdioTransport`, which the
  method is proved equal to. The function is what the pure `Dispatch`
  (the body of the `try` block) and `CreateTransport` call.
- `TransportProperties`: lemmas about `CreateTransport` over all inputs and
  all behaviours of the foreign code. That includes a thrown value of any of
  the three forms of `Thrown`.

An unsupported transport type gets the "Unsupported transport type" error
only if a URL is present and parses. A missing or empty URL reports the URL
error. A malformed URL reports the parser's error.

The copying loop assigns to a plain object `{}`. An entry named `__proto__`
therefore reaches the inherited `__proto__` setter, which ignores a string
value. The variable never reaches the child environment, and the model
drops it in the same way.

## Model

| member | source | states |
|---|---|---|
| Environment.CollectProcessEnv | cli/src/transport.ts:28-34 | the loop keeps exactly the process-environment keys whose value is not `undefined`, each with its value, except `__proto__`, which the assignment on `{}` does not store |
| Environment.Merge | cli/src/transport.ts:36-41 | the spread `{...defaultEnv, ...processEnv}` holds the keys of both sides; the process value wins on a collision and a default is kept where it is not overridden |
| Environment.ChildEnvironment | cli/src/transport.ts:28-41 | the child environment holds every defined process entry with its value and every default not overridden by a defined entry with its default value, and nothing else; an `undefined` process value never deletes a default; a `__proto__` process entry neither appears nor overrides |
| Transport.CreateStdioTransport | cli/src/transport.ts:21-54 | the step-by-step stdio builder (args default, env copy loop, merge, resolve, construct) returns the same result as the stdio specification |
| Transport.Construct | cli/src/transport.ts:48-53 | a constructor call yields its recorded arguments exactly when the constructor does not throw, and otherwise the value it throws; the SSE and HTTP constructor calls at lines 113 and 127 go through it too |
| Transport.Rethrown | cli/src/transport.ts:131-135 | the catch clause throws the prefix followed by an `Error`'s message, or by `String(value)` for any other value; when that conversion throws, its own error escapes without the prefix (ErrorsAreWrapped) |
| Transport.StdioTransport | cli/src/transport.ts:21-54 | what `CreateTransport` runs for stdio: on success, a stdio transport with the resolver's command and arguments for `command ?? ""` and `args ?? []`, the child environment and `"pipe"`; on failure, what the resolver threw, or what the stdio constructor threw on exactly that transport (StdioResult, StdioSucceeds, StdioConstructorThrows) |
| Transport.HttpsAgent | cli/src/transport.ts:71-75 | an agent is created exactly when `disableSSLVerification` is true, and it does not reject unauthorized certificates |
| Transport.CreateCustomFetch | cli/src/transport.ts:78-98 | a custom fetch exists exactly when there is an agent, and it wraps that agent |
| Transport.AgentFor | cli/src/transport.ts:87-92 | the per-request selector returns the HTTPS agent exactly when the request URL's protocol is `"https:"`, and no agent otherwise |
| Transport.RequestInitFor | cli/src/transport.ts:103-107 | `requestInit` is set exactly when headers are given, and holds them unchanged |
| Transport.SseOptions | cli/src/transport.ts:101-112 | the SSE options hold `requestInit` exactly as built from the headers; `eventSourceInit.fetch` is set exactly when there is a custom fetch and holds it; `fetch` is never set (SseResult, NetworkSucceeds) |
| Transport.HttpOptions | cli/src/transport.ts:117-126 | the HTTP options hold `requestInit` exactly as built from the headers and `fetch` exactly as the custom fetch; `eventSourceInit` is never set (HttpResult, NetworkSucceeds) |
| Transport.Dispatch | cli/src/transport.ts:59-130 | the `try` block returns a transport of the kind its type names; a non-stdio type without a non-empty URL throws the URL error; an unknown type always throws (ErrorsAreWrapped, UnknownTypeFails) |
| Transport.CreateTransport | cli/src/transport.ts:56-136 | a transport is returned exactly when the dispatch does not throw; every error message starts with `Failed to create transport: ` unless the thrown value could not be converted to text |
| TransportProperties.StdioResult | cli/src/transport.ts:22-53 | a stdio transport gets the resolver's command and arguments unchanged, with the resolver asked about `command ?? ""` and `args` defaulting to `[]`; it gets the merged environment and `stderr` is `"pipe"` |
| TransportProperties.StdioSucceeds | cli/src/transport.ts:43-53 | when the resolver and the constructor do not throw, stdio returns exactly that transport |
| TransportProperties.StdioEnvironment | cli/src/transport.ts:28-41 | the environment of a returned stdio transport is the defined process entries (other than `__proto__`) laid over the defaults, with nothing else in it |
| TransportProperties.StdioIgnoresNetworkFields | cli/src/transport.ts:60-62 | for `"stdio"`, changing `url`, `headers` or `disableSSLVerification` does not change the outcome |
| TransportProperties.StdioResolverThrows | cli/src/transport.ts:43-46 | a throwing resolver makes stdio fail with what the catch clause rethrows for the thrown value |
| TransportProperties.StdioConstructorThrows | cli/src/transport.ts:48-53 | when the resolver succeeds but the stdio constructor throws, the call fails with what the catch clause rethrows for the thrown value |
| TransportProperties.MissingUrl | cli/src/transport.ts:64-67 | any type other than `"stdio"` with no URL or an empty URL fails with exactly `Failed to create transport: URL must be provided for SSE or HTTP transport types.`, whatever the rest of the input and the host |
| TransportProperties.UrlDoesNotParse | cli/src/transport.ts:68 | a URL that does not parse fails with the prefix followed by the parser's message |
| TransportProperties.UnsupportedType | cli/src/transport.ts:130 | an unknown type with a URL that parses fails with `Failed to create transport: Unsupported transport type: ` followed by the type |
| TransportProperties.UnknownTypeFails | cli/src/transport.ts:64-130 | an unknown type never yields a transport; its error is the URL error, else the parse error, else the unsupported-type error, in that order |
| TransportProperties.SseResult | cli/src/transport.ts:100-114 | an SSE transport carries the parsed URL and `requestInit` exactly when headers are given, holding them unchanged; the custom fetch is under `eventSourceInit.fetch` exactly when TLS checks are disabled and never under `fetch`; its selector gives the unverified agent exactly for `"https:"` |
| TransportProperties.HttpResult | cli/src/transport.ts:116-128 | a streamable HTTP transport carries the parsed URL and `requestInit` exactly when headers are given; the custom fetch is under `fetch` exactly when TLS checks are disabled and never under `eventSourceInit`; its selector gives the unverified agent exactly for `"https:"` |
| TransportProperties.ResultMatchesType | cli/src/transport.ts:60-128 | a returned transport is stdio, SSE or HTTP exactly when the type is `"stdio"`, `"sse"` or `"http"` |
| TransportProperties.NetworkSucceeds | cli/src/transport.ts:100-128 | for `"sse"` or `"http"` with a URL that parses, the result is the assembled transport when its constructor does not throw, and otherwise the wrapped message of what it throws |
| TransportProperties.ErrorsAreWrapped | cli/src/transport.ts:131-135 | the call fails exactly when the dispatch throws; the message is the prefix followed by the thrown `Error`'s message, or by `String(value)` for any other value, and is the conversion's own error when that conversion throws |

Two calls with the same options and the same host give the same result. In a
model made of functions this holds by construction, so no lemma states it.

## Left out

- The SDK transport constructors (`StdioClientTransport`, `SSEClientTransport`, `StreamableHTTPClientTransport`) are foreign library code. They are recorded by their arguments, plus a hook that says whether they throw.
- The path-resolution rules of `findActualExecutable` (spawn-rx) are foreign code. The model takes it as an arbitrary function of the command and the arguments.
- WHATWG URL parsing in `new URL` is foreign code. The model takes an arbitrary partial parser that yields an href and a protocol.
- The `node-fetch` request, the TLS behaviour of `https.Agent`, and the async/Promise plumbing of the custom fetch are I/O. Only the agent-selection rule and the agent's `rejectUnauthorized: false` setting are modelled.
- The global `process.env` read is replaced by a snapshot parameter. Concurrent mutation of the environment is out of scope.
- `Environment.CollectProcessEnv` visits the snapshot's keys in an arbitrary order, not in the property order that `Object.entries` uses. The keys are distinct, so the result does not depend on the order.
- `getDefaultEnvironment` is assumed not to throw. The model takes its result as a plain map.
- `null` values in the options are not modelled. Absent optional fields are `undefined`, which the model writes as `None`.
