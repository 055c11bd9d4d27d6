/** The environment handed to a stdio child process: the defined entries of
    the parent's environment laid over the SDK's default environment. */
module Environment {
  import opened Wrappers

  /** A snapshot of `process.env`: every key maps to a value that may be
      `undefined`. */
  type Snapshot = map<string, Option<string>>

  /** An environment in which every key has a string value. */
  type Env = map<string, string>

  /** The key an assignment on a plain object `{}` does not store: it calls
      the inherited `__proto__` setter, which ignores a string. */
  const ProtoKey := "__proto__"

  /** Whether the copying loop keeps the entry for `k`. */
  predicate Kept(snapshot: Snapshot, k: string) {
    k in snapshot && k != ProtoKey && snapshot[k].Some?
  }

  /** The entries of `snapshot` that the copying loop stores. */
  function DefinedEntries(snapshot: Snapshot): Env {
    map k | k in snapshot && Kept(snapshot, k) :: snapshot[k].value
  }

  /** The copying loop of `createStdioTransport`: visits every entry of the
      snapshot once and keeps those whose value is not `undefined`; an entry
      named `__proto__` is never stored. */
  method CollectProcessEnv(snapshot: Snapshot) returns (processEnv: Env)
    ensures forall k :: k in processEnv <==> k in snapshot && k != ProtoKey && snapshot[k].Some?
    ensures forall k :: k in processEnv ==> snapshot[k] == Some(processEnv[k])
    ensures processEnv == DefinedEntries(snapshot)
  {
    processEnv := map[];
    var remaining := snapshot.Keys;
    while remaining != {}
      invariant remaining <= snapshot.Keys
      invariant forall k :: k in processEnv <==> k in snapshot && k !in remaining && k != ProtoKey && snapshot[k].Some?
      invariant forall k :: k in processEnv ==> snapshot[k] == Some(processEnv[k])
      decreases remaining
    {
      var key :| key in remaining;
      var value := snapshot[key];
      if value.Some? && key != ProtoKey {
        processEnv := processEnv[key := value.value];
      }
      remaining := remaining - {key};
    }
  }

  /** The object spread `{ ...defaults, ...overlay }`: every key of either
      side, the overlay winning on a collision. */
  function Merge(defaults: Env, overlay: Env): (env: Env)
    ensures env.Keys == defaults.Keys + overlay.Keys
    ensures forall k :: k in overlay ==> env[k] == overlay[k]
    ensures forall k :: k in defaults && k !in overlay ==> env[k] == defaults[k]
  {
    defaults + overlay
  }

  /** The environment of a stdio child: the defined snapshot entries over the
      defaults. An `undefined` snapshot value never deletes a default, and a
      snapshot entry named `__proto__` neither appears nor overrides. */
  function ChildEnvironment(snapshot: Snapshot, defaults: Env): (env: Env)
    ensures forall k :: k in env <==> (k in snapshot && k != ProtoKey && snapshot[k].Some?) || k in defaults
    ensures forall k :: k in snapshot && k != ProtoKey && snapshot[k].Some? ==> env[k] == snapshot[k].value
    ensures forall k :: k in defaults && (k !in snapshot || k == ProtoKey || snapshot[k].None?) ==>
              env[k] == defaults[k]
    ensures ProtoKey !in defaults ==> ProtoKey !in env
  {
    Merge(defaults, DefinedEntries(snapshot))
  }
}
