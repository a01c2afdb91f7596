# Redis client facade and instance registry, in Dafny

This project models the core of a Go key-value-store client package: the `Redis` client facade,
which forwards `Do`, `Conn` and `Close` to a pluggable adapter and caches eight command-group
handles taken from it; the two constructors `New` (configuration first, then a process-wide
adapter factory) and `NewWithAdapter`; the named-instance registry `Instance`, which builds a
client per configuration group on first use and reuses it afterwards; and the readable form of a
pub/sub subscription acknowledgement.

Modules:

- `Wrappers` (wrappers.dfy): `Option`, used for nil-able values other than the client and the adapter, and map lookup.
- `Errors` (errors.dfy): the four error codes the package raises, its fixed messages, and an
  opaque `Foreign` error for whatever an adapter returns.
- `Adapters` (adapters.dfy): the collaborators the facade does not implement. `Adapter` is a
  class whose `Do`, `Conn` and `Close` and whose eight group accessors are constants fixed when
  it is made, so they act as uninterpreted functions: every property holds for every adapter whose answers
  never change (`doFn`, `connFn` and `closeFn` are constants).
  Contexts, arguments, result values, connections, group handles and configurations are opaque
  tokens. `Reply` is Go's `(value, error)` pair.
- `Client` (client.dfy, redis.go): the `Redis` class, the forwarding functions over a nullable
  `Redis?` (a Go pointer receiver may be nil), the pure decision function `NewPlan` behind `New`,
  and `Globals`, the package-level state (the current adapter factory and the configuration
  source behind `GetConfig`).
- `Instances` (instances.dfy, instance.go): the registry class owning the `map<string, Redis?>`.
- `PubSub` (pubsub.dfy, group_pubsub.go): the `Message` and `Subscription` records, the subset of
  Go's `fmt.Sprintf` that `Subscription.String` uses, and the text's inverse.

Points where the code behaves differently from what a reader might expect:

- `SetAdapter` (redis.go:89-94) only assigns the adapter and never calls `initGroup`, so the
  cached handles stay those of the earlier adapter (see `Client.SwapAdapterScenario`).
- Whether `Instance` keeps a failed (nil) result depends on the map library's storing rule
  (`storesNil`); both values are covered.
- A missing adapter is reported with two codes: MissingConfiguration from `Do` (redis.go:123),
  NecessaryPackageNotImport from `Conn` and `New` (redis.go:111, 178).

## Model

| member | source | states |
|---|---|---|
| Client.Redis.constructor | redis.go:182-185 | the struct literal holds the given configuration and adapter and no group handle yet |
| Client.Redis.InitGroup | redis.go:74-86 | every cached handle becomes the current adapter's accessor for that group, and the client itself is returned |
| Client.SetAdapter | redis.go:89-94 | afterwards `GetAdapter` returns the new adapter; configuration and cached group handles are exactly as before; a nil client is excluded, since the code panics |
| Client.GetAdapter | redis.go:97-102 | a nil client has no adapter; otherwise the installed adapter is returned |
| Client.Conn | redis.go:106-114 | nil client: InvalidParameter, checked before the adapter; no adapter: NecessaryPackageNotImport; otherwise exactly the adapter's reply for the same context; success implies a live client with an adapter |
| Client.Do | redis.go:118-126 | nil client: InvalidParameter, checked before the adapter; no adapter: MissingConfiguration; otherwise exactly the adapter's reply for the same context, command and arguments; success implies a live client with an adapter |
| Client.MustConn | redis.go:129-135 | callable only when `Conn` succeeds, and then returns the adapter's connection |
| Client.MustDo | redis.go:138-144 | callable only when `Do` succeeds, and then returns the adapter's value |
| Client.Close | redis.go:147-152 | no error for a nil client or a client without adapter; otherwise the adapter's own close result |
| Client.MissingAdapterCodesDiffer | redis.go:110-125 | without an adapter both `Do` and `Conn` fail, with MissingConfiguration and NecessaryPackageNotImport respectively |
| Client.ForwardsToInstalledAdapter | redis.go:113-151 | once `a` is installed, `Do`, `Conn` and `Close` all return what `a` returns |
| Client.NewPlan | redis.go:156-181 | a non-nil first argument wins over the global configuration; with neither, InvalidConfiguration; otherwise the factory is asked for exactly the chosen configuration, nil gives NecessaryPackageNotImport and anything else builds with that configuration and adapter |
| Client.ExplicitConfigWins | redis.go:161-169 | with an explicit configuration the global configuration and any further arguments make no difference |
| Client.ConfigCheckedBeforeAdapter | redis.go:170-181 | without any configuration the result is InvalidConfiguration whatever the factory |
| Client.DefaultFactoryNeverBuilds | redis.go:66-71 | with the start-up factory `New` never builds a client, and refuses a found configuration with NecessaryPackageNotImport |
| Client.Globals.constructor | redis.go:66-71 | the start-up factory returns nil for every configuration |
| Client.Globals.GlobalConfig | redis.go:165 | the global configuration is present exactly when the default group has one, and is that one |
| Client.Globals.RegisterAdapterFunc | redis.go:199-201 | the factory is replaced; no client is modified |
| Client.Globals.New | redis.go:156-187 | refuses with the planned error and nil, or returns a new client holding the chosen configuration, the factory's adapter and that adapter's group handles |
| Client.NewWithAdapter | redis.go:190-196 | a nil adapter gives InvalidParameter; any other gives a new client with no configuration, that adapter and its group handles |
| Client.SwapAdapterScenario | redis.go:89-94 | after `SetAdapter(a2)` on a client built around `a1`, `Do` goes to `a2` while the group handles are still those of `a1` |
| Instances.GroupName | instance.go:22-25 | the first name when present and non-empty, else the default group name; never empty |
| Instances.DefaultNameAliases | instance.go:22-25 | no name, an empty name and the default group's name select the same entry |
| Instances.Remember | instance.go:26 | a client is always stored under its group; a nil result is stored only under the map's nil-storing rule; other keys are untouched |
| Instances.Registry.constructor | instance.go:15 | the registry starts empty, and so holds no nil entry |
| Instances.Registry.Instance | instance.go:21-41 | an existing entry is returned unchanged without consulting configuration or factory; no configuration or a refused `New` gives nil; a built client carries the group's configuration and the current factory's adapter and is stored; other groups' entries are unchanged; no nil entry appears unless the map stores nil results |
| Instances.InstanceIsMemoized | instance.go:26 | a second lookup of a group returns what the first returned; when nil results are not stored, a failed first lookup leaves no entry, so construction is retried |
| PubSub.Format | group_pubsub.go:37 | Go's `Sprintf` for string arguments: `%s` takes the next argument, or `%!s(MISSING)` when none is left; `%%` is a literal percent sign; any other character is copied |
| PubSub.FormatPlainText | group_pubsub.go:37 | text without a `%` is formatted to itself |
| PubSub.FormatOneVerb | group_pubsub.go:37 | a single `%s` followed by plain text substitutes exactly its one argument |
| PubSub.SubscriptionString | group_pubsub.go:36-38 | the text is the kind, a colon and space, then the channel; its length is the two lengths plus two; it starts with the kind and ends with the channel |
| PubSub.CountIsIgnored | group_pubsub.go:32-38 | the count has no influence on the text |
| PubSub.CutAtSeparator | group_pubsub.go:37 | a found split at the first colon-space puts the text back together |
| PubSub.StringSplitsBack | group_pubsub.go:36-38 | for a kind without a colon, splitting the text at its first colon-space gives back kind and channel |
| PubSub.StringDeterminesKindAndChannel | group_pubsub.go:30-38 | two acknowledgements with colon-free kinds and equal text have equal kind and channel |
| PubSub.KnownKindsArePlain | group_pubsub.go:30-38 | the four documented kinds are colon-free, so their text reads back to kind and channel |

## Left out

- The adapter's behaviour (wire protocol, pooling, command semantics) is foreign code: its `Do`, `Conn`, `Close` and group accessors are constants of each `Adapter`, and only the forwarding is proved.
- The command-group interfaces and option structs (adapter.go, group_string.go, group_list.go, group_set.go, group_hash.go) declare no behaviour; each group handle is an opaque token.
- The JSON marshalling of struct, slice and map arguments mentioned in comments is not done by this code; arguments are opaque.
- `Config`, `GetConfig`, `SetConfig` and `DefaultGroupName` are declared in config.go, which is not part of this model. The configuration source is a fixed name-to-configuration map; the default group name is the constant "default".
- Concurrency: the registry's per-key lock and the thread-safe map are modelled sequentially.
- Instances.Registry.Instance: whether a nil result is stored is a parameter (`storesNil`), because that rule is inside the map library.
- The error log line written when registry construction fails; `context.Context` deadlines; the `vars.Var` payload.
- Panics of `SetAdapter`, `MustConn` and `MustDo` are preconditions, not runtime behaviour.
- The adapter factory is a function of the configuration: a factory that allocates a new adapter on every call is captured only through the adapter it returns.
- The messages of the error library are kept as constants; the library's stack traces and its code numbers are not modelled.
- PubSub.Format: models only `%s` with string arguments, `%%` and the missing-argument marker; other verbs and Go's extra-argument marker are not modelled, since `Subscription.String` uses exactly two `%s` with two arguments.
- A nil `*Subscription` receiver (which would panic in `String`) is not modelled; subscriptions are values.
