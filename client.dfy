/**
 * The client facade of redis.go: a `Redis` object holding an optional configuration, an
 * optional adapter and the eight command-group handles cached from that adapter, the
 * operations that forward to the adapter, and the two constructors.
 *
 * A Go method with a pointer receiver may be called on a nil pointer, so every operation takes
 * its client as `Redis?`. The nil checks the Go code makes become branches; the one nil case
 * that panics (`SetAdapter`) becomes a precondition.
 */
module Client {
  import opened Wrappers
  import opened Errors
  import opened Adapters

  /** The cached command-group handles (the embedded `localGroup` struct). */
  datatype LocalGroup = LocalGroup(
    genericOps: Option<GroupHandle>,
    hashOps: Option<GroupHandle>,
    listOps: Option<GroupHandle>,
    pubSubOps: Option<GroupHandle>,
    scriptOps: Option<GroupHandle>,
    setOps: Option<GroupHandle>,
    sortedSetOps: Option<GroupHandle>,
    stringOps: Option<GroupHandle>)

  /** Go's zero value of `localGroup`: no handle at all. */
  const ZeroGroup: LocalGroup := LocalGroup(None, None, None, None, None, None, None, None)

  /** The handles `initGroup` asks the adapter for, one accessor per group. */
  function GroupsOf(a: Adapter): LocalGroup {
    LocalGroup(a.groupGeneric, a.groupHash, a.groupList, a.groupPubSub,
               a.groupScript, a.groupSet, a.groupSortedSet, a.groupString)
  }

  /** The error a nil client reports. */
  const NilRedisError: Error := Coded(InvalidParameter, ErrorNilRedis)

  class Redis {
    var config: Option<Config>
    var adapter: Adapter?
    var group: LocalGroup

    /** The struct literal `&Redis{config: ..., localAdapter: ...}`: no group handle yet. */
    constructor (config: Option<Config>, adapter: Adapter?)
      ensures this.config == config && this.adapter == adapter && group == ZeroGroup
    {
      this.config := config;
      this.adapter := adapter;
      group := ZeroGroup;
    }

    /** Replaces every cached handle by the current adapter's; returns the client itself. */
    method InitGroup() returns (self: Redis)
      requires adapter != null
      modifies this`group
      ensures self == this
      ensures group == GroupsOf(adapter)
    {
      group := GroupsOf(adapter);
      self := this;
    }
  }

  /**
   * Installs `a` as the client's adapter. Only the adapter changes: the configuration and
   * the cached group handles stay as they were, so handles taken from a previous adapter
   * remain in place. A nil client makes the Go code panic.
   */
  method SetAdapter(r: Redis?, a: Adapter?)
    requires r != null
    modifies r`adapter
    ensures GetAdapter(r) == a
    ensures r.config == old(r.config) && r.group == old(r.group)
  {
    r.adapter := a;
  }

  /** The installed adapter; nil for a nil client. */
  function GetAdapter(r: Redis?): (a: Adapter?)
    reads r
    ensures r == null ==> a == null
    ensures r != null ==> a == r.adapter
  {
    if r == null then null else r.adapter
  }

  /**
   * A dedicated connection. A nil client fails with InvalidParameter before the adapter is
   * looked at; a client without adapter fails with NecessaryPackageNotImport; otherwise the
   * adapter's own reply comes back untouched.
   */
  function Conn(r: Redis?, ctx: Context): (rep: Reply<Adapters.Conn>)
    reads r
    ensures r == null ==> rep == Refused(NilRedisError)
    ensures r != null && r.adapter == null ==>
              rep == Refused(Coded(NecessaryPackageNotImport, ErrorNilAdapter))
    ensures r != null && r.adapter != null ==> rep == r.adapter.connFn(ctx)
    ensures !Failed(rep) ==> r != null && r.adapter != null
  {
    if r == null then Refused(NilRedisError)
    else if r.adapter == null then Refused(Coded(NecessaryPackageNotImport, ErrorNilAdapter))
    else r.adapter.connFn(ctx)
  }

  /**
   * Sends one command. A nil client fails with InvalidParameter before the adapter is looked
   * at; a client without adapter fails with MissingConfiguration (not the code `Conn` uses);
   * otherwise the adapter's own reply to the same context, command and arguments comes back.
   */
  function Do(r: Redis?, ctx: Context, command: string, args: seq<Arg>): (rep: Reply<Var>)
    reads r
    ensures r == null ==> rep == Refused(NilRedisError)
    ensures r != null && r.adapter == null ==>
              rep == Refused(Coded(MissingConfiguration, ErrorNilAdapter))
    ensures r != null && r.adapter != null ==> rep == r.adapter.doFn(ctx, command, args)
    ensures !Failed(rep) ==> r != null && r.adapter != null
  {
    if r == null then Refused(NilRedisError)
    else if r.adapter == null then Refused(Coded(MissingConfiguration, ErrorNilAdapter))
    else r.adapter.doFn(ctx, command, args)
  }

  /**
   * `Conn` for callers that know it succeeds: the Go code panics on an error, so success is
   * the precondition, and the connection is the one `Conn` returns.
   */
  function MustConn(r: Redis?, ctx: Context): (c: Option<Adapters.Conn>)
    requires !Failed(Conn(r, ctx))
    reads r
    ensures r != null && r.adapter != null
    ensures c == r.adapter.connFn(ctx).value
  {
    Conn(r, ctx).value
  }

  /**
   * `Do` for callers that know it succeeds: the Go code panics on an error, so success is
   * the precondition, and the value is the one `Do` returns.
   */
  function MustDo(r: Redis?, ctx: Context, command: string, args: seq<Arg>): (v: Option<Var>)
    requires !Failed(Do(r, ctx, command, args))
    reads r
    ensures r != null && r.adapter != null
    ensures v == r.adapter.doFn(ctx, command, args).value
  {
    Do(r, ctx, command, args).value
  }

  /**
   * Releases the adapter's resources. A nil client or a client without adapter reports no
   * error; otherwise the adapter's own result comes back.
   */
  function Close(r: Redis?, ctx: Context): (e: Option<Error>)
    reads r
    ensures (r == null || r.adapter == null) ==> e.None?
    ensures r != null && r.adapter != null ==> e == r.adapter.closeFn(ctx)
  {
    if r == null || r.adapter == null then None else r.adapter.closeFn(ctx)
  }

  /** Without an adapter, `Do` and `Conn` both fail, with two different codes. */
  lemma MissingAdapterCodesDiffer(r: Redis, ctx: Context, command: string, args: seq<Arg>)
    requires r.adapter == null
    ensures Failed(Do(r, ctx, command, args)) && Failed(Conn(r, ctx))
    ensures Do(r, ctx, command, args).err.value.code == MissingConfiguration
    ensures Conn(r, ctx).err.value.code == NecessaryPackageNotImport
  {
  }

  /** With an adapter installed, all three operations are answered by that adapter alone. */
  lemma ForwardsToInstalledAdapter(r: Redis, a: Adapter, ctx: Context, command: string, args: seq<Arg>)
    requires GetAdapter(r) == a
    ensures Do(r, ctx, command, args) == a.doFn(ctx, command, args)
    ensures Conn(r, ctx) == a.connFn(ctx)
    ensures Close(r, ctx) == a.closeFn(ctx)
  {
  }

  /** What `New` decides before it allocates: build a client, or refuse with an error. */
  datatype Plan = Build(config: Config, adapter: Adapter) | Refuse(error: Error)

  /** The factory installed at start-up: it never produces an adapter. */
  const DefaultAdapterFunc: AdapterFunc := (c: Config) => null

  /**
   * The decision rules of `New`, given its variadic configuration arguments, the package's
   * default-group configuration and the current factory. A non-nil first argument wins over
   * the global configuration; without either, the result is InvalidConfiguration whatever
   * the factory; with one, the factory is asked exactly for that configuration and a nil
   * answer gives NecessaryPackageNotImport.
   */
  function NewPlan(args: seq<Option<Config>>, global: Option<Config>, factory: AdapterFunc): (p: Plan)
    ensures |args| > 0 && args[0].Some? ==>
              if factory(args[0].value) == null
              then p == Refuse(Coded(NecessaryPackageNotImport, ErrorNilAdapter))
              else p == Build(args[0].value, factory(args[0].value))
    ensures !(|args| > 0 && args[0].Some?) && global.Some? ==>
              if factory(global.value) == null
              then p == Refuse(Coded(NecessaryPackageNotImport, ErrorNilAdapter))
              else p == Build(global.value, factory(global.value))
    ensures !(|args| > 0 && args[0].Some?) && global.None? ==>
              p == Refuse(Coded(InvalidConfiguration, ErrorNoConfiguration))
  {
    var used: Option<Config> := if |args| > 0 && args[0].Some? then args[0] else global;
    if used.None? then Refuse(Coded(InvalidConfiguration, ErrorNoConfiguration))
    else
      var adapter := factory(used.value);
      if adapter == null then Refuse(Coded(NecessaryPackageNotImport, ErrorNilAdapter))
      else Build(used.value, adapter)
  }

  /** An explicit configuration makes the global one irrelevant. */
  lemma ExplicitConfigWins(c: Config, rest: seq<Option<Config>>, g1: Option<Config>, g2: Option<Config>, f: AdapterFunc)
    ensures NewPlan([Some(c)] + rest, g1, f) == NewPlan([Some(c)] + rest, g2, f)
    ensures NewPlan([Some(c)] + rest, g1, f) == NewPlan([], Some(c), f)
  {
  }

  /** The configuration check comes first: without a configuration the factory is irrelevant. */
  lemma ConfigCheckedBeforeAdapter(args: seq<Option<Config>>, f1: AdapterFunc, f2: AdapterFunc)
    requires |args| == 0 || args[0].None?
    ensures NewPlan(args, None, f1) == NewPlan(args, None, f2)
    ensures NewPlan(args, None, f1).Refuse? && NewPlan(args, None, f1).error.code == InvalidConfiguration
  {
  }

  /** Until a factory is registered, `New` never builds a client. */
  lemma DefaultFactoryNeverBuilds(args: seq<Option<Config>>, global: Option<Config>)
    ensures NewPlan(args, global, DefaultAdapterFunc).Refuse?
    ensures global.Some? || (|args| > 0 && args[0].Some?) ==>
              NewPlan(args, global, DefaultAdapterFunc).error.code == NecessaryPackageNotImport
  {
  }

  /**
   * The package-level state redis.go reads and writes: the current adapter factory
   * (`defaultAdapterFunc`) and the configuration source behind `GetConfig`, keyed by group.
   */
  class Globals {
    var adapterFunc: AdapterFunc
    const configs: map<string, Config>

    /** Start-up state: the factory that never produces an adapter. */
    constructor (configs: map<string, Config>)
      ensures this.configs == configs
      ensures forall c :: adapterFunc(c) == null
    {
      this.configs := configs;
      adapterFunc := DefaultAdapterFunc;
    }

    /** `GetConfig()`: the configuration of the default group, if any. */
    function GlobalConfig(): (c: Option<Config>)
      ensures c.Some? <==> DefaultGroupName in configs
      ensures c.Some? ==> c.value == configs[DefaultGroupName]
    {
      Lookup(configs, DefaultGroupName)
    }

    /** Replaces the factory used by every later `New`; existing clients are not touched. */
    method RegisterAdapterFunc(f: AdapterFunc)
      modifies this`adapterFunc
      ensures adapterFunc == f
    {
      adapterFunc := f;
    }

    /**
     * Builds a client following `NewPlan`: on success a new client holding the chosen
     * configuration, the factory's adapter and that adapter's group handles; otherwise nil
     * and the planned error.
     */
    method New(config: seq<Option<Config>>) returns (r: Redis?, err: Option<Error>)
      ensures NewPlan(config, GlobalConfig(), adapterFunc).Refuse? ==>
                r == null && err == Some(NewPlan(config, GlobalConfig(), adapterFunc).error)
      ensures NewPlan(config, GlobalConfig(), adapterFunc).Build? ==>
                && err.None? && r != null && fresh(r)
                && r.config == Some(NewPlan(config, GlobalConfig(), adapterFunc).config)
                && r.adapter == NewPlan(config, GlobalConfig(), adapterFunc).adapter
                && r.group == GroupsOf(r.adapter)
    {
      var usedConfig: Option<Config> := None;
      var usedAdapter: Adapter? := null;
      if |config| > 0 && config[0].Some? {
        usedConfig := config[0];
        usedAdapter := adapterFunc(config[0].value);
      } else if DefaultGroupName in configs {
        usedConfig := Some(configs[DefaultGroupName]);
        usedAdapter := adapterFunc(configs[DefaultGroupName]);
      }
      if usedConfig.None? {
        return null, Some(Coded(InvalidConfiguration, ErrorNoConfiguration));
      }
      if usedAdapter == null {
        return null, Some(Coded(NecessaryPackageNotImport, ErrorNilAdapter));
      }
      var redis := new Redis(usedConfig, usedAdapter);
      r := redis.InitGroup();
      err := None;
    }
  }

  /** The name of the default configuration group (declared outside redis.go). */
  const DefaultGroupName: string := "default"

  /**
   * Builds a client around a given adapter, without any configuration. Only a nil adapter is
   * refused.
   */
  method NewWithAdapter(adapter: Adapter?) returns (r: Redis?, err: Option<Error>)
    ensures adapter == null ==> r == null && err == Some(Coded(InvalidParameter, ErrorNilAdapterArgument))
    ensures adapter != null ==>
              && err.None? && r != null && fresh(r)
              && r.config.None? && r.adapter == adapter && r.group == GroupsOf(adapter)
  {
    if adapter == null {
      return null, Some(Coded(InvalidParameter, ErrorNilAdapterArgument));
    }
    var redis := new Redis(None, adapter);
    r := redis.InitGroup();
    err := None;
  }

  /**
   * A client built around `a1` whose adapter is then replaced by `a2`: it forwards to `a2`
   * but still holds the group handles of `a1`.
   */
  method SwapAdapterScenario(a1: Adapter, a2: Adapter, ctx: Context, command: string, args: seq<Arg>)
    returns (r: Redis, rep: Reply<Var>)
    ensures GetAdapter(r) == a2
    ensures r.group == GroupsOf(a1)
    ensures rep == a2.doFn(ctx, command, args)
  {
    var c, _ := NewWithAdapter(a1);
    SetAdapter(c, a2);
    r := c;
    rep := Do(r, ctx, command, args);
  }
}
