/** The configurable proxy `_ConfigurableModel`: an immutable value holding the
    default parameters, the configurable field set, the normalised configuration
    prefix and the queue of deferred declarative operations. Every operation that
    looks like a mutation returns a new proxy; a concrete client is built afresh
    for each call by merging the defaults with the per-call model parameters and
    replaying the queue onto it. */
module Configurable {
  import opened Types
  import opened Providers

  /** The attribute names whose calls are queued instead of forwarded. */
  const DeclarativeMethods: seq<string> := ["bind_tools", "with_structured_output"]

  /** `configurable_fields`: the sentinel "any", or an explicit list of names. */
  datatype Fields = AnyField | Listed(names: seq<string>)

  /** Whether a (prefix-stripped) configuration key may become a model parameter. */
  predicate Allowed(fields: Fields, name: string) {
    fields.AnyField? || name in fields.names
  }

  datatype Proxy = Proxy(defaultConfig: Params, fields: Fields, prefix: string, queue: seq<Op>)

  predicate EndsWith(s: string, suffix: string) {
    |suffix| <= |s| && s[|s| - |suffix|..] == suffix
  }

  /** A prefix in normal form: empty, or ending in the separator `_`. */
  predicate IsNormalPrefix(prefix: string) {
    prefix == "" || EndsWith(prefix, "_")
  }

  /** Every proxy built by the constructor has a normalised prefix. */
  predicate Valid(p: Proxy) {
    IsNormalPrefix(p.prefix)
  }

  /** `_remove_prefix`, i.e. `str.removeprefix`. */
  function RemovePrefix(s: string, prefix: string): (r: string)
    ensures StartsWith(s, prefix) ==> prefix + r == s
    ensures !StartsWith(s, prefix) ==> r == s
  {
    if StartsWith(s, prefix) then s[|prefix|..] else s
  }

  /** The constructor's prefix normalisation: append `_` to a non-empty prefix that
      does not already end in one. */
  function NormalisePrefix(prefix: string): (r: string)
    ensures IsNormalPrefix(r)
    ensures StartsWith(r, prefix) && |r| <= |prefix| + 1
    ensures r == prefix <==> IsNormalPrefix(prefix)
  {
    if prefix != "" && !EndsWith(prefix, "_") then prefix + "_" else prefix
  }

  /** Normalising a prefix twice is normalising it once. */
  lemma NormalisePrefixIdempotent(prefix: string)
    ensures NormalisePrefix(NormalisePrefix(prefix)) == NormalisePrefix(prefix)
  {
  }

  /** `_ConfigurableModel.__init__`: an absent default configuration is `{}`, the
      field set and queue are copied, and the prefix is normalised. */
  function NewProxy(defaultConfig: Option<Params>, fields: Fields, prefix: string, queue: seq<Op>): (p: Proxy)
    ensures Valid(p)
    ensures p.defaultConfig == (if defaultConfig.Some? then defaultConfig.value else map[])
    ensures p.fields == fields && p.queue == queue
    ensures IsNormalPrefix(prefix) ==> p.prefix == prefix
    ensures !IsNormalPrefix(prefix) ==> p.prefix == prefix + "_"
  {
    Proxy(if defaultConfig.Some? then defaultConfig.value else map[], fields, NormalisePrefix(prefix), queue)
  }

  /** `{**base, **overrides}`: key-wise union where the overriding side wins. */
  function Merge(base: Params, overrides: Params): (r: Params)
    ensures forall k :: k in r <==> k in base || k in overrides
    ensures forall k :: k in overrides ==> r[k] == overrides[k]
    ensures forall k :: k in base && k !in overrides ==> r[k] == base[k]
  {
    base + overrides
  }

  /** `_model_params`: the entries of the call's "configurable" mapping whose key
      starts with the prefix, keyed by the key with the prefix stripped, restricted
      to the configurable fields unless those are "any". */
  function ModelParams(p: Proxy, config: Option<RunConfig>): (r: Params)
    ensures forall t :: t in r <==> p.prefix + t in ConfigurableOf(config) && Allowed(p.fields, t)
    ensures forall t :: t in r ==> r[t] == ConfigurableOf(config)[p.prefix + t]
  {
    var cfg := ConfigurableOf(config);
    var stripped := map t | t in StrippedKeys(cfg, p.prefix) :: cfg[p.prefix + t];
    match p.fields
    case AnyField => stripped
    case Listed(names) => map t | t in stripped && t in names :: stripped[t]
  }

  /** The keys of `cfg` that start with `prefix`, with the prefix removed. */
  function StrippedKeys(cfg: Params, prefix: string): (r: set<string>)
    ensures forall t :: t in r <==> prefix + t in cfg
  {
    var r := set k | k in cfg && StartsWith(k, prefix) :: RemovePrefix(k, prefix);
    assert forall t :: prefix + t in cfg ==> t in r by {
      forall t | prefix + t in cfg ensures t in r {
        assert StartsWith(prefix + t, prefix);
        assert RemovePrefix(prefix + t, prefix) == t;
      }
    }
    r
  }

  /** A per-call parameter is one named explicitly by the configurable fields, when
      those are a list. */
  lemma ListedFieldsBoundModelParams(p: Proxy, config: Option<RunConfig>)
    requires p.fields.Listed?
    ensures forall t :: t in ModelParams(p, config) ==> t in p.fields.names
  {
  }

  /** With a list of fields, a configurable key outside the list is dropped even when
      it carries the prefix; with "any" it is kept. */
  lemma UnlistedKeyDropped(p: Proxy, config: Option<RunConfig>, t: string)
    requires p.prefix + t in ConfigurableOf(config)
    ensures p.fields.AnyField? ==> t in ModelParams(p, config)
    ensures p.fields.Listed? && t !in p.fields.names ==> t !in ModelParams(p, config)
  {
  }

  /** The queued-operation closure of `__getattr__`: a new proxy with the same
      defaults, fields and prefix and the operation appended to a copy of the queue. */
  function Queue(p: Proxy, name: string, args: seq<Value>, kwargs: Params): (q: Proxy)
    requires name in DeclarativeMethods
    ensures Valid(q)
    ensures q.queue == p.queue + [Op(name, args, kwargs)]
    ensures q.defaultConfig == p.defaultConfig && q.fields == p.fields
    ensures Valid(p) ==> q.prefix == p.prefix
  {
    NewProxy(Some(p.defaultConfig), p.fields, p.prefix, p.queue + [Op(name, args, kwargs)])
  }

  /** `bind_tools(tools, **kwargs)`, deferred. */
  function BindTools(p: Proxy, tools: Value, kwargs: Params): (q: Proxy)
    ensures q.queue == p.queue + [Op("bind_tools", [tools], kwargs)]
    ensures q.defaultConfig == p.defaultConfig && q.fields == p.fields
    ensures Valid(p) ==> q.prefix == p.prefix
  {
    Queue(p, "bind_tools", [tools], kwargs)
  }

  /** `with_structured_output(schema, **kwargs)`, deferred. */
  function WithStructuredOutput(p: Proxy, schema: Value, kwargs: Params): (q: Proxy)
    ensures q.queue == p.queue + [Op("with_structured_output", [schema], kwargs)]
    ensures q.defaultConfig == p.defaultConfig && q.fields == p.fields
    ensures Valid(p) ==> q.prefix == p.prefix
  {
    Queue(p, "with_structured_output", [schema], kwargs)
  }

  /** `RunnableConfig(**(config or {}), **kwargs)`: the union of both, which fails
      when a key is given twice. */
  function CombineConfig(config: Option<RunConfig>, kwargs: RunConfig): (r: Result<RunConfig, Error>)
    ensures var base := if config.Some? then config.value else EmptyConfig;
            && (r.Err? <==> (base.others.Keys * kwargs.others.Keys != {}
                             || (base.configurable.Some? && kwargs.configurable.Some?)))
            && (r.Ok? ==> && r.value.others.Keys == base.others.Keys + kwargs.others.Keys
                          && (forall k :: k in base.others ==> r.value.others[k] == base.others[k])
                          && (forall k :: k in kwargs.others ==> r.value.others[k] == kwargs.others[k])
                          && r.value.configurable
                             == if kwargs.configurable.Some? then kwargs.configurable else base.configurable)
  {
    var base := if config.Some? then config.value else EmptyConfig;
    var dup := (base.others.Keys * kwargs.others.Keys)
               + (if base.configurable.Some? && kwargs.configurable.Some? then {"configurable"} else {});
    if dup != {} then Err(DuplicateConfigKeys(dup))
    else
      assert base.others.Keys !! kwargs.others.Keys by {
        forall k | k in base.others.Keys ensures k !in kwargs.others.Keys {
          assert k !in dup;
        }
      }
      Ok(RunConfig(if kwargs.configurable.Some? then kwargs.configurable else base.configurable,
                   base.others + kwargs.others))
  }

  /** The configuration `with_config` forwards to the concrete client: every entry
      but "configurable", and a "configurable" mapping without the keys whose
      prefix-stripped name became a model parameter. */
  function RemainingConfig(p: Proxy, config: RunConfig): (r: RunConfig)
    ensures r.configurable.Some?
    ensures forall k :: k in r.configurable.value
                    <==> k in ConfigurableOf(Some(config))
                         && RemovePrefix(k, p.prefix) !in ModelParams(p, Some(config))
    ensures forall k :: k in r.configurable.value ==> r.configurable.value[k] == ConfigurableOf(Some(config))[k]
    ensures r.others.Keys == config.others.Keys - {"configurable"}
    ensures forall k :: k in r.others ==> r.others[k] == config.others[k]
  {
    var cfg := ConfigurableOf(Some(config));
    var mp := ModelParams(p, Some(config));
    RunConfig(Some(map k | k in cfg && RemovePrefix(k, p.prefix) !in mp :: cfg[k]),
              map k | k in config.others && k != "configurable" :: config.others[k])
  }

  /** The queued operation that applies the remaining configuration. */
  function WithConfigOp(remaining: RunConfig): Op {
    Op("with_config", [], map["config" := Config(remaining)])
  }

  /** `with_config`: a new proxy whose defaults are overridden by the configuration's
      model parameters, with a `with_config` operation for the rest of the
      configuration appended to its queue. */
  function WithConfig(p: Proxy, config: Option<RunConfig>, kwargs: RunConfig): (r: Result<Proxy, Error>)
    ensures r.Err? <==> CombineConfig(config, kwargs).Err?
    ensures r.Ok? ==>
              var merged := CombineConfig(config, kwargs).value;
              && Valid(r.value)
              && r.value.defaultConfig == Merge(p.defaultConfig, ModelParams(p, Some(merged)))
              && r.value.queue == p.queue + [WithConfigOp(RemainingConfig(p, merged))]
              && r.value.fields == p.fields
              && (Valid(p) ==> r.value.prefix == p.prefix)
  {
    match CombineConfig(config, kwargs)
    case Err(e) => Err(e)
    case Ok(merged) =>
      var mp := ModelParams(p, Some(merged));
      var remaining := RemainingConfig(p, merged);
      var queue := if !IsEmptyConfig(remaining) then p.queue + [WithConfigOp(remaining)] else p.queue;
      Ok(NewProxy(Some(Merge(p.defaultConfig, mp)), p.fields, p.prefix, queue))
  }

  /** A configurable key that carries the prefix and names an allowed field moves into
      the new defaults and is not forwarded; an unprefixed key is forwarded unless its
      name is also a consumed model parameter. */
  lemma WithConfigSplitsConfigurable(p: Proxy, config: RunConfig, k: string)
    requires k in ConfigurableOf(Some(config))
    ensures var rest := RemainingConfig(p, config).configurable.value;
            var mp := ModelParams(p, Some(config));
            && ((StartsWith(k, p.prefix) && Allowed(p.fields, RemovePrefix(k, p.prefix)))
                  ==> RemovePrefix(k, p.prefix) in mp && k !in rest)
            && (StartsWith(k, p.prefix) && !Allowed(p.fields, RemovePrefix(k, p.prefix)) ==> k in rest)
            && (!StartsWith(k, p.prefix) ==> (k in rest <==> k !in mp))
  {
  }

  /** As written, `with_config` also withholds an unprefixed key whose name equals a
      consumed model parameter: with prefix "foo_", both "foo_temperature" and
      "temperature" leave the forwarded configuration, though only the first one
      became a parameter, and the parameter's value is the prefixed entry's. */
  lemma WithConfigDropsUnprefixedTwin(p: Proxy, config: RunConfig, t: string)
    requires p.prefix + t in ConfigurableOf(Some(config)) && Allowed(p.fields, t)
    requires t in ConfigurableOf(Some(config)) && !StartsWith(t, p.prefix)
    ensures var mp := ModelParams(p, Some(config));
            var rest := RemainingConfig(p, config).configurable.value;
            && t in mp && mp[t] == ConfigurableOf(Some(config))[p.prefix + t]
            && p.prefix + t !in rest && t !in rest
  {
    assert StartsWith(p.prefix + t, p.prefix);
    assert RemovePrefix(p.prefix + t, p.prefix) == t;
  }

  /** Applying one queued operation to the fake client records it. */
  function ApplyOp(c: Client, op: Op): (r: Client)
    ensures r.provider == c.provider && r.model == c.model && r.params == c.params
    ensures r.appliedOps == c.appliedOps + [op]
  {
    c.(appliedOps := c.appliedOps + [op])
  }

  /** The fold the replay loop of `_model` computes: apply the operations in order,
      each to the result of the previous one. */
  function Replay(c: Client, ops: seq<Op>): Client
    decreases |ops|
  {
    if ops == [] then c else ApplyOp(Replay(c, ops[..|ops| - 1]), ops[|ops| - 1])
  }

  /** Replaying leaves the construction untouched and records the operations in
      enqueue order. */
  lemma {:induction false} ReplayAppends(c: Client, ops: seq<Op>)
    ensures Replay(c, ops) == c.(appliedOps := c.appliedOps + ops)
    decreases |ops|
  {
    if ops != [] {
      var init := ops[..|ops| - 1];
      ReplayAppends(c, init);
      assert init + [ops[|ops| - 1]] == ops;
    }
  }

  /** The parameters `_model` passes to the constructor: the defaults overridden
      key-wise by the call's model parameters. */
  function ConstructionParams(p: Proxy, config: Option<RunConfig>): Params {
    Merge(p.defaultConfig, ModelParams(p, config))
  }

  /** What `_model` returns: the client built from the construction parameters with
      the queue replayed onto it, or the construction error. */
  function Materialize(p: Proxy, config: Option<RunConfig>): Result<Client, Error> {
    match InitChatModelHelper(ConstructionParams(p, config))
    case Err(e) => Err(e)
    case Ok(c) => Ok(Replay(c, p.queue))
  }

  /** `_model`: build a fresh client and replay the queued operations on it one by one. */
  method Model(p: Proxy, config: Option<RunConfig>) returns (r: Result<Client, Error>)
    ensures r == Materialize(p, config)
    ensures r.Ok? ==> && r.value.appliedOps == p.queue
                      && r.value.params == ConstructionParams(p, config) - {"model", "model_provider"}
    ensures r.Err? <==> InitChatModelHelper(ConstructionParams(p, config)).Err?
  {
    var params := Merge(p.defaultConfig, ModelParams(p, config));
    var built := InitChatModelHelper(params);
    if built.Err? {
      return Err(built.error);
    }
    var model := built.value;
    var i := 0;
    while i < |p.queue|
      invariant 0 <= i <= |p.queue|
      invariant model == Replay(built.value, p.queue[..i])
    {
      assert p.queue[..i + 1][..i] == p.queue[..i];
      model := ApplyOp(model, p.queue[i]);
      i := i + 1;
    }
    assert p.queue[..|p.queue|] == p.queue;
    ReplayAppends(built.value, p.queue);
    return Ok(model);
  }

  /** Materialising builds from the merged parameters (per-call keys win) and the
      client carries exactly the queued operations, in enqueue order. */
  lemma MaterializeBuildsFromMergedParams(p: Proxy, config: Option<RunConfig>)
    ensures var built := InitChatModelHelper(ConstructionParams(p, config));
            && (Materialize(p, config).Err? <==> built.Err?)
            && (built.Ok? ==> Materialize(p, config).value == built.value.(appliedOps := p.queue))
  {
    var built := InitChatModelHelper(ConstructionParams(p, config));
    if built.Ok? {
      ReplayAppends(built.value, p.queue);
    }
  }

  /** Two deferred calls are replayed in the order they were made, onto a client
      built exactly as the original proxy's would be. */
  lemma QueuedOperationsReplayInOrder(p: Proxy, config: Option<RunConfig>, tools: Value, schema: Value,
                                      kw1: Params, kw2: Params)
    requires Valid(p)
    ensures var q := WithStructuredOutput(BindTools(p, tools, kw1), schema, kw2);
            && ConstructionParams(q, config) == ConstructionParams(p, config)
            && (Materialize(q, config).Ok? <==> Materialize(p, config).Ok?)
            && (Materialize(q, config).Ok? ==>
                  Materialize(q, config).value.appliedOps
                  == p.queue + [Op("bind_tools", [tools], kw1), Op("with_structured_output", [schema], kw2)])
  {
    var q := WithStructuredOutput(BindTools(p, tools, kw1), schema, kw2);
    assert q.queue == p.queue + [Op("bind_tools", [tools], kw1), Op("with_structured_output", [schema], kw2)];
    MaterializeBuildsFromMergedParams(p, config);
    MaterializeBuildsFromMergedParams(q, config);
  }

  /** A proxy never carries model parameters for a call without configuration. */
  lemma NoConfigNoModelParams(p: Proxy)
    ensures ModelParams(p, None) == map[]
  {
  }

  /** Merging in no overrides leaves the base as it is. */
  lemma MergeNothing(base: Params)
    ensures Merge(base, map[]) == base
  {
    var r := Merge(base, map[]);
    assert r.Keys == base.Keys;
    assert forall k :: k in r ==> r[k] == base[k];
  }

  /** Binding a configuration with no extra keyword arguments binds exactly it. */
  lemma CombineWithoutKwargs(config: RunConfig)
    ensures CombineConfig(Some(config), EmptyConfig) == Ok(config)
  {
    assert config.others + map[] == config.others;
  }

  /** Binding a configuration and then materialising without one builds the client
      from the same parameters as materialising the original proxy with that
      configuration; the only difference is the trailing `with_config` operation. */
  lemma WithConfigThenMaterialize(p: Proxy, config: RunConfig)
    ensures WithConfig(p, Some(config), EmptyConfig).Ok?
    ensures var q := WithConfig(p, Some(config), EmptyConfig).value;
            && ConstructionParams(q, None) == ConstructionParams(p, Some(config))
            && (Materialize(q, None).Ok? <==> Materialize(p, Some(config)).Ok?)
            && (Materialize(q, None).Ok? ==>
                  Materialize(q, None).value
                  == Materialize(p, Some(config)).value.(appliedOps := p.queue + [WithConfigOp(RemainingConfig(p, config))]))
  {
    CombineWithoutKwargs(config);
    var q := WithConfig(p, Some(config), EmptyConfig).value;
    assert q.defaultConfig == ConstructionParams(p, Some(config));
    assert q.queue == p.queue + [WithConfigOp(RemainingConfig(p, config))];
    NoConfigNoModelParams(q);
    MergeNothing(q.defaultConfig);
    SameParamsSameBuild(p, Some(config), q, None);
  }

  /** Two proxies that pass the same parameters to the constructor build the same
      client, up to the operations each replays. */
  lemma SameParamsSameBuild(p: Proxy, c: Option<RunConfig>, q: Proxy, d: Option<RunConfig>)
    requires ConstructionParams(p, c) == ConstructionParams(q, d)
    ensures Materialize(q, d).Ok? <==> Materialize(p, c).Ok?
    ensures Materialize(q, d).Ok? ==> Materialize(q, d).value == Materialize(p, c).value.(appliedOps := q.queue)
  {
    MaterializeBuildsFromMergedParams(p, c);
    MaterializeBuildsFromMergedParams(q, d);
  }

  /** The `config` argument of `batch`/`abatch`: absent, one configuration, or a list. */
  datatype BatchConfig = NoConfig | OneConfig(config: RunConfig) | ConfigList(configs: seq<RunConfig>)

  /** How a batch is served: by one client's own batch with the given configuration,
      or by the generic path that handles each configuration separately. */
  datatype BatchRoute = OneClient(config: Option<RunConfig>) | PerConfig(configs: seq<RunConfig>)

  /** The routing of `batch`/`abatch`: after `config or None`, at most one
      configuration goes to one client, two or more to the generic path. */
  function RouteBatch(config: BatchConfig): (r: BatchRoute)
    ensures r.PerConfig? <==> config.ConfigList? && |config.configs| >= 2
    ensures r.PerConfig? ==> r.configs == config.configs
    ensures r.OneClient? && r.config.Some? ==>
              config == OneConfig(r.config.value) || config == ConfigList([r.config.value])
    ensures r.OneClient? && r.config.None? ==>
              config.NoConfig? || (config.OneConfig? && IsEmptyConfig(config.config)) || config == ConfigList([])
    ensures config.NoConfig? || config == ConfigList([]) ==> r == OneClient(None)
    ensures config.OneConfig? ==>
              r == if IsEmptyConfig(config.config) then OneClient(None) else OneClient(Some(config.config))
    ensures config.ConfigList? && |config.configs| == 1 ==> r == OneClient(Some(config.configs[0]))
  {
    var c := match config
      case NoConfig => NoConfig
      case OneConfig(x) => if IsEmptyConfig(x) then NoConfig else config
      case ConfigList(xs) => if xs == [] then NoConfig else config;
    match c
    case NoConfig => OneClient(None)
    case OneConfig(x) => OneClient(Some(x))
    case ConfigList(xs) =>
      if |xs| <= 1 then
        assert xs == [xs[0]];
        OneClient(Some(xs[0]))
      else PerConfig(xs)
  }

  /** What a batch call does before handing the inputs on. */
  datatype BatchPlan = NativeBatch(client: Client, config: Option<RunConfig>) | GenericBatch(configs: seq<RunConfig>)

  /** `batch`/`abatch`: with at most one configuration, materialise one client (its
      errors propagate) and forward that same configuration to its batch; otherwise
      defer to the generic per-configuration path without materialising. */
  function Batch(p: Proxy, config: BatchConfig): (r: Result<BatchPlan, Error>)
    ensures r.Ok? && r.value.GenericBatch? <==> config.ConfigList? && |config.configs| >= 2
    ensures r.Ok? && r.value.GenericBatch? ==> r.value.configs == config.configs
    ensures r.Ok? && r.value.NativeBatch? ==> Materialize(p, r.value.config) == Ok(r.value.client)
    ensures r.Err? ==> !(config.ConfigList? && |config.configs| >= 2)
    ensures RouteBatch(config).OneClient? ==>
              var m := Materialize(p, RouteBatch(config).config);
              && (r.Err? <==> m.Err?)
              && (r.Err? ==> r.error == m.error)
              && (r.Ok? ==> r.value.NativeBatch? && r.value.config == RouteBatch(config).config)
  {
    match RouteBatch(config)
    case PerConfig(cs) => Ok(GenericBatch(cs))
    case OneClient(c) =>
      match Materialize(p, c)
      case Err(e) => Err(e)
      case Ok(client) => Ok(NativeBatch(client, c))
  }
}
