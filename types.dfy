/** Values shared by the chat-model factory and its configurable proxy:
    the dynamically typed parameter values, the run configuration supplied per call,
    the queued declarative operations, the fake client record that stands for a
    constructed provider client, and the errors the factory raises. */
module Types {

  datatype Option<+T> = None | Some(value: T)

  datatype Result<+T, +E> = Ok(value: T) | Err(error: E)

  /** A keyword-argument value. The factory only looks inside strings (the model
      name and the provider); every other object is opaque to it. */
  datatype Value =
    | Str(s: string)
    | Null                    // Python's None
    | Opaque(id: nat)         // any other object; always truthy
    | Config(config: RunConfig)

  /** A parameter mapping (`default_config`, model params, client kwargs). */
  type Params = map<string, Value>

  /** A run configuration: its "configurable" entry, when present, and every other
      entry (tags, metadata, callbacks, ...) under `others`. A "configurable" key
      inside `others` plays no part: every reader of the mapping goes through
      `configurable`, and `with_config` drops that key from the forwarded entries. */
  datatype RunConfig = RunConfig(configurable: Option<Params>, others: Params)

  /** The empty run configuration `{}`. */
  const EmptyConfig: RunConfig := RunConfig(None, map[])

  predicate IsEmptyConfig(c: RunConfig) {
    c.configurable.None? && |c.others| == 0
  }

  /** Python truthiness of a value. */
  predicate Truthy(v: Value) {
    match v
    case Str(s) => s != ""
    case Null => false
    case Opaque(_) => true
    case Config(c) => !IsEmptyConfig(c)
  }

  /** `config.get("configurable", {})`, with an absent configuration read as `{}`. */
  function ConfigurableOf(config: Option<RunConfig>): (r: Params)
    ensures config.None? ==> r == map[]
    ensures config.Some? && config.value.configurable.Some? ==> r == config.value.configurable.value
    ensures config.Some? && config.value.configurable.None? ==> r == map[]
  {
    match config
    case None => map[]
    case Some(c) => if c.configurable.Some? then c.configurable.value else map[]
  }

  /** A queued `(name, args, kwargs)` operation. */
  datatype Op = Op(name: string, args: seq<Value>, kwargs: Params)

  /** The record a provider constructor returns in this model: which provider class
      was built, for which model name, with which keyword parameters, and the
      operations applied to it since, oldest first. */
  datatype Client = Client(provider: string, model: string, params: Params, appliedOps: seq<Op>)

  datatype Error =
    | MissingArgument(name: string)       // a required keyword argument is absent
    | InvalidArgument(name: string)       // an argument of the wrong type
    | CannotInferProvider(model: string)  // no explicit and no inferable provider
    | UnsupportedProvider(provider: string, supported: set<string>)
    | DuplicateConfigKeys(keys: set<string>)  // the same key given in config and as a keyword
}
