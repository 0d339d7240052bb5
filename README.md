# Chat-model factory and configurable proxy

A Dafny model of the chat-model factory of LangChain v1
(`libs/langchain_v1/langchain/chat_models/base.py`): `init_chat_model`, the
model/provider resolver, and `_ConfigurableModel`, the proxy that defers
building a provider client until call time.

- `types.dfy` (module `Types`): parameter values (`Value`: strings, `None`,
  opaque objects, nested configurations), parameter maps, run configurations
  (`RunConfig`: the `"configurable"` entry and the other entries), queued
  operations `Op(name, args, kwargs)`, the fake client record
  `Client(provider, model, params, appliedOps)` and the errors.
- `providers.dfy` (module `Providers`): `_SUPPORTED_PROVIDERS`, the prefix
  ladder `_attempt_infer_model_provider`, `_parse_model`, the provider-key
  normalisation, and `_init_chat_model_helper`. The per-provider class ladder
  is one constructor, `Construct`, which returns the fake client record for the
  21 provider keys that have a branch, and the unsupported-provider error
  (listing `_SUPPORTED_PROVIDERS`) otherwise.
- `configurable.dfy` (module `Configurable`): the proxy as an immutable value
  `Proxy(defaultConfig, fields, prefix, queue)`; its constructor, the queueing
  of `bind_tools` / `with_structured_output`, `_model_params`, `with_config`,
  the materialisation `_model` (a method whose loop replays the queue, proved
  against the fold `Replay`), and the config-count routing of `batch`/`abatch`.
- `factory.dfy` (module `Factory`): the dispatch of `init_chat_model` between
  a concrete client and a proxy.

The proxy never changes after construction: every call that looks like a
mutation returns a new value, which Dafny datatypes give directly. The one
loop in the core, the replay in `_model`, is a `while` loop with the fold as
its invariant.

Behaviour of the code that the model keeps as written, with a lemma each:

- `"nvidia"` has a constructor branch but is not in `_SUPPORTED_PROVIDERS`.
  So `"nvidia:<model>"` is not split, and no provider can be inferred for it.
  The explicit provider `"nvidia"` does work (`NvidiaOnlyExplicit`).
- `with_config` withholds a `configurable` key when its name with the prefix
  removed is a model parameter. `str.removeprefix` returns an unprefixed key
  unchanged. So with prefix `foo_`, an unprefixed `temperature` is withheld
  along with `foo_temperature`, although only `foo_temperature` became a
  parameter (`WithConfigDropsUnprefixedTwin`).
- The remaining configuration of `with_config` always holds a
  `"configurable"` entry. So the `with_config` operation is always queued
  (`WithConfig`).

Resolution failures and unsupported providers are both `ValueError`s. The
`configurable` keys that `with_config` does not turn into parameters are
forwarded, except for the unprefixed twins described above. `"nvidia"` is
constructible but is not accepted as the head of a `provider:model` spec.

## Model

| member | source | states |
|---|---|---|
| `Providers.InferProviderIsFirstMatch` | libs/langchain_v1/langchain/chat_models/base.py:479-500 | on every name, the if-ladder returns what first-match-wins over the ordered (prefix, provider) table returns: gpt-3/gpt-4/o1/o3 give openai, claude anthropic, ... sonar perplexity |
| `Providers.FirstMatchIsFirst` | libs/langchain_v1/langchain/chat_models/base.py:479-500 | the table walk finds a provider iff some rule's prefix matches, and then it is the provider of a matching rule that no earlier rule matches |
| `Providers.InferredProviderIsSupported` | libs/langchain_v1/langchain/chat_models/base.py:479-500 | every inferred provider is a key of the supported set |
| `Providers.SplitAtFirstColon` | libs/langchain_v1/langchain/chat_models/base.py:504-510 | for a spec with a colon, the head has no colon and head + ":" + tail is the spec, so later colons stay in the tail |
| `Providers.SplitJoined` | libs/langchain_v1/langchain/chat_models/base.py:504-510 | splitting head + ":" + tail with a colon-free head gives back head and tail |
| `Providers.ParseModel` | libs/langchain_v1/langchain/chat_models/base.py:503-519 | a successful parse returns a non-empty provider with no hyphen and no upper-case letter |
| `Providers.ParseModelSplits` | libs/langchain_v1/langchain/chat_models/base.py:504-510 | with no (or an empty) explicit provider, "head:tail" with a supported head parses to model tail and provider head |
| `Providers.ParseModelExplicit` | libs/langchain_v1/langchain/chat_models/base.py:511-519 | a non-empty explicit provider wins: the model is kept verbatim and the provider is the normalised explicit one |
| `Providers.ParseModelInfers` | libs/langchain_v1/langchain/chat_models/base.py:511-517 | without provider or split, the provider is the one inferred from the whole name, and parsing fails with CannotInferProvider exactly when inference finds none |
| `Providers.ParseModelFailsIff` | libs/langchain_v1/langchain/chat_models/base.py:511-517 | parsing fails iff there is no explicit provider, no split and no inferable provider |
| `Providers.NormaliseProvider` | libs/langchain_v1/langchain/chat_models/base.py:518 | each character of the key is that of the input with `-` turned into `_` and then lower-cased, so the result has no hyphen and no upper-case letter |
| `Providers.NormaliseFixesNormalKeys` | libs/langchain_v1/langchain/chat_models/base.py:518 | keys in normal form are unchanged, so provider normalisation is idempotent |
| `Providers.SupportedKeysAreNormal` | libs/langchain_v1/langchain/chat_models/base.py:455-476 | every constructible key is already normalised, so a split head survives normalisation unchanged |
| `Providers.NvidiaOnlyExplicit` | libs/langchain_v1/langchain/chat_models/base.py:428-432 | "nvidia:<m>" fails to resolve while model m with explicit provider "nvidia" resolves and is constructible |
| `Providers.Construct` | libs/langchain_v1/langchain/chat_models/base.py:333-452 | the ladder builds exactly for the 21 keys it has branches for, recording provider, model and kwargs with no operations applied; any other key fails with the unsupported-provider error listing the supported set |
| `Providers.InitChatModelHelper` | libs/langchain_v1/langchain/chat_models/base.py:326-332 | a missing "model" argument is an error, and so is a non-string model or a truthy non-string provider; for a string model and an absent, None or string provider the call succeeds iff parsing succeeds with a constructible provider, a parse error propagates unchanged, and an unconstructible provider is reported with the supported set; a built client has the parsed model and normalised provider and receives every other parameter except "model" and "model_provider" |
| `Configurable.RemovePrefix` | libs/langchain_v1/langchain/chat_models/base.py:531-532 | for a key that has the prefix, prefix + result is the key; any other key is returned unchanged |
| `Configurable.NormalisePrefix` | libs/langchain_v1/langchain/chat_models/base.py:553-557 | the result is empty or ends in "_", extends the argument by at most one character, and equals the argument iff the argument was empty or already ended in "_" |
| `Configurable.NormalisePrefixIdempotent` | libs/langchain_v1/langchain/chat_models/base.py:553-557 | normalising a prefix twice is normalising it once |
| `Configurable.NewProxy` | libs/langchain_v1/langchain/chat_models/base.py:539-560 | the constructor stores `{}` for absent defaults and keeps fields and queue; it keeps a normal prefix and appends "_" to any other |
| `Configurable.Merge` | libs/langchain_v1/langchain/chat_models/base.py:592 | `{**base, **overrides}`: the keys of both, overriding values win key-wise, other base values are kept |
| `Configurable.ModelParams` | libs/langchain_v1/langchain/chat_models/base.py:599-610 | t is a model parameter iff prefix + t is a configurable key and t is an allowed field, with that key's value |
| `Configurable.ListedFieldsBoundModelParams` | libs/langchain_v1/langchain/chat_models/base.py:607-609 | with a field list, every model-parameter name is in the list |
| `Configurable.UnlistedKeyDropped` | libs/langchain_v1/langchain/chat_models/base.py:601-609 | a prefixed key is kept under "any" and dropped when its stripped name is not in the field list |
| `Configurable.Queue` | libs/langchain_v1/langchain/chat_models/base.py:563-583 | the new proxy's queue is the old one plus (name, args, kwargs); defaults and fields are equal, and the prefix too for a constructed proxy |
| `Configurable.BindTools` | libs/langchain_v1/langchain/chat_models/base.py:930-935 | `bind_tools` queues ("bind_tools", [tools], kwargs) and changes nothing else |
| `Configurable.WithStructuredOutput` | libs/langchain_v1/langchain/chat_models/base.py:938-943 | `with_structured_output` queues ("with_structured_output", [schema], kwargs) and changes nothing else |
| `Configurable.CombineConfig` | libs/langchain_v1/langchain/chat_models/base.py:618 | config and keyword arguments combine into their union, which fails exactly when a key is given in both |
| `Configurable.RemainingConfig` | libs/langchain_v1/langchain/chat_models/base.py:620-625 | the forwarded configuration always has a "configurable" entry, holds the configurable keys (with their values) whose stripped name is not a model parameter, and keeps every other entry with its value |
| `Configurable.WithConfig` | libs/langchain_v1/langchain/chat_models/base.py:612-642 | the new defaults are the old ones overridden by the configuration's model parameters; a with_config operation carrying the remaining configuration is always appended; fields and prefix are kept |
| `Configurable.WithConfigSplitsConfigurable` | libs/langchain_v1/langchain/chat_models/base.py:619-625 | a prefixed allowed key becomes a parameter and is not forwarded; a prefixed disallowed key is forwarded; an unprefixed key is forwarded iff its name is not a model parameter |
| `Configurable.WithConfigDropsUnprefixedTwin` | libs/langchain_v1/langchain/chat_models/base.py:621-625 | when both the prefixed key and its unprefixed twin are in "configurable", the parameter takes the prefixed value and neither key is forwarded |
| `Configurable.ReplayAppends` | libs/langchain_v1/langchain/chat_models/base.py:594-595 | replaying operations keeps provider, model and params and appends the operations in enqueue order |
| `Configurable.Model` | libs/langchain_v1/langchain/chat_models/base.py:592-597 | the loop returns the materialised client: built from the merged parameters, carrying exactly the queued operations in order, or the construction error |
| `Configurable.MaterializeBuildsFromMergedParams` | libs/langchain_v1/langchain/chat_models/base.py:592-597 | materialisation fails iff construction from defaults merged with per-call parameters fails, and otherwise is that construction with the queue as its applied operations |
| `Configurable.SameParamsSameBuild` | libs/langchain_v1/langchain/chat_models/base.py:592-597 | two proxies passing the same construction parameters build the same client, up to their own queues |
| `Configurable.QueuedOperationsReplayInOrder` | libs/langchain_v1/langchain/chat_models/base.py:569-583 | after bind_tools then with_structured_output, construction is unchanged and the client has both operations applied after the old queue, in call order |
| `Configurable.WithConfigThenMaterialize` | libs/langchain_v1/langchain/chat_models/base.py:612-642 | binding a configuration then materialising without one builds from the same parameters as materialising the original with it; only a trailing with_config operation differs |
| `Configurable.RouteBatch` | libs/langchain_v1/langchain/chat_models/base.py:706-724 | the generic per-configuration path is taken iff a list of two or more configurations is given, with that list; no configuration, `{}` and `[]` route to one client with no configuration; a non-empty single configuration, or the only element of a one-element list, routes to one client with that configuration |
| `Configurable.Batch` | libs/langchain_v1/langchain/chat_models/base.py:698-724 | with at most one configuration the call fails iff materialising with the routed configuration fails, with that error; otherwise one client materialised from the routed configuration is used and that same configuration is forwarded to its batch; with several, the generic path gets the list and nothing is materialised |
| `Factory.EffectiveFields` | libs/langchain_v1/langchain/chat_models/base.py:298-299 | with no model and no fields, the configurable fields default to ["model", "model_provider"]; otherwise they are the given ones |
| `Factory.InitChatModel` | libs/langchain_v1/langchain/chat_models/base.py:298-323 | a proxy is returned iff fields are given or no model is; the direct path is the helper on model and provider; a proxy has an empty queue, the defaulted fields, the normalised prefix, and kwargs plus the model and provider exactly when given |
| `Factory.DeferredWithoutConfigMatchesDirect` | libs/langchain_v1/langchain/chat_models/base.py:309-323 | a proxy for a named model and any (or no) provider, materialised with no configuration, fails iff the direct path fails and otherwise builds the same client |
| `Factory.HelperIgnoresNullProvider` | libs/langchain_v1/langchain/chat_models/base.py:326-332 | passing model_provider=None or model_provider="" builds the same as not passing it |

## Left out

- The provider classes and their imports (lines 333-446) are replaced by `Construct`, which returns a record. The package check `_check_pkg` and the Ollama package fallback probe the installed environment and are not modelled, so "missing dependency" errors do not occur.
- The attribute fallback of `__getattr__` (lines 584-590) is reflection on a real client and is not modelled; only the queueing branch is.
- `invoke`, `ainvoke`, `stream`, `astream`, `transform`, `atransform`, `astream_log` and `astream_events` are not modelled. They only forward a call to a materialised client. The generic executor path of `batch`/`abatch` is not modelled either, including `return_exceptions`. `batch_as_completed` and `abatch_as_completed` use the same routing as `RouteBatch` and are not modelled separately.
- The `warnings.warn` for a prefix with no configurable fields, and the `InputType` property, are not modelled: the first is a side effect and the second is a typing shim.
- `ensure_config` is part of langchain_core and is not part of this model. The model reads an absent configuration as having no configurable entries. It does not model inheriting the parent run's configuration from a context variable.
- `Providers.Lower` lower-cases ASCII letters only, because Python's full Unicode case mapping is not modelled.
- `Providers.InitChatModelHelper` treats a non-string model as an invalid argument. In Python, if an explicit provider is given, such a model would instead reach the foreign client's own validation.
- Opaque values are always truthy. Python's falsy non-strings (`0`, empty containers) are not distinguished. A `configurable_fields` string other than "any" is not modelled.
- Dictionary order is not modelled. `DuplicateConfigKeys` reports all repeated keys, not the first one Python meets.
- Clients are values. The model does not capture object identity, so it cannot express "a fresh client is built on every call"; each materialisation simply constructs again.
- Only `libs/langchain_v1/langchain/chat_models/base.py` is modelled.
