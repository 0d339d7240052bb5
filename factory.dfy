/** `init_chat_model`: the entry point that returns either a concrete client, built at
    once, or a configurable proxy that defers construction to call time. */
module Factory {
  import opened Types
  import opened Providers
  import opened Configurable

  /** What `init_chat_model` returns. */
  datatype ChatModel = Concrete(client: Client) | Deferred(proxy: Proxy)

  /** Python truthiness of an optional string argument. */
  predicate Given(s: Option<string>) {
    s.Some? && s.value != ""
  }

  /** Python truthiness of `configurable_fields`: absent and `[]` are false, "any"
      and a non-empty list are true. */
  predicate FieldsGiven(fields: Option<Fields>) {
    fields.Some? && (fields.value.AnyField? || fields.value.names != [])
  }

  /** The fields configurable by default when no model is named. */
  const DefaultFields: Fields := Listed(["model", "model_provider"])

  /** Whether `init_chat_model` defers construction to a proxy. */
  predicate Defers(model: Option<string>, fields: Option<Fields>) {
    FieldsGiven(fields) || !Given(model)
  }

  /** The field set the proxy receives: the argument, or the default pair when
      neither a model nor a field set is given. */
  function EffectiveFields(model: Option<string>, fields: Option<Fields>): (r: Fields)
    requires Defers(model, fields)
    ensures FieldsGiven(fields) ==> r == fields.value
    ensures !FieldsGiven(fields) ==> r == DefaultFields
  {
    if !Given(model) && !FieldsGiven(fields) then DefaultFields else fields.value
  }

  /** `init_chat_model(model, model_provider=..., configurable_fields=...,
      config_prefix=..., **kwargs)`. The keyword arguments cannot repeat the named
      parameters "model" and "model_provider". */
  function InitChatModel(model: Option<string>, modelProvider: Option<string>, fields: Option<Fields>,
                         configPrefix: Option<string>, kwargs: Params): (r: Result<ChatModel, Error>)
    requires "model" !in kwargs && "model_provider" !in kwargs
    ensures Defers(model, fields) <==> r.Ok? && r.value.Deferred?
    ensures !Defers(model, fields) ==>
              var params := kwargs["model" := Str(model.value)]
                                  ["model_provider" := if modelProvider.Some? then Str(modelProvider.value) else Null];
              && (r.Err? <==> InitChatModelHelper(params).Err?)
              && (r.Err? ==> r.error == InitChatModelHelper(params).error)
              && (r.Ok? ==> r.value.client == InitChatModelHelper(params).value)
    ensures r.Ok? && r.value.Deferred? ==>
              var p := r.value.proxy;
              && Valid(p) && p.queue == []
              && p.fields == EffectiveFields(model, fields)
              && p.prefix == NormalisePrefix(if configPrefix.Some? then configPrefix.value else "")
              && ("model" in p.defaultConfig <==> Given(model))
              && (Given(model) ==> p.defaultConfig["model"] == Str(model.value))
              && ("model_provider" in p.defaultConfig <==> Given(modelProvider))
              && (Given(modelProvider) ==> p.defaultConfig["model_provider"] == Str(modelProvider.value))
              && p.defaultConfig - {"model", "model_provider"} == kwargs
  {
    var prefix := if configPrefix.Some? then configPrefix.value else "";
    if !Defers(model, fields) then
      var params := kwargs["model" := Str(model.value)]
                          ["model_provider" := if modelProvider.Some? then Str(modelProvider.value) else Null];
      match InitChatModelHelper(params)
      case Err(e) => Err(e)
      case Ok(c) => Ok(Concrete(c))
    else
      var withModel := if Given(model) then kwargs["model" := Str(model.value)] else kwargs;
      var defaults := if Given(modelProvider) then withModel["model_provider" := Str(modelProvider.value)] else withModel;
      assert defaults - {"model", "model_provider"} == kwargs;
      Ok(Deferred(NewProxy(Some(defaults), EffectiveFields(model, fields), prefix, [])))
  }

  /** A factory-built proxy for a named model, given no per-call configuration,
      builds the same client as the direct path would for that model and provider. */
  lemma DeferredWithoutConfigMatchesDirect(model: string, modelProvider: Option<string>, fields: Fields,
                                           configPrefix: Option<string>, kwargs: Params)
    requires model != ""
    requires "model" !in kwargs && "model_provider" !in kwargs
    requires fields.AnyField? || fields.names != []
    ensures var r := InitChatModel(Some(model), modelProvider, Some(fields), configPrefix, kwargs);
            var direct := InitChatModel(Some(model), modelProvider, None, configPrefix, kwargs);
            && r.Ok? && r.value.Deferred?
            && (Materialize(r.value.proxy, None).Ok? <==> direct.Ok?)
            && (direct.Ok? ==> Materialize(r.value.proxy, None) == Ok(direct.value.client))
  {
    var p := InitChatModel(Some(model), modelProvider, Some(fields), configPrefix, kwargs).value.proxy;
    var pd := p.defaultConfig;
    var withModel := kwargs["model" := Str(model)];
    NoConfigNoModelParams(p);
    MergeNothing(pd);
    assert ConstructionParams(p, None) == pd;
    MaterializeBuildsFromMergedParams(p, None);
    if Given(modelProvider) {
      assert pd == withModel["model_provider" := Str(modelProvider.value)];
    } else {
      assert pd == withModel;
      HelperIgnoresNullProvider(withModel);
    }
  }

  /** Passing `model_provider=None` or `model_provider=""` is the same as not
      passing it. */
  lemma HelperIgnoresNullProvider(params: Params)
    requires "model_provider" !in params
    ensures InitChatModelHelper(params["model_provider" := Null]) == InitChatModelHelper(params)
    ensures InitChatModelHelper(params["model_provider" := Str("")]) == InitChatModelHelper(params)
  {
    var withNull := params["model_provider" := Null];
    var withEmpty := params["model_provider" := Str("")];
    assert withNull - {"model", "model_provider"} == params - {"model", "model_provider"};
    assert withEmpty - {"model", "model_provider"} == params - {"model", "model_provider"};
    if "model" in params && params["model"].Str? {
      var m := params["model"].s;
      assert ParseModel(m, Some("")) == ParseModel(m, None);
    }
  }
}
