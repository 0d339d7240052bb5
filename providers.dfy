/** Model/provider resolution: splitting a "provider:model" spec, inferring a
    provider from the model name, normalising the provider key, and the provider
    constructor that stands for the per-provider class ladder. */
module Providers {
  import opened Types

  /** The provider keys recognised in a "provider:model" spec and listed in the
      unsupported-provider error. */
  const SupportedProviders: set<string> := {
    "openai", "anthropic", "azure_openai", "azure_ai", "cohere", "google_vertexai",
    "google_genai", "fireworks", "ollama", "together", "mistralai", "huggingface",
    "groq", "bedrock", "bedrock_converse", "google_anthropic_vertex", "deepseek",
    "ibm", "xai", "perplexity"
  }

  /** The provider keys the constructor ladder has a branch for: the supported set
      plus "nvidia", which has a branch but is missing from the supported set. */
  const ConstructibleProviders: set<string> := SupportedProviders + {"nvidia"}

  predicate StartsWith(s: string, prefix: string) {
    prefix <= s
  }

  /** `_attempt_infer_model_provider`: the prefix ladder, first match wins. */
  function InferProvider(name: string): Option<string> {
    if StartsWith(name, "gpt-3") || StartsWith(name, "gpt-4")
       || StartsWith(name, "o1") || StartsWith(name, "o3") then Some("openai")
    else InferNonOpenAI(name)
  }

  /** The ladder below its openai rung. */
  function InferNonOpenAI(name: string): Option<string> {
    if StartsWith(name, "claude") then Some("anthropic")
    else if StartsWith(name, "command") then Some("cohere")
    else if StartsWith(name, "accounts/fireworks") then Some("fireworks")
    else if StartsWith(name, "gemini") then Some("google_vertexai")
    else if StartsWith(name, "amazon.") then Some("bedrock")
    else if StartsWith(name, "mistral") then Some("mistralai")
    else if StartsWith(name, "deepseek") then Some("deepseek")
    else if StartsWith(name, "grok") then Some("xai")
    else if StartsWith(name, "sonar") then Some("perplexity")
    else None
  }

  /** The inference rules as an ordered table of (prefix, provider) pairs. */
  const InferenceRules: seq<(string, string)> := [
    ("gpt-3", "openai"), ("gpt-4", "openai"), ("o1", "openai"), ("o3", "openai"),
    ("claude", "anthropic"), ("command", "cohere"), ("accounts/fireworks", "fireworks"),
    ("gemini", "google_vertexai"), ("amazon.", "bedrock"), ("mistral", "mistralai"),
    ("deepseek", "deepseek"), ("grok", "xai"), ("sonar", "perplexity")
  ]

  /** The provider of the first rule whose prefix the name starts with. */
  function FirstMatch(rules: seq<(string, string)>, name: string): Option<string> {
    if rules == [] then None
    else if StartsWith(name, rules[0].0) then Some(rules[0].1)
    else FirstMatch(rules[1..], name)
  }

  /** FirstMatch finds a provider exactly when some rule matches, and then it is the
      provider of a matching rule that no earlier rule precedes. */
  lemma {:induction false} FirstMatchIsFirst(rules: seq<(string, string)>, name: string)
    ensures FirstMatch(rules, name).Some? <==> exists i :: 0 <= i < |rules| && StartsWith(name, rules[i].0)
    ensures FirstMatch(rules, name).Some? ==>
              exists i :: && 0 <= i < |rules| && StartsWith(name, rules[i].0)
                          && rules[i].1 == FirstMatch(rules, name).value
                          && forall j :: 0 <= j < i ==> !StartsWith(name, rules[j].0)
  {
    if rules != [] && !StartsWith(name, rules[0].0) {
      FirstMatchIsFirst(rules[1..], name);
      assert forall i :: 1 <= i < |rules| ==> rules[i] == rules[1..][i - 1];
      if FirstMatch(rules, name).Some? {
        var i :| && 0 <= i < |rules[1..]| && StartsWith(name, rules[1..][i].0)
                 && rules[1..][i].1 == FirstMatch(rules, name).value
                 && forall j :: 0 <= j < i ==> !StartsWith(name, rules[1..][j].0);
        assert forall j :: 0 <= j < i + 1 ==> !StartsWith(name, rules[j].0) by {
          forall j | 0 <= j < i + 1 ensures !StartsWith(name, rules[j].0) {
            if j > 0 { assert rules[j] == rules[1..][j - 1]; }
          }
        }
      }
    }
  }

  /** One step of the table walk. */
  lemma FirstMatchStep(rules: seq<(string, string)>, k: nat, name: string)
    requires k < |rules|
    ensures FirstMatch(rules[k..], name)
            == if StartsWith(name, rules[k].0) then Some(rules[k].1) else FirstMatch(rules[k + 1..], name)
  {
    assert rules[k..][1..] == rules[k + 1..];
  }

  /** The rule table, described entry by entry. The walk lemmas below reason about
      any table with these entries, which is far cheaper for the solver than
      unfolding the literal `InferenceRules`; `InferProviderIsFirstMatch` then
      applies them to that literal. */
  predicate IsInferenceTable(rules: seq<(string, string)>) {
    && |rules| == 13
    && rules[0] == ("gpt-3", "openai") && rules[1] == ("gpt-4", "openai")
    && rules[2] == ("o1", "openai") && rules[3] == ("o3", "openai")
    && rules[4] == ("claude", "anthropic") && rules[5] == ("command", "cohere")
    && rules[6] == ("accounts/fireworks", "fireworks") && rules[7] == ("gemini", "google_vertexai")
    && rules[8] == ("amazon.", "bedrock") && rules[9] == ("mistral", "mistralai")
    && rules[10] == ("deepseek", "deepseek") && rules[11] == ("grok", "xai")
    && rules[12] == ("sonar", "perplexity")
  }

  /** Walking rules 4 to 12 of the table gives the ladder below its openai rung. */
  lemma WalkTail(rules: seq<(string, string)>, name: string)
    requires IsInferenceTable(rules)
    ensures FirstMatch(rules[4..], name) == InferNonOpenAI(name)
  {
    assert rules[13..] == [];
    FirstMatchStep(rules, 12, name);
    FirstMatchStep(rules, 11, name);
    FirstMatchStep(rules, 10, name);
    FirstMatchStep(rules, 9, name);
    FirstMatchStep(rules, 8, name);
    FirstMatchStep(rules, 7, name);
    FirstMatchStep(rules, 6, name);
    FirstMatchStep(rules, 5, name);
    FirstMatchStep(rules, 4, name);
  }

  /** Walking the whole table gives the ladder. */
  lemma WalkTable(rules: seq<(string, string)>, name: string)
    requires IsInferenceTable(rules)
    ensures FirstMatch(rules, name) == InferProvider(name)
  {
    WalkTail(rules, name);
    FirstMatchStep(rules, 3, name);
    FirstMatchStep(rules, 2, name);
    FirstMatchStep(rules, 1, name);
    FirstMatchStep(rules, 0, name);
    assert rules[0..] == rules;
  }

  /** The ladder agrees with first-match-wins over the rule table, on every name. */
  lemma InferProviderIsFirstMatch(name: string)
    ensures InferProvider(name) == FirstMatch(InferenceRules, name)
  {
    WalkTable(InferenceRules, name);
  }

  /** Every inferred provider is a supported key. */
  lemma InferredProviderIsSupported(name: string)
    ensures InferProvider(name).Some? ==> InferProvider(name).value in SupportedProviders
  {
  }

  /** `model.split(":")[0]` and `":".join(model.split(":")[1:])` for a spec that
      contains a colon: the text before the first colon and everything after it. */
  function SplitAtFirstColon(s: string): (r: (string, string))
    requires ':' in s
    ensures s == r.0 + ":" + r.1
    ensures ':' !in r.0
  {
    if s[0] == ':' then ("", s[1..])
    else
      var rest := SplitAtFirstColon(s[1..]);
      ([s[0]] + rest.0, rest.1)
  }

  /** `str.replace("-", "_")`. */
  function ReplaceHyphens(s: string): (r: string)
    ensures |r| == |s|
    ensures forall i :: 0 <= i < |s| ==> r[i] == if s[i] == '-' then '_' else s[i]
  {
    seq(|s|, i requires 0 <= i < |s| => if s[i] == '-' then '_' else s[i])
  }

  function LowerChar(c: char): char {
    if 'A' <= c <= 'Z' then (c as int - 'A' as int + 'a' as int) as char else c
  }

  /** `str.lower()`, on ASCII letters. */
  function Lower(s: string): (r: string)
    ensures |r| == |s|
    ensures forall i :: 0 <= i < |s| ==> r[i] == LowerChar(s[i])
  {
    seq(|s|, i requires 0 <= i < |s| => LowerChar(s[i]))
  }

  /** A provider key in normal form: no hyphen and no upper-case letter. */
  predicate IsNormalKey(p: string) {
    forall i :: 0 <= i < |p| ==> p[i] != '-' && !('A' <= p[i] <= 'Z')
  }

  /** `model_provider.replace("-", "_").lower()`. */
  function NormaliseProvider(p: string): (r: string)
    ensures |r| == |p|
    ensures forall i :: 0 <= i < |p| ==> r[i] == LowerChar(if p[i] == '-' then '_' else p[i])
    ensures IsNormalKey(r)
  {
    Lower(ReplaceHyphens(p))
  }

  /** Keys already in normal form are left alone, so normalising twice is normalising once. */
  lemma {:induction false} NormaliseFixesNormalKeys(p: string)
    ensures IsNormalKey(p) ==> NormaliseProvider(p) == p
    ensures NormaliseProvider(NormaliseProvider(p)) == NormaliseProvider(p)
  {
    var q := NormaliseProvider(p);
    if IsNormalKey(p) {
      assert forall i :: 0 <= i < |p| ==> q[i] == p[i];
    }
    assert forall i :: 0 <= i < |q| ==> NormaliseProvider(q)[i] == q[i];
  }

  /** Every constructible key is already in normal form (checked a few keys at a
      time, which keeps each proof small). */
  lemma SupportedKeysAreNormal(p: string)
    requires p in ConstructibleProviders
    ensures IsNormalKey(p)
    ensures NormaliseProvider(p) == p
  {
    if p == "openai" || p == "anthropic" || p == "azure_openai" { KeysAreNormal0(p); }
    else if p == "azure_ai" || p == "cohere" || p == "google_vertexai" { KeysAreNormal1(p); }
    else if p == "google_genai" || p == "fireworks" || p == "ollama" { KeysAreNormal2(p); }
    else if p == "together" || p == "mistralai" || p == "huggingface" { KeysAreNormal3(p); }
    else if p == "groq" || p == "bedrock" || p == "bedrock_converse" { KeysAreNormal4(p); }
    else if p == "google_anthropic_vertex" || p == "deepseek" || p == "ibm" { KeysAreNormal5(p); }
    else if p == "xai" || p == "perplexity" || p == "nvidia" { KeysAreNormal6(p); }
    NormaliseFixesNormalKeys(p);
  }

  // The constructible keys in groups of three, one small proof per group.
  lemma KeysAreNormal0(p: string) requires p == "openai" || p == "anthropic" || p == "azure_openai" ensures IsNormalKey(p) {}
  lemma KeysAreNormal1(p: string) requires p == "azure_ai" || p == "cohere" || p == "google_vertexai" ensures IsNormalKey(p) {}
  lemma KeysAreNormal2(p: string) requires p == "google_genai" || p == "fireworks" || p == "ollama" ensures IsNormalKey(p) {}
  lemma KeysAreNormal3(p: string) requires p == "together" || p == "mistralai" || p == "huggingface" ensures IsNormalKey(p) {}
  lemma KeysAreNormal4(p: string) requires p == "groq" || p == "bedrock" || p == "bedrock_converse" ensures IsNormalKey(p) {}
  lemma KeysAreNormal5(p: string) requires p == "google_anthropic_vertex" || p == "deepseek" || p == "ibm" ensures IsNormalKey(p) {}
  lemma KeysAreNormal6(p: string) requires p == "xai" || p == "perplexity" || p == "nvidia" ensures IsNormalKey(p) {}

  /** The condition under which `_parse_model` splits a "provider:model" spec. */
  predicate SplitsSpec(model: string, modelProvider: Option<string>) {
    (modelProvider.None? || modelProvider.value == "")
    && ':' in model
    && SplitAtFirstColon(model).0 in SupportedProviders
  }

  /** `_parse_model`: the (model, provider) pair, or the error when no provider can
      be found. An explicit empty provider counts as absent. */
  function ParseModel(model: string, modelProvider: Option<string>): (r: Result<(string, string), Error>)
    ensures r.Ok? ==> IsNormalKey(r.value.1) && r.value.1 != ""
  {
    var (m, p) :=
      if SplitsSpec(model, modelProvider)
      then (SplitAtFirstColon(model).1, Some(SplitAtFirstColon(model).0))
      else (model, modelProvider);
    var p' := if p.Some? && p.value != "" then p else InferProvider(m);
    if p'.None? || p'.value == "" then Err(CannotInferProvider(m))
    else Ok((m, NormaliseProvider(p'.value)))
  }

  /** A "provider:model" spec with a supported head and no explicit provider is split
      at its first colon; later colons stay in the model name. */
  lemma ParseModelSplits(model: string, modelProvider: Option<string>, head: string, tail: string)
    requires modelProvider.None? || modelProvider.value == ""
    requires head in SupportedProviders && ':' !in head
    requires model == head + ":" + tail
    ensures ParseModel(model, modelProvider) == Ok((tail, head))
  {
    SplitJoined(head, tail);
    SupportedKeysAreNormal(head);
  }

  /** Splitting a spec built as head + ":" + tail, with no colon in head, gives back
      head and tail. */
  lemma {:induction false} SplitJoined(head: string, tail: string)
    requires ':' !in head
    ensures ':' in head + ":" + tail
    ensures SplitAtFirstColon(head + ":" + tail) == (head, tail)
  {
    var s := head + ":" + tail;
    assert s[|head|] == ':';
    if head == [] {
      assert s == ":" + tail;
    } else {
      assert head[0] in head;
      assert s[0] == head[0];
      assert s[1..] == head[1..] + ":" + tail;
      assert ':' !in head[1..] by {
        forall i | 0 <= i < |head[1..]| ensures head[1..][i] != ':' { assert head[1..][i] == head[i + 1]; }
      }
      SplitJoined(head[1..], tail);
      assert [head[0]] + head[1..] == head;
    }
  }

  /** An explicit, non-empty provider wins: the model name is kept verbatim and
      the provider is the normalised explicit one. */
  lemma ParseModelExplicit(model: string, provider: string)
    requires provider != ""
    ensures ParseModel(model, Some(provider)) == Ok((model, NormaliseProvider(provider)))
  {
  }

  /** Without an explicit provider and without a split, the provider is inferred from
      the whole name, and parsing fails exactly when inference finds nothing. */
  lemma ParseModelInfers(model: string, modelProvider: Option<string>)
    requires modelProvider.None? || modelProvider.value == ""
    requires !SplitsSpec(model, modelProvider)
    ensures ParseModel(model, modelProvider).Err? <==> InferProvider(model).None?
    ensures InferProvider(model).None? ==> ParseModel(model, modelProvider) == Err(CannotInferProvider(model))
    ensures InferProvider(model).Some? ==> ParseModel(model, modelProvider) == Ok((model, InferProvider(model).value))
  {
    if InferProvider(model).Some? {
      InferredProviderIsSupported(model);
      SupportedKeysAreNormal(InferProvider(model).value);
    }
  }

  /** `_parse_model` raises exactly when there is no explicit provider, no split and
      no inferable provider. */
  lemma ParseModelFailsIff(model: string, modelProvider: Option<string>)
    ensures ParseModel(model, modelProvider).Err?
        <==> (modelProvider.None? || modelProvider.value == "")
             && !SplitsSpec(model, modelProvider)
             && InferProvider(model).None?
  {
  }

  /** The constructor ladder of `_init_chat_model_helper`, with each provider's
      class replaced by the fake client record. */
  function Construct(provider: string, model: string, kwargs: Params): (r: Result<Client, Error>)
    ensures r.Ok? <==> provider in ConstructibleProviders
    ensures r.Ok? ==> r.value.provider == provider && r.value.model == model
                      && r.value.params == kwargs && r.value.appliedOps == []
    ensures r.Err? ==> r.error == UnsupportedProvider(provider, SupportedProviders)
  {
    if provider in ConstructibleProviders then Ok(Client(provider, model, kwargs, []))
    else Err(UnsupportedProvider(provider, SupportedProviders))
  }

  /** The "model_provider" argument, when it is a string. */
  function ExplicitProvider(params: Params): Option<string> {
    if "model_provider" in params && params["model_provider"].Str? then Some(params["model_provider"].s) else None
  }

  /** The "model_provider" argument is absent, None or a string. */
  predicate ProviderWellTyped(params: Params) {
    "model_provider" !in params || params["model_provider"].Null? || params["model_provider"].Str?
  }

  /** `_init_chat_model_helper(**params)`: "model" is a required argument,
      "model_provider" an optional one, and every other entry is passed on to the
      provider constructor. */
  function InitChatModelHelper(params: Params): (r: Result<Client, Error>)
    ensures "model" !in params ==> r == Err(MissingArgument("model"))
    ensures "model" in params && "model_provider" in params
            && Truthy(params["model_provider"]) && !params["model_provider"].Str?
            ==> r == Err(InvalidArgument("model_provider"))
    ensures "model" in params && !params["model"].Str? && ProviderWellTyped(params)
            ==> r == Err(InvalidArgument("model"))
    ensures "model" in params && params["model"].Str? && ProviderWellTyped(params) ==>
              var parsed := ParseModel(params["model"].s, ExplicitProvider(params));
              && (r.Ok? <==> parsed.Ok? && parsed.value.1 in ConstructibleProviders)
              && (parsed.Err? ==> r == Err(parsed.error))
              && (parsed.Ok? && r.Err? ==> r.error == UnsupportedProvider(parsed.value.1, SupportedProviders))
    ensures r.Ok? ==> && "model" in params && params["model"].Str?
                      && ParseModel(params["model"].s, ExplicitProvider(params))
                         == Ok((r.value.model, r.value.provider))
                      && r.value.params == params - {"model", "model_provider"}
                      && r.value.appliedOps == []
                      && r.value.provider in ConstructibleProviders
                      && IsNormalKey(r.value.provider)
  {
    if "model" !in params then Err(MissingArgument("model"))
    else
      var mv := params["model"];
      var pv := if "model_provider" in params then params["model_provider"] else Null;
      if Truthy(pv) && !pv.Str? then Err(InvalidArgument("model_provider"))
      else if !mv.Str? then Err(InvalidArgument("model"))
      else
        match ParseModel(mv.s, ExplicitProvider(params))
        case Err(e) => Err(e)
        case Ok((m, p)) => Construct(p, m, params - {"model", "model_provider"})
  }

  /** No inference rule applies to a name beginning with 'n'. */
  lemma NoRuleStartsWithN(name: string)
    requires |name| > 0 && name[0] == 'n'
    ensures InferProvider(name) == None
  {
  }

  /** "nvidia" has a constructor branch but is not a supported key, so a
      "nvidia:<model>" spec is not split and no provider can be inferred for it,
      while the same model with the explicit provider "nvidia" is built. */
  lemma NvidiaOnlyExplicit(tail: string)
    ensures ParseModel("nvidia:" + tail, None) == Err(CannotInferProvider("nvidia:" + tail))
    ensures ParseModel(tail, Some("nvidia")) == Ok((tail, "nvidia"))
    ensures Construct("nvidia", tail, map[]).Ok?
  {
    var spec := "nvidia:" + tail;
    assert spec == "nvidia" + ":" + tail;
    SplitJoined("nvidia", tail);
    assert "nvidia" !in SupportedProviders;
    assert !SplitsSpec(spec, None);
    NoRuleStartsWithN(spec);
    SupportedKeysAreNormal("nvidia");
  }
}
