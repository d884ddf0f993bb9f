/**
 * Channels: named upstream providers loaded from `CHANNEL_<name>_BASE_URL` /
 * `CHANNEL_<name>_API_KEY` variables, the `model:channel` syntax that selects one, and the
 * upstream URL and key a request is sent with.
 */
module Providers {
  import opened Wrappers
  import opened Text

  datatype Provider = Provider(name: string, baseUrl: string, apiKey: string)

  /** The process environment, in iteration order; the names are distinct, as in `os.environ`. */
  type Env = seq<(string, string)>

  predicate DistinctNames(env: Env)
  {
    forall i, j :: 0 <= i < j < |env| ==> env[i].0 != env[j].0
  }

  /** `os.environ.get(name)`. */
  function EnvGet(env: Env, name: string): (r: Option<string>)
    ensures r.Some? ==> exists i :: 0 <= i < |env| && env[i] == (name, r.value)
    ensures r.None? ==> forall i :: 0 <= i < |env| ==> env[i].0 != name
  {
    if env == [] then None
    else if env[0].0 == name then Some(env[0].1)
    else EnvGet(env[1..], name)
  }

  /** `os.environ.get(name, default)`. */
  function EnvGetOr(env: Env, name: string, default: string): string
  {
    match EnvGet(env, name)
    case Some(v) => v
    case None => default
  }

  const DefaultBaseUrl: string := "https://api.openai.com/v1"

  /** The `default` provider: `BASE_URL` and `API_KEY`, or their defaults. */
  function DefaultProvider(env: Env): Provider
  {
    Provider("default", EnvGetOr(env, "BASE_URL", DefaultBaseUrl), EnvGetOr(env, "API_KEY", ""))
  }

  predicate IsChannelVar(name: string)
  {
    StartsWith(name, "CHANNEL_") && EndsWith(name, "_BASE_URL")
  }

  /** `env_key[8:-9].lower()`: empty when the two affixes overlap or touch. */
  function ChannelName(name: string): (r: string)
    requires IsChannelVar(name)
    ensures |name| > 17 ==> r == Lower(name[8..|name| - 9])
    ensures |name| <= 17 ==> r == ""
  {
    if |name| >= 17 then Lower(name[8..|name| - 9]) else ""
  }

  /** One environment entry: a channel entry with a non-empty URL (re)defines that channel. */
  function AddChannel(env: Env, m: map<string, Provider>, entry: (string, string)): (r: map<string, Provider>)
    ensures forall k :: k in m ==> k in r
    ensures IsChannelVar(entry.0) && entry.1 != "" ==>
      var n := ChannelName(entry.0);
      r == m[n := Provider(n, entry.1, EnvGetOr(env, "CHANNEL_" + Upper(n) + "_API_KEY", EnvGetOr(env, "API_KEY", "")))]
    ensures !(IsChannelVar(entry.0) && entry.1 != "") ==> r == m
  {
    if IsChannelVar(entry.0) && entry.1 != "" then
      var n := ChannelName(entry.0);
      m[n := Provider(n, entry.1, EnvGetOr(env, "CHANNEL_" + Upper(n) + "_API_KEY", EnvGetOr(env, "API_KEY", "")))]
    else m
  }

  /** The channels of `entries`, added in order to `m`: later entries override earlier ones. */
  function AddChannels(env: Env, entries: seq<(string, string)>, m: map<string, Provider>): map<string, Provider>
    decreases |entries|
  {
    if entries == [] then m
    else AddChannel(env, AddChannels(env, entries[..|entries| - 1], m), entries[|entries| - 1])
  }

  /** Every provider is stored under its own name. */
  predicate NamedByKey(m: map<string, Provider>)
  {
    forall k :: k in m ==> m[k].name == k
  }

  lemma {:induction false} AddChannelsKeeps(env: Env, entries: seq<(string, string)>, m: map<string, Provider>)
    ensures forall k :: k in m ==> k in AddChannels(env, entries, m)
    ensures NamedByKey(m) ==> NamedByKey(AddChannels(env, entries, m))
    decreases |entries|
  {
    if entries != [] {
      AddChannelsKeeps(env, entries[..|entries| - 1], m);
    }
  }

  /** A loadable channel entry is present after loading, whatever comes after it. */
  lemma {:induction false} AddChannelsContains(env: Env, entries: seq<(string, string)>, m: map<string, Provider>, i: nat)
    requires i < |entries| && IsChannelVar(entries[i].0) && entries[i].1 != ""
    ensures ChannelName(entries[i].0) in AddChannels(env, entries, m)
    decreases |entries|
  {
    if i < |entries| - 1 {
      AddChannelsContains(env, entries[..|entries| - 1], m, i);
    }
  }

  /** The last loadable entry for a channel name decides that channel's provider. */
  lemma {:induction false} AddChannelsLast(env: Env, entries: seq<(string, string)>, m: map<string, Provider>, i: nat)
    requires i < |entries| && IsChannelVar(entries[i].0) && entries[i].1 != ""
    requires forall j :: i < j < |entries| && IsChannelVar(entries[j].0) && entries[j].1 != "" ==>
      ChannelName(entries[j].0) != ChannelName(entries[i].0)
    ensures var n := ChannelName(entries[i].0);
      n in AddChannels(env, entries, m) && AddChannels(env, entries, m)[n] == Provider(n, entries[i].1,
        EnvGetOr(env, "CHANNEL_" + Upper(n) + "_API_KEY", EnvGetOr(env, "API_KEY", "")))
    decreases |entries|
  {
    var prefix := entries[..|entries| - 1];
    if i < |entries| - 1 {
      forall j | i < j < |prefix| && IsChannelVar(prefix[j].0) && prefix[j].1 != ""
        ensures ChannelName(prefix[j].0) != ChannelName(prefix[i].0)
      {
        assert prefix[j] == entries[j];
      }
      AddChannelsLast(env, prefix, m, i);
      AddChannelsContains(env, prefix, m, i);
    }
  }

  /** The providers the configuration holds after loading from `env` over `m`. */
  function Loaded(env: Env, m: map<string, Provider>): map<string, Provider>
  {
    AddChannels(env, env, m["default" := DefaultProvider(env)])
  }

  /** `ProviderConfig`: the providers by channel name. */
  class ProviderConfig {
    var providers: map<string, Provider>

    /** A `default` provider exists and every provider is stored under its own name. */
    predicate Valid()
      reads this
    {
      "default" in providers && NamedByKey(providers)
    }

    constructor (env: Env)
      requires DistinctNames(env)
      ensures providers == Loaded(env, map[])
      ensures Valid()
    {
      providers := map[];
      new;
      LoadConfig(env);
    }

    /** `_load_config`: the `default` provider, then every channel of the environment in order. */
    method LoadConfig(env: Env)
      requires DistinctNames(env)
      modifies this
      ensures providers == Loaded(env, old(providers))
      ensures NamedByKey(old(providers)) ==> Valid()
    {
      var start := providers["default" := DefaultProvider(env)];
      var apiKey := EnvGetOr(env, "API_KEY", "");
      providers := start;
      var i := 0;
      while i < |env|
        invariant 0 <= i <= |env|
        invariant providers == AddChannels(env, env[..i], start)
      {
        var name := env[i].0;
        var value := env[i].1;
        if IsChannelVar(name) {
          var channel := ChannelName(name);
          var key := EnvGetOr(env, "CHANNEL_" + Upper(channel) + "_API_KEY", apiKey);
          if value != "" {
            providers := providers[channel := Provider(channel, value, key)];
          }
        }
        assert env[..i + 1][..i] == env[..i];
        i := i + 1;
      }
      assert env[..i] == env;
      AddChannelsKeeps(env, env, start);
    }

    /**
     * `parse_model_and_channel`: `model:channel` selects the channel (case-insensitively),
     * falling back to `default` when it is unknown; a name without `:` uses `default`.
     */
    function ParseModelAndChannel(modelName: string): (r: (string, Provider))
      requires Valid()
      reads this
      ensures ':' !in r.0
      ensures ':' !in modelName ==> r == (modelName, providers["default"])
      ensures ':' in modelName ==>
        exists rest ::
          && modelName == r.0 + [':'] + rest
          && r.1 == (if Lower(rest) in providers then providers[Lower(rest)] else providers["default"])
    {
      var i := FindChar(modelName, ':');
      if i == |modelName| then
        (modelName, providers["default"])
      else
        var channel := Lower(modelName[i + 1..]);
        assert modelName == modelName[..i] + [':'] + modelName[i + 1..];
        (modelName[..i], if channel in providers then providers[channel] else providers["default"])
    }
  }

  /** The loaded configuration holds a `default` provider and a provider for every loadable channel. */
  lemma LoadedValid(env: Env, i: nat)
    requires i < |env| && IsChannelVar(env[i].0) && env[i].1 != ""
    ensures "default" in Loaded(env, map[]) && NamedByKey(Loaded(env, map[]))
    ensures ChannelName(env[i].0) in Loaded(env, map[])
  {
    AddChannelsKeeps(env, env, map["default" := DefaultProvider(env)]);
    AddChannelsContains(env, env, map["default" := DefaultProvider(env)], i);
  }

  /** The Gemini generate-content URL under a base URL. */
  function GeminiModelUrl(base: string, cleanModel: string): (r: string)
    ensures StartsWith(r, base) && EndsWith(r, "/models/" + cleanModel)
    ensures Contains(base, "/v1") ==> r == base + "/models/" + cleanModel
    ensures !Contains(base, "/v1") ==> r == base + "/v1beta/models/" + cleanModel
  {
    var tail := if Contains(base, "/v1") then "/models/" + cleanModel else "/v1beta/models/" + cleanModel;
    assert (base + tail)[..|base|] == base;
    assert "/v1beta/models/" + cleanModel == "/v1beta" + ("/models/" + cleanModel);
    assert (base + tail)[|base + tail| - |"/models/" + cleanModel|..] == "/models/" + cleanModel;
    base + tail
  }

  /** Where a request goes and with which key. */
  datatype Endpoint = Endpoint(model: string, apiBase: string, apiKey: string)

  /**
   * The upstream of a request whose model part (after `parse_model_and_channel`) is `model`
   * and whose channel is `provider`. A non-default channel gives its own key and URL, with
   * the Gemini path added for `gemini/` models. The default channel takes `BASE_URL`, then
   * `API_BASE`, with the Gemini path added for any model starting with `gemini`, and the key
   * `API_KEY` (or `<KEY>`) whatever the model's provider.
   */
  function Route(env: Env, model: string, provider: Provider): (e: Endpoint)
    ensures e.model == model
    ensures provider.name != "default" ==> e.apiKey == provider.apiKey && StartsWith(e.apiBase, provider.baseUrl)
    ensures provider.name != "default" && !StartsWith(model, "gemini/") ==> e.apiBase == provider.baseUrl
    ensures provider.name == "default" ==> e.apiKey == EnvGetOr(env, "API_KEY", "<KEY>")
    ensures provider.name == "default" ==>
      StartsWith(e.apiBase, EnvGetOr(env, "BASE_URL", EnvGetOr(env, "API_BASE", DefaultBaseUrl)))
    ensures StartsWith(model, "gemini/") ==> EndsWith(e.apiBase, "/models/" + AfterLast(model, '/'))
    ensures provider.name != "default" && StartsWith(model, "gemini/") ==>
      e.apiBase == GeminiModelUrl(provider.baseUrl, AfterLast(model, '/'))
    ensures provider.name == "default" ==>
      var base := EnvGetOr(env, "BASE_URL", EnvGetOr(env, "API_BASE", DefaultBaseUrl));
      e.apiBase == if StartsWith(model, "gemini") then GeminiModelUrl(base, AfterLast(model, '/')) else base
  {
    var cleanModel := AfterLast(model, '/');
    if provider.name != "default" then
      var url := if StartsWith(model, "gemini/") then GeminiModelUrl(provider.baseUrl, cleanModel) else provider.baseUrl;
      Endpoint(model, url, provider.apiKey)
    else
      var base := EnvGetOr(env, "BASE_URL", EnvGetOr(env, "API_BASE", DefaultBaseUrl));
      var url := if StartsWith(model, "gemini") then GeminiModelUrl(base, cleanModel) else base;
      assert StartsWith(model, "gemini/") ==> StartsWith(model, "gemini") by {
        assert "gemini/"[..6] == "gemini";
        if StartsWith(model, "gemini/") {
          assert model[..6] == model[..7][..6];
        }
      }
      Endpoint(model, url, EnvGetOr(env, "API_KEY", "<KEY>"))
  }

  /**
   * The two prefix tests differ: `gemini-pro` gets the Gemini path on the default channel,
   * which tests `gemini`, but not on a named channel, which tests `gemini/`.
   */
  lemma GeminiPrefixByChannel(env: Env, named: Provider)
    requires named.name != "default"
    ensures var base := EnvGetOr(env, "BASE_URL", EnvGetOr(env, "API_BASE", DefaultBaseUrl));
      Route(env, "gemini-pro", Provider("default", "", "")).apiBase == GeminiModelUrl(base, "gemini-pro")
    ensures Route(env, "gemini-pro", named).apiBase == named.baseUrl
  {
    var m := "gemini-pro";
    assert StartsWith(m, "gemini") by { assert m[..6] == "gemini"; }
    assert !StartsWith(m, "gemini/") by { assert m[..7][6] == '-'; }
    assert AfterLast(m, '/') == m by {
      assert forall k :: 0 <= k < |m| ==> m[k] != '/';
      assert FindChar(m, '/') == |m|;
    }
  }
}
