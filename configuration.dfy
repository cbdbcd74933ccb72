/** Configuration read from the process environment, and the lazily created
    process-wide configuration instance. */
module Configuration {
  import opened Json
  import opened Text

  /** The process environment, after the `.env` file has been loaded into it. */
  type Env = map<string, string>

  const UrlVariable := "PAPERLESS_API_URL"
  const TokenVariable := "PAPERLESS_API_TOKEN"
  const DefaultUrl := "http://localhost:8000"
  const MissingTokenMessage :=
    TokenVariable + " environment variable is required. Set it to your Paperless-NGX API token."

  datatype Config = Config(apiUrl: string, apiToken: string)

  /** `Config()`: the base URL with its default, and a token that must be present and non-empty. */
  function LoadConfig(env: Env): (r: Result<Config>)
    ensures r.Success? <==> TokenVariable in env && env[TokenVariable] != ""
    ensures r.Success? ==> r.value.apiToken == env[TokenVariable] && r.value.apiToken != ""
    ensures r.Success? && UrlVariable !in env ==> r.value.apiUrl == DefaultUrl
    ensures r.Success? && UrlVariable in env ==> r.value.apiUrl == env[UrlVariable]
    ensures r.Failure? ==> IsInfix(TokenVariable, r.error)
  {
    var url := if UrlVariable in env then env[UrlVariable] else DefaultUrl;
    if TokenVariable in env && env[TokenVariable] != "" then
      Success(Config(url, env[TokenVariable]))
    else
      var tail := MissingTokenMessage[|TokenVariable|..];
      assert MissingTokenMessage == "" + TokenVariable + tail;
      InfixOfConcat("", TokenVariable, tail);
      Failure(MissingTokenMessage)
  }

  /** The `Authorization` header every request carries. */
  function AuthHeader(c: Config): (h: map<string, string>)
    ensures h.Keys == {"Authorization"}
    ensures |h["Authorization"]| == |"Token "| + |c.apiToken|
    ensures h["Authorization"][..6] == "Token " && h["Authorization"][6..] == c.apiToken
  {
    map["Authorization" := "Token " + c.apiToken]
  }

  /** What `get_config()` returns given the current global: the stored instance when
      there is one (the environment is then not consulted), a fresh load otherwise. */
  function ConfigFor(cached: Option<Config>, env: Env): (r: Result<Config>)
    ensures cached.Some? ==> r == Success(cached.value)
    ensures cached.None? ==> r == LoadConfig(env)
  {
    match cached
    case Some(c) => Success(c)
    case None => LoadConfig(env)
  }

  /** The global `config` after `get_config()`: set by the first successful load, kept afterwards. */
  function CachedAfter(cached: Option<Config>, env: Env): (next: Option<Config>)
    ensures cached.Some? ==> next == cached
    ensures cached.None? && LoadConfig(env).Failure? ==> next == None
    ensures next.Some? ==> ConfigFor(cached, env) == Success(next.value)
  {
    match ConfigFor(cached, env)
    case Success(c) => Some(c)
    case Failure(_) => None
  }

  /** Once a load has succeeded, every later call returns the same configuration,
      whatever the environment then says, and leaves the global as it is. */
  lemma {:induction false} ConfigLoadedOnce(env1: Env, env2: Env)
    requires LoadConfig(env1).Success?
    ensures var first := CachedAfter(None, env1);
      first == Some(LoadConfig(env1).value) &&
      ConfigFor(first, env2) == LoadConfig(env1) &&
      CachedAfter(first, env2) == first
  {
  }

  /** The module-level `config` global of the configuration module. */
  class ConfigHolder {
    var config: Option<Config>

    /** The global starts out as `None`. */
    constructor ()
      ensures config == None
    {
      config := None;
    }

    /** `get_config()`. */
    method GetConfig(env: Env) returns (r: Result<Config>)
      modifies this
      ensures r == ConfigFor(old(config), env)
      ensures config == CachedAfter(old(config), env)
      ensures old(config).Some? ==> config == old(config) && r == Success(old(config).value)
      ensures old(config).None? && r.Failure? ==> config == None
    {
      if config == None {
        var loaded := LoadConfig(env);
        if loaded.Failure? {
          return loaded;
        }
        config := Some(loaded.value);
      }
      r := Success(config.value);
    }
  }
}
