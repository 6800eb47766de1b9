/** config.py: the effective Supabase configuration of one call.

    A configuration is either dynamic (a tenant's project code and access
    token, both present) or the process defaults read from the environment.
    The environment is a parameter here: `os.getenv` is not modelled. */
module Settings {
  import opened Common

  /** The environment variables `Config.__init__` reads (`None` = unset). */
  datatype Env = Env(
    url: Option<string>,            // DEFAULT_SUPABASE_URL
    anonKey: Option<string>,        // DEFAULT_SUPABASE_ANON_KEY
    serviceKey: Option<string>,     // DEFAULT_SUPABASE_SERVICE_KEY
    debug: Option<string>,          // DEBUG
    logLevel: Option<string>,       // LOG_LEVEL
    requestTimeout: Option<int>)    // REQUEST_TIMEOUT, already parsed

  /** The dictionary `get_supabase_config` returns. */
  datatype SupabaseSettings = SupabaseSettings(url: Option<string>, key: Option<string>, serviceKey: Option<string>)

  const UrlScheme: string := "https://"
  const UrlSuffix: string := ".supabase.co"
  const NoConfigurationMessage: string := "Nenhuma configuração do Supabase fornecida"

  /** The project URL templated from a project code. */
  function TenantUrl(project: string): string {
    UrlScheme + project + UrlSuffix
  }

  /** The inverse of TenantUrl: the project code a tenant URL names. */
  function ProjectOfUrl(url: string): Option<string> {
    if |url| >= |UrlScheme| + |UrlSuffix|
       && url[..|UrlScheme|] == UrlScheme
       && url[|url| - |UrlSuffix|..] == UrlSuffix
    then Some(url[|UrlScheme|..|url| - |UrlSuffix|])
    else None
  }

  lemma {:induction false} TenantUrlRoundTrip(project: string)
    ensures ProjectOfUrl(TenantUrl(project)) == Some(project)
  {
    var url := TenantUrl(project);
    assert url[..|UrlScheme|] == UrlScheme;
    assert url[|url| - |UrlSuffix|..] == UrlSuffix;
    assert url[|UrlScheme|..|url| - |UrlSuffix|] == project;
  }

  /** Two tenants never share a URL. */
  lemma {:induction false} TenantUrlInjective(p: string, q: string)
    requires TenantUrl(p) == TenantUrl(q)
    ensures p == q
  {
    TenantUrlRoundTrip(p);
    TenantUrlRoundTrip(q);
  }

  /** The process defaults, unchanged. */
  function Defaults(env: Env): SupabaseSettings {
    SupabaseSettings(env.url, env.anonKey, env.serviceKey)
  }

  /** Dynamic mode: both the project code and the token are truthy. */
  predicate Dynamic(projectCode: Option<string>, accessToken: Option<string>) {
    Truthy(projectCode) && Truthy(accessToken)
  }

  /** get_supabase_config over the fields of a configuration. */
  function Resolve(projectCode: Option<string>, accessToken: Option<string>, env: Env): (s: SupabaseSettings)
    ensures Dynamic(projectCode, accessToken) ==>
      s.url.Some? && ProjectOfUrl(s.url.value) == projectCode
      && s.key == accessToken && s.serviceKey == accessToken
    ensures !Dynamic(projectCode, accessToken) ==> s == Defaults(env)
  {
    if Dynamic(projectCode, accessToken) then
      TenantUrlRoundTrip(projectCode.value);
      SupabaseSettings(Some(TenantUrl(projectCode.value)), accessToken, accessToken)
    else
      Defaults(env)
  }

  /** With one of the two values missing, whichever it is, the defaults are
      used verbatim. */
  lemma PartialCredentialsAreStatic(projectCode: Option<string>, accessToken: Option<string>, env: Env)
    requires !Truthy(projectCode) || !Truthy(accessToken)
    ensures Resolve(projectCode, accessToken, env) == Defaults(env)
    ensures Resolve(projectCode, None, env) == Resolve(None, accessToken, env)
  {
  }

  /** `Config.__init__` does not raise: a project code or a default URL. */
  predicate Admissible(projectCode: Option<string>, env: Env) {
    Truthy(projectCode) || Truthy(env.url)
  }

  /** A project code alone is enough to construct; the token plays no part,
      and without a project code only the default URL decides. */
  lemma AdmissibleIgnoresToken(projectCode: Option<string>, env: Env)
    ensures Truthy(projectCode) ==> Admissible(projectCode, env)
    ensures !Truthy(projectCode) ==> (Admissible(projectCode, env) <==> Truthy(env.url))
  {
  }

  function LowerChar(c: char): (d: char)
    ensures 'A' <= c <= 'Z' ==> d as int == c as int + 32
    ensures !('A' <= c <= 'Z') ==> d == c
  {
    if 'A' <= c <= 'Z' then (c as int + 32) as char else c
  }

  /** `str.lower()` restricted to ASCII letters. */
  function Lower(s: string): (r: string)
    ensures |r| == |s|
    ensures forall i :: 0 <= i < |s| ==> r[i] == LowerChar(s[i])
  {
    seq(|s|, i requires 0 <= i < |s| => LowerChar(s[i]))
  }

  /** `os.getenv("DEBUG", "false").lower() == "true"`. */
  predicate DebugFlag(value: Option<string>) {
    Lower(value.GetOr("false")) == "true"
  }

  /** The debug flag is set exactly by the four letters of "true" in any case. */
  lemma {:induction false} DebugFlagSpelling(s: string)
    ensures DebugFlag(Some(s)) <==>
      |s| == 4 && s[0] in "tT" && s[1] in "rR" && s[2] in "uU" && s[3] in "eE"
  {
    var l := Lower(s);
    if |s| == 4 && s[0] in "tT" && s[1] in "rR" && s[2] in "uU" && s[3] in "eE" {
      assert l == "true";
    }
    if l == "true" {
      assert l[0] == 't' && l[1] == 'r' && l[2] == 'u' && l[3] == 'e';
    }
  }

  /** One `Config` object. `project_code` and `access_token` are reassigned in
      place by `SupabaseClient.update_config`; everything else is fixed when
      the object is built. */
  class Config {
    const env: Env
    /** `DEBUG`, `LOG_LEVEL` and `REQUEST_TIMEOUT` with their defaults. */
    const debug: bool := DebugFlag(env.debug)
    const logLevel: string := env.logLevel.GetOr("INFO")
    const requestTimeout: int := env.requestTimeout.GetOr(30)
    var projectCode: Option<string>
    var accessToken: Option<string>

    /** `Config(project_code, access_token)` when it does not raise. */
    constructor(projectCode: Option<string>, accessToken: Option<string>, env: Env)
      requires Admissible(projectCode, env)
      ensures this.projectCode == projectCode && this.accessToken == accessToken && this.env == env
      ensures debug == DebugFlag(env.debug)
      ensures logLevel == env.logLevel.GetOr("INFO")
      ensures requestTimeout == env.requestTimeout.GetOr(30)
    {
      this.env := env;
      this.projectCode := projectCode;
      this.accessToken := accessToken;
    }

    /** `Config(project_code, access_token)`, raising `ValueError` exactly
        when there is neither a project code nor a default URL. */
    static method Create(projectCode: Option<string>, accessToken: Option<string>, env: Env)
      returns (r: Result<Config>)
      ensures r.Err? <==> !Truthy(projectCode) && !Truthy(env.url)
      ensures r.Err? ==> r.message == NoConfigurationMessage
      ensures r.Ok? ==> (fresh(r.value) && r.value.env == env
        && r.value.projectCode == projectCode && r.value.accessToken == accessToken)
    {
      if !Admissible(projectCode, env) {
        return Err(NoConfigurationMessage);
      }
      var c := new Config(projectCode, accessToken, env);
      r := Ok(c);
    }

    function SupabaseConfig(): SupabaseSettings
      reads this
    {
      Resolve(projectCode, accessToken, env)
    }

    function SupabaseUrl(): (u: Option<string>)
      reads this
      ensures Dynamic(projectCode, accessToken) ==> u == Some(TenantUrl(projectCode.value))
      ensures !Dynamic(projectCode, accessToken) ==> u == env.url
    {
      SupabaseConfig().url
    }

    function SupabaseKey(): (k: Option<string>)
      reads this
      ensures Dynamic(projectCode, accessToken) ==> k == accessToken
      ensures !Dynamic(projectCode, accessToken) ==> k == env.anonKey
    {
      SupabaseConfig().key
    }

    function SupabaseServiceKey(): (k: Option<string>)
      reads this
      ensures Dynamic(projectCode, accessToken) ==> k == accessToken
      ensures !Dynamic(projectCode, accessToken) ==> k == env.serviceKey
    {
      SupabaseConfig().serviceKey
    }

    /** is_dynamic_config agrees with the branch get_supabase_config takes. */
    predicate IsDynamicConfig()
      reads this
      ensures IsDynamicConfig() ==> (projectCode.Some?
        && SupabaseConfig().url == Some(TenantUrl(projectCode.value))
        && SupabaseConfig().key == accessToken && SupabaseConfig().serviceKey == accessToken)
      ensures !IsDynamicConfig() ==> SupabaseConfig() == Defaults(env)
    {
      Truthy(projectCode) && Truthy(accessToken)
    }

    /** Production unless DEBUG spells "true"; an unset DEBUG means production. */
    predicate IsProduction()
      reads this
      ensures IsProduction() <==> !DebugFlag(env.debug)
      ensures env.debug.None? ==> IsProduction()
    {
      // An unset DEBUG reads as "false", whose first letter is not 't'.
      assert Lower("false")[0] == 'f';
      !debug
    }
  }
}
