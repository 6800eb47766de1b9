/** middleware.py: per-call switching between the default project and a
    tenant's project, driven by request headers.

    The middleware owns the active (configuration, client) pair. As the code
    is written, the client it builds first is bound to the default
    configuration object itself, and switching to a tenant writes the
    tenant's credentials into that client's configuration: the default
    configuration object is shared and overwritten (see `Valid`). */
module Middleware {
  import opened Common
  import opened Settings
  import opened Client

  /** `headers.get(name)`. */
  function Header(headers: Headers, name: string): Option<string> {
    if name in headers then Some(headers[name]) else None
  }

  const BearerPrefix: string := "Bearer "

  /** The project code a header set names: `x-supabase-project`, or
      `supabase-project` when the first is falsy. */
  function ProjectFromHeaders(headers: Headers): Option<string> {
    var project := Header(headers, "x-supabase-project");
    if !Truthy(project) then Header(headers, "supabase-project") else project
  }

  /** The token a header set carries: `x-supabase-token`, else
      `supabase-token`, else the suffix of an `authorization` value that
      starts with "Bearer ". */
  function TokenFromHeaders(headers: Headers): Option<string> {
    var token := Header(headers, "x-supabase-token");
    var token' := if !Truthy(token) then Header(headers, "supabase-token") else token;
    if !Truthy(token') then
      var auth := Header(headers, "authorization").GetOr("");
      if StartsWith(auth, BearerPrefix) then Some(auth[|BearerPrefix|..]) else token'
    else token'
  }

  /** The header set selects a tenant: both values resolve truthy. */
  predicate SwitchRequested(headers: Headers) {
    Truthy(ProjectFromHeaders(headers)) && Truthy(TokenFromHeaders(headers))
  }

  /** `x-supabase-project` wins; `supabase-project` is read only when it is falsy. */
  lemma ProjectPrecedence(headers: Headers)
    ensures Truthy(Header(headers, "x-supabase-project")) ==>
      ProjectFromHeaders(headers) == Header(headers, "x-supabase-project")
    ensures !Truthy(Header(headers, "x-supabase-project")) ==>
      ProjectFromHeaders(headers) == Header(headers, "supabase-project")
  {
  }

  /** `x-supabase-token`, then `supabase-token`, then a Bearer
      `authorization` header; nothing else yields a truthy token. */
  lemma TokenPrecedence(headers: Headers)
    ensures Truthy(Header(headers, "x-supabase-token")) ==>
      TokenFromHeaders(headers) == Header(headers, "x-supabase-token")
    ensures !Truthy(Header(headers, "x-supabase-token")) && Truthy(Header(headers, "supabase-token")) ==>
      TokenFromHeaders(headers) == Header(headers, "supabase-token")
    ensures !Truthy(Header(headers, "x-supabase-token")) && !Truthy(Header(headers, "supabase-token")) ==>
      (Truthy(TokenFromHeaders(headers)) <==>
        var auth := Header(headers, "authorization").GetOr("");
        StartsWith(auth, BearerPrefix) && |auth| > |BearerPrefix|)
  {
  }

  /** "Bearer " followed by a token yields exactly that token; an
      `authorization` value without the prefix yields no token. */
  lemma {:induction false} BearerStripping(headers: Headers, token: string)
    requires !Truthy(Header(headers, "x-supabase-token")) && !Truthy(Header(headers, "supabase-token"))
    ensures Header(headers, "authorization") == Some(BearerPrefix + token) ==>
      TokenFromHeaders(headers) == Some(token)
    ensures !StartsWith(Header(headers, "authorization").GetOr(""), BearerPrefix) ==>
      !Truthy(TokenFromHeaders(headers))
  {
    if Header(headers, "authorization") == Some(BearerPrefix + token) {
      assert (BearerPrefix + token)[..|BearerPrefix|] == BearerPrefix;
      assert (BearerPrefix + token)[|BearerPrefix|..] == token;
    }
  }

  lemma BearerExample()
    ensures TokenFromHeaders(map["authorization" := "Bearer abc123"]) == Some("abc123")
  {
    BearerStripping(map["authorization" := "Bearer abc123"], "abc123");
  }

  /** `DynamicConfigMiddleware`: the default configuration and the active
      (configuration, client) pair. */
  class DynamicConfigMiddleware {
    const defaultConfig: Config
    var currentConfig: Config
    var currentClient: SupabaseClient

    /** The active client always reads the default configuration object:
        the first client is built from it, `update_config` mutates it in
        place, and a revert builds the new client from it again. */
    ghost predicate Valid()
      reads this, currentClient
    {
      currentClient.config == defaultConfig
    }

    /** After a switch as written: the tenant's project code and token are
        in the current configuration and, through the shared object, in the
        default configuration too. */
    ghost predicate HoldsTenant(project: string, token: string)
      reads this, currentConfig, defaultConfig
    {
      currentConfig.projectCode == Some(project) && currentConfig.accessToken == Some(token)
      && defaultConfig.projectCode == Some(project) && defaultConfig.accessToken == Some(token)
    }

    /** The client after a revert to the default configuration, as written,
        given `built`, the outcome of connecting with the default settings as
        they stood when the revert ran: when the current configuration
        already was the default object nothing is rebuilt; otherwise a client
        with the built session replaces the old one if the SDK accepted, and
        the old client and session stay when it refused. */
    twostate predicate RevertedClient(built: Result<Session>)
      reads this, currentClient
    {
      (old(currentConfig) == defaultConfig ==>
         currentClient == old(currentClient) && currentClient.session == old(currentClient.session))
      && (old(currentConfig) != defaultConfig ==>
            (built.Ok? ==> fresh(currentClient) && currentClient.session == built.value)
            && (built.Err? ==> currentClient == old(currentClient) && currentClient.session == old(currentClient.session)))
    }

    constructor Bound(defaultConfig: Config, client: SupabaseClient)
      requires client.config == defaultConfig
      ensures this.defaultConfig == defaultConfig && currentConfig == defaultConfig && currentClient == client
      ensures Valid()
    {
      this.defaultConfig := defaultConfig;
      this.currentConfig := defaultConfig;
      this.currentClient := client;
    }

    /** `DynamicConfigMiddleware(default_config)`: both current fields start
        at the default, the client built from that very object. */
    static method Create(defaultConfig: Config, connect: Connector) returns (r: Result<DynamicConfigMiddleware>)
      ensures var c := Connect(defaultConfig.SupabaseConfig(), connect);
        (c.Err? ==> r == Err(c.message))
        && (c.Ok? ==>
              (r.Ok? && fresh(r.value) && fresh(r.value.currentClient)
               && r.value.defaultConfig == defaultConfig && r.value.currentConfig == defaultConfig
               && r.value.currentClient.session == c.value && r.value.Valid()))
    {
      var client := SupabaseClient.Open(defaultConfig, connect);
      if client.Err? {
        return Err(client.message);
      }
      var m := new DynamicConfigMiddleware.Bound(defaultConfig, client.value);
      r := Ok(m);
    }

    /** `update_config_from_headers`, as written. With a tenant, the current
        configuration becomes a fresh `Config`, while the same client object
        is kept and its configuration, which is `defaultConfig`, is
        overwritten with the tenant's credentials. Without one, the pair is
        reset to the default unless the current configuration already is that
        very object. Any exception is swallowed and yields false. */
    method UpdateConfigFromHeaders(headers: Headers, connect: Connector) returns (switched: bool)
      requires Valid()
      modifies this, currentClient, defaultConfig
      ensures Valid()
      ensures SwitchRequested(headers) ==>
        var project, token := ProjectFromHeaders(headers).value, TokenFromHeaders(headers).value;
        fresh(currentConfig) && currentConfig.env == defaultConfig.env
        && currentConfig.projectCode == Some(project) && currentConfig.accessToken == Some(token)
        && currentClient == old(currentClient)
        && defaultConfig.projectCode == Some(project) && defaultConfig.accessToken == Some(token)
        && (switched <==> connect(TenantUrl(project), token) == Pass)
        && (switched ==> currentClient.session == Session(TenantUrl(project), token))
        && (!switched ==> currentClient.session == old(currentClient.session))
      ensures !SwitchRequested(headers) ==> !switched && unchanged(defaultConfig) && currentConfig == defaultConfig
      ensures !SwitchRequested(headers) && old(currentConfig) == defaultConfig ==>
        currentClient == old(currentClient) && unchanged(currentClient)
      ensures !SwitchRequested(headers) && old(currentConfig) != defaultConfig ==>
        var c := Connect(defaultConfig.SupabaseConfig(), connect);
        (c.Ok? ==> fresh(currentClient) && currentClient.session == c.value)
        && (c.Err? ==> currentClient == old(currentClient) && unchanged(currentClient))
    {
      var project := ProjectFromHeaders(headers);
      var token := TokenFromHeaders(headers);
      if Truthy(project) && Truthy(token) {
        var tenant := new Config(project, token, defaultConfig.env);
        currentConfig := tenant;
        var o := currentClient.UpdateConfig(project.value, token.value, connect);
        TenantConnect(project.value, token.value, defaultConfig.env, connect);
        switched := o == Pass;
      } else {
        if currentConfig != defaultConfig {
          currentConfig := defaultConfig;
          var client := SupabaseClient.Open(defaultConfig, connect);
          if client.Ok? {
            currentClient := client.value;
          }
        }
        switched := false;
      }
    }

    /** The corrected switch: a tenant gets a new client bound to a new
        configuration, both installed together only when the client could be
        created; no `Config` object is ever written, so a revert restores the
        process defaults. */
    method UpdateConfigFromHeadersIsolated(headers: Headers, connect: Connector) returns (switched: bool)
      modifies this
      ensures unchanged(defaultConfig)
      ensures SwitchRequested(headers) ==>
        var project, token := ProjectFromHeaders(headers).value, TokenFromHeaders(headers).value;
        (switched <==> connect(TenantUrl(project), token) == Pass)
        && (switched ==>
              (fresh(currentConfig) && fresh(currentClient) && currentClient.config == currentConfig
               && currentConfig.projectCode == Some(project) && currentConfig.accessToken == Some(token)
               && currentClient.session == Session(TenantUrl(project), token)))
        && (!switched ==> currentConfig == old(currentConfig) && currentClient == old(currentClient))
      ensures !SwitchRequested(headers) ==> !switched
      ensures !SwitchRequested(headers) && old(currentConfig) == defaultConfig ==>
        currentConfig == old(currentConfig) && currentClient == old(currentClient)
      ensures !SwitchRequested(headers) && old(currentConfig) != defaultConfig ==>
        var c := Connect(defaultConfig.SupabaseConfig(), connect);
        (c.Ok? ==>
           (currentConfig == defaultConfig && fresh(currentClient)
            && currentClient.config == defaultConfig && currentClient.session == c.value))
        && (c.Err? ==> currentConfig == old(currentConfig) && currentClient == old(currentClient))
    {
      var project := ProjectFromHeaders(headers);
      var token := TokenFromHeaders(headers);
      switched := false;
      if Truthy(project) && Truthy(token) {
        var tenant := new Config(project, token, defaultConfig.env);
        TenantConnect(project.value, token.value, defaultConfig.env, connect);
        var client := SupabaseClient.Open(tenant, connect);
        if client.Ok? {
          currentConfig, currentClient := tenant, client.value;
          switched := true;
        }
      } else if currentConfig != defaultConfig {
        var client := SupabaseClient.Open(defaultConfig, connect);
        if client.Ok? {
          currentConfig, currentClient := defaultConfig, client.value;
        }
      }
    }

    /** `get_current_client`: the active client, nothing changed. */
    function GetCurrentClient(): (c: SupabaseClient)
      reads this
      ensures c == currentClient
    {
      currentClient
    }

    /** `get_current_config`: the active configuration, nothing changed. */
    function GetCurrentConfig(): (c: Config)
      reads this
      ensures c == currentConfig
    {
      currentConfig
    }
  }

  // -----------------------------------------------------------------------
  // The shared default configuration, on concrete values

  const ExampleEnv: Env := Env(Some("https://default.supabase.co"), Some("anon"), Some("service"), None, None, None)

  /** An SDK that accepts every URL and key. */
  function AcceptAll(url: string, key: string): Outcome {
    Pass
  }

  /** Example helper: a configuration holding acme's credentials resolves
      to acme's project, and a client built from it is bound to acme's URL
      and token. */
  lemma AcmeSettings(c: Config)
    requires c.projectCode == Some("acme") && c.accessToken == Some("tok")
    ensures c.SupabaseUrl() == Some("https://acme.supabase.co")
    ensures Connect(c.SupabaseConfig(), AcceptAll) == Ok(Session("https://acme.supabase.co", "tok"))
  {
    assert TenantUrl("acme") == "https://acme.supabase.co";
  }

  /** As written: switch to tenant "acme", then make a call without
      credentials. The middleware "reverts" to the default configuration
      object, but that object now holds acme's project code and token, so the
      reverted client still talks to acme's project with acme's token. */
  method RevertKeepsTenantAsWritten() returns (url: Option<string>, session: Session)
    ensures url == Some("https://acme.supabase.co")
    ensures session == Session("https://acme.supabase.co", "tok")
  {
    var defaults := new Config(None, None, ExampleEnv);
    var created := DynamicConfigMiddleware.Create(defaults, AcceptAll);
    var m := created.value;
    var tenant := map["x-supabase-project" := "acme", "x-supabase-token" := "tok"];
    assert ProjectFromHeaders(tenant) == Some("acme") && TokenFromHeaders(tenant) == Some("tok");
    var first := m.UpdateConfigFromHeaders(tenant, AcceptAll);
    var none: Headers := map[];
    assert ProjectFromHeaders(none) == None;
    assert m.HoldsTenant("acme", "tok") && m.currentConfig != defaults;
    var second := m.UpdateConfigFromHeaders(none, AcceptAll);
    assert m.currentConfig == defaults && defaults.projectCode == Some("acme") && defaults.accessToken == Some("tok");
    AcmeSettings(defaults);
    url := m.currentConfig.SupabaseUrl();
    session := m.currentClient.session;
  }

  /** Corrected: the same two calls leave the default project active again. */
  method RevertRestoresDefaultIsolated() returns (url: Option<string>, session: Session)
    ensures url == Some("https://default.supabase.co")
    ensures session == Session("https://default.supabase.co", "anon")
  {
    var defaults := new Config(None, None, ExampleEnv);
    var created := DynamicConfigMiddleware.Create(defaults, AcceptAll);
    var m := created.value;
    var tenant := map["x-supabase-project" := "acme", "x-supabase-token" := "tok"];
    assert ProjectFromHeaders(tenant) == Some("acme") && TokenFromHeaders(tenant) == Some("tok");
    var first := m.UpdateConfigFromHeadersIsolated(tenant, AcceptAll);
    var none: Headers := map[];
    assert ProjectFromHeaders(none) == None;
    var second := m.UpdateConfigFromHeadersIsolated(none, AcceptAll);
    url := m.currentConfig.SupabaseUrl();
    session := m.currentClient.session;
  }
}
