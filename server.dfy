/** main.py: the tool server. Listing concatenates the four tool sets;
    a call first lets the middleware read the `headers` argument, rebuilds
    the tool sets when it switched, routes by name prefix and turns every
    escaping exception into one text block. The authentication and storage
    tool sets are SDK pass-throughs and appear here as an opaque `Delegate`. */
module Server {
  import opened Common
  import opened Settings
  import opened Client
  import opened Middleware
  import opened Database
  import opened Realtime
  import opened Queries

  const AuthToolNames: seq<string> := [
    "auth_sign_up", "auth_sign_in", "auth_sign_out", "auth_get_user",
    "auth_reset_password", "auth_update_user"]

  const StorageToolNames: seq<string> := [
    "storage_upload", "storage_download", "storage_list_files", "storage_delete_file",
    "storage_get_url", "storage_list_buckets"]

  /** The dispatchers of the authentication and storage tool sets. */
  type Delegate = (string, Args) -> Result<seq<Content>>

  /** The tool set a name is routed to. */
  datatype Category = DatabaseCategory | AuthCategory | StorageCategory | RealtimeCategory | NoCategory

  /** A name with a non-empty prefix starts with the prefix's first letter. */
  lemma PrefixHead(name: string, prefix: string)
    ensures StartsWith(name, prefix) && |prefix| > 0 ==> name[0] == prefix[0]
  {
    if StartsWith(name, prefix) && |prefix| > 0 {
      assert name[..|prefix|][0] == prefix[0];
    }
  }

  /** `handle_call_tool`'s prefix chain. The four prefixes exclude one
      another, so each name has at most one category. */
  function Route(name: string): (c: Category)
    ensures c == DatabaseCategory <==> StartsWith(name, "database_")
    ensures c == AuthCategory <==> StartsWith(name, "auth_")
    ensures c == StorageCategory <==> StartsWith(name, "storage_")
    ensures c == RealtimeCategory <==> StartsWith(name, "realtime_")
  {
    PrefixHead(name, "database_");
    PrefixHead(name, "auth_");
    PrefixHead(name, "storage_");
    PrefixHead(name, "realtime_");
    if StartsWith(name, "database_") then DatabaseCategory
    else if StartsWith(name, "auth_") then AuthCategory
    else if StartsWith(name, "storage_") then StorageCategory
    else if StartsWith(name, "realtime_") then RealtimeCategory
    else NoCategory
  }

  /** `handle_list_tools`: database, then authentication, then storage,
      then realtime tools. */
  function ListTools(): (tools: seq<string>)
    ensures |tools| == 24
    ensures tools[..7] == DatabaseToolNames && tools[7..13] == AuthToolNames
    ensures tools[13..19] == StorageToolNames && tools[19..] == RealtimeToolNames
  {
    var tools := DatabaseToolNames + AuthToolNames + StorageToolNames + RealtimeToolNames;
    assert tools[..7] == DatabaseToolNames;
    assert tools[7..13] == AuthToolNames;
    assert tools[13..19] == StorageToolNames;
    assert tools[19..] == RealtimeToolNames;
    tools
  }

  /** The names of each tool set carry that set's prefix, so they are
      routed there. */
  lemma {:induction false} DatabaseNamesRoute()
    ensures forall i :: 0 <= i < |DatabaseToolNames| ==> Route(DatabaseToolNames[i]) == DatabaseCategory
  {
    forall i | 0 <= i < |DatabaseToolNames| ensures Route(DatabaseToolNames[i]) == DatabaseCategory {
      assert DatabaseToolNames[i][..9] == "database_";
    }
  }

  lemma {:induction false} AuthNamesRoute()
    ensures forall i :: 0 <= i < |AuthToolNames| ==> Route(AuthToolNames[i]) == AuthCategory
  {
    forall i | 0 <= i < |AuthToolNames| ensures Route(AuthToolNames[i]) == AuthCategory {
      assert AuthToolNames[i][..5] == "auth_";
    }
  }

  lemma {:induction false} StorageNamesRoute()
    ensures forall i :: 0 <= i < |StorageToolNames| ==> Route(StorageToolNames[i]) == StorageCategory
  {
    forall i | 0 <= i < |StorageToolNames| ensures Route(StorageToolNames[i]) == StorageCategory {
      assert StorageToolNames[i][..8] == "storage_";
    }
  }

  lemma {:induction false} RealtimeNamesRoute()
    ensures forall i :: 0 <= i < |RealtimeToolNames| ==> Route(RealtimeToolNames[i]) == RealtimeCategory
  {
    forall i | 0 <= i < |RealtimeToolNames| ensures Route(RealtimeToolNames[i]) == RealtimeCategory {
      assert RealtimeToolNames[i][..9] == "realtime_";
    }
  }

  /** Every listed tool is routed to the tool set that lists it. */
  lemma {:induction false} ListedToolsRouteHome()
    ensures forall i :: 0 <= i < 7 ==> Route(ListTools()[i]) == DatabaseCategory
    ensures forall i :: 7 <= i < 13 ==> Route(ListTools()[i]) == AuthCategory
    ensures forall i :: 13 <= i < 19 ==> Route(ListTools()[i]) == StorageCategory
    ensures forall i :: 19 <= i < 24 ==> Route(ListTools()[i]) == RealtimeCategory
  {
    var tools := ListTools();
    DatabaseNamesRoute();
    AuthNamesRoute();
    StorageNamesRoute();
    RealtimeNamesRoute();
    forall i | 0 <= i < 7 ensures Route(tools[i]) == DatabaseCategory {
      assert tools[i] == DatabaseToolNames[i];
    }
    forall i | 7 <= i < 13 ensures Route(tools[i]) == AuthCategory {
      assert tools[i] == AuthToolNames[i - 7];
    }
    forall i | 13 <= i < 19 ensures Route(tools[i]) == StorageCategory {
      assert tools[i] == StorageToolNames[i - 13];
    }
    forall i | 19 <= i < 24 ensures Route(tools[i]) == RealtimeCategory {
      assert tools[i] == RealtimeToolNames[i - 19];
    }
  }

  /** The `except` clause: a reply passes through, an exception becomes
      "Erro: " and its message. */
  function Render(result: Result<seq<Content>>): (reply: seq<Content>)
    ensures result.Ok? ==> reply == result.value
    ensures result.Err? ==>
      (|reply| == 1 && reply[0].kind == "text" && StartsWith(reply[0].text, "Erro: ")
       && reply[0].text[|"Erro: "|..] == result.message)
  {
    match result
    case Ok(contents) => contents
    case Err(m) =>
      assert ("Erro: " + m)[..|"Erro: "|] == "Erro: ";
      Reply("Erro: " + m)
  }

  /** The middleware reports a switch: a tenant is named and the SDK
      accepts its URL and token. */
  predicate Switches(headers: Headers, connect: Connector) {
    SwitchRequested(headers)
    && connect(TenantUrl(ProjectFromHeaders(headers).value), TokenFromHeaders(headers).value) == Pass
  }

  /** A database call with inline credentials: the only call whose routing
      switches the middleware. */
  predicate InlineSwitch(name: string, args: Args) {
    Route(name) == DatabaseCategory && InlineCredentials(args)
  }

  /** `AuthTools(self.middleware)` against `AuthTools.__init__(self, config,
      supabase_client)`: one positional argument short. */
  const AuthToolsArity: string := "AuthTools.__init__() missing 1 required positional argument: 'supabase_client'"

  /** The server's state as `handle_call_tool` uses it. */
  class SupabaseMCPServer {
    const middleware: DynamicConfigMiddleware
    var database: DatabaseTools
    var realtime: RealtimeTools

    ghost predicate Valid()
      reads this, middleware, middleware.currentClient, realtime
    {
      middleware.Valid() && database.middleware == middleware && realtime.Valid()
    }

    /** The database tool set over the middleware, and a realtime tool set. */
    constructor(middleware: DynamicConfigMiddleware, realtime: RealtimeTools)
      requires middleware.Valid() && realtime.Valid()
      ensures this.middleware == middleware && this.realtime == realtime
      ensures fresh(database) && Valid()
    {
      this.middleware := middleware;
      this.database := new DatabaseTools(middleware);
      this.realtime := realtime;
    }

    /** The prefix routing of `handle_call_tool`, the unknown-name
        `ValueError` and the `except` clause. */
    method RouteCall(name: string, args: Args, connect: Connector, backend: Backend, delegate: Delegate)
      returns (reply: seq<Content>)
      requires Valid()
      modifies middleware, middleware.currentClient, middleware.defaultConfig, realtime`subscriptions
      ensures Valid() && middleware.currentClient == old(middleware.currentClient)
      ensures Route(name) == DatabaseCategory ==>
        reply == Render(ToolReply(name, middleware.currentClient, args, backend))
      ensures Route(name) != DatabaseCategory || !InlineCredentials(args) ==>
        unchanged(middleware) && unchanged(middleware.currentClient) && unchanged(middleware.defaultConfig)
      ensures InlineSwitch(name, args) ==>
        var project, token := args.projectCode.value, args.accessToken.value;
        fresh(middleware.currentConfig) && middleware.HoldsTenant(project, token)
        && (connect(TenantUrl(project), token) == Pass ==>
              middleware.currentClient.session == Session(TenantUrl(project), token))
        && (connect(TenantUrl(project), token) != Pass ==>
              middleware.currentClient.session == old(middleware.currentClient.session))
      ensures Route(name) == AuthCategory || Route(name) == StorageCategory ==>
        reply == Render(delegate(name, args))
      ensures Route(name) == RealtimeCategory ==>
        var s := Realtime.Dispatch(old(realtime.subscriptions), realtime.client.session, name, args, backend);
        reply == Render(s.reply) && realtime.subscriptions == s.registry
      ensures Route(name) != RealtimeCategory ==> realtime.subscriptions == old(realtime.subscriptions)
      ensures Route(name) == NoCategory ==> reply == Render(Err(UnknownTool(name)))
    {
      var category := Route(name);
      var result: Result<seq<Content>>;
      if category == DatabaseCategory {
        result := database.ExecuteTool(name, args, connect, backend);
      } else if category == AuthCategory || category == StorageCategory {
        result := delegate(name, args);
      } else if category == RealtimeCategory {
        result := realtime.ExecuteTool(name, args, backend);
      } else {
        result := Err(UnknownTool(name));
      }
      reply := Render(result);
    }

    /** `handle_call_tool` as written. After a switch it rebuilds the
        database tool set and then calls `AuthTools` with one argument too
        few: the `TypeError` ends every switching call with the same error
        text, and the tool is never dispatched. */
    method HandleCallTool(name: string, args: Args, connect: Connector, backend: Backend, delegate: Delegate)
      returns (reply: seq<Content>)
      requires Valid()
      modifies this, middleware, middleware.currentClient, middleware.defaultConfig, realtime`subscriptions
      ensures Valid() && realtime == old(realtime)
      ensures Switches(args.headers.GetOr(map[]), connect) ==>
        reply == Render(Err(AuthToolsArity)) && fresh(database)
        && realtime.subscriptions == old(realtime.subscriptions)
      ensures var headers := args.headers.GetOr(map[]);
        Switches(headers, connect) ==>
        var project, token := ProjectFromHeaders(headers).value, TokenFromHeaders(headers).value;
        fresh(middleware.currentConfig) && middleware.HoldsTenant(project, token)
        && middleware.currentClient.session == Session(TenantUrl(project), token)
      ensures var headers := args.headers.GetOr(map[]);
        SwitchRequested(headers) && !Switches(headers, connect) && !InlineSwitch(name, args) ==>
        var project, token := ProjectFromHeaders(headers).value, TokenFromHeaders(headers).value;
        fresh(middleware.currentConfig) && middleware.HoldsTenant(project, token)
        && middleware.currentClient == old(middleware.currentClient)
        && middleware.currentClient.session == old(middleware.currentClient.session)
      ensures !SwitchRequested(args.headers.GetOr(map[])) && !InlineSwitch(name, args) ==>
        middleware.currentConfig == middleware.defaultConfig && unchanged(middleware.defaultConfig)
      ensures !SwitchRequested(args.headers.GetOr(map[])) && !InlineSwitch(name, args) ==>
        middleware.RevertedClient(old(Connect(middleware.defaultConfig.SupabaseConfig(), connect)))
      ensures !Switches(args.headers.GetOr(map[]), connect) && InlineSwitch(name, args) ==>
        var project, token := args.projectCode.value, args.accessToken.value;
        fresh(middleware.currentConfig) && middleware.HoldsTenant(project, token)
        && (connect(TenantUrl(project), token) == Pass ==>
              middleware.currentClient.session == Session(TenantUrl(project), token))
      ensures var headers := args.headers.GetOr(map[]);
        (!Switches(headers, connect) && InlineSwitch(name, args)
         && connect(TenantUrl(args.projectCode.value), args.accessToken.value) != Pass) ==>
        (SwitchRequested(headers) ==>
           middleware.currentClient == old(middleware.currentClient)
           && middleware.currentClient.session == old(middleware.currentClient.session))
        && (!SwitchRequested(headers) ==>
              middleware.RevertedClient(old(Connect(middleware.defaultConfig.SupabaseConfig(), connect))))
      ensures !Switches(args.headers.GetOr(map[]), connect) ==>
        database == old(database)
        && (Route(name) == DatabaseCategory ==> reply == Render(ToolReply(name, middleware.currentClient, args, backend)))
        && (Route(name) == AuthCategory || Route(name) == StorageCategory ==> reply == Render(delegate(name, args)))
        && (Route(name) == NoCategory ==> reply == Render(Err(UnknownTool(name))))
        && (Route(name) == RealtimeCategory ==>
              var s := Realtime.Dispatch(old(realtime.subscriptions), realtime.client.session, name, args, backend);
              reply == Render(s.reply) && realtime.subscriptions == s.registry)
    {
      var headers := args.headers.GetOr(map[]);
      var switched := middleware.UpdateConfigFromHeaders(headers, connect);
      if switched {
        database := new DatabaseTools(middleware);
        return Render(Err(AuthToolsArity));
      }
      reply := RouteCall(name, args, connect, backend, delegate);
    }

    /** The corrected rebuild: after a switch both tool sets are built
        with the arguments their constructors take, the realtime set bound
        to the middleware's current client with an empty registry. */
    method Rebuild(headers: Headers, connect: Connector) returns (switched: bool)
      requires Valid()
      modifies this, middleware, middleware.currentClient, middleware.defaultConfig
      ensures Valid() && switched == Switches(headers, connect)
      ensures middleware.currentClient == old(middleware.currentClient) || fresh(middleware.currentClient)
      ensures switched ==>
        fresh(database) && fresh(realtime) && realtime.client == middleware.currentClient
        && realtime.subscriptions == EmptyRegistry
        && middleware.currentClient.session
           == Session(TenantUrl(ProjectFromHeaders(headers).value), TokenFromHeaders(headers).value)
      ensures !switched ==> database == old(database) && realtime == old(realtime) && unchanged(realtime)
      ensures SwitchRequested(headers) ==>
        var project, token := ProjectFromHeaders(headers).value, TokenFromHeaders(headers).value;
        fresh(middleware.currentConfig) && middleware.HoldsTenant(project, token)
        && (!switched ==>
              middleware.currentClient == old(middleware.currentClient)
              && middleware.currentClient.session == old(middleware.currentClient.session))
      ensures !SwitchRequested(headers) ==>
        middleware.currentConfig == middleware.defaultConfig && unchanged(middleware.defaultConfig)
      ensures !SwitchRequested(headers) ==> middleware.RevertedClient(old(Connect(middleware.defaultConfig.SupabaseConfig(), connect)))
    {
      switched := middleware.UpdateConfigFromHeaders(headers, connect);
      if switched {
        database := new DatabaseTools(middleware);
        realtime := new RealtimeTools(middleware.currentConfig, middleware.currentClient);
      }
    }

    /** The corrected `handle_call_tool`: rebuild after a switch, then route
        the call as usual. */
    method HandleCallToolRebuilt(name: string, args: Args, connect: Connector, backend: Backend, delegate: Delegate)
      returns (reply: seq<Content>)
      requires Valid()
      modifies this, middleware, middleware.currentClient, middleware.defaultConfig, realtime`subscriptions
      ensures Valid()
      ensures Switches(args.headers.GetOr(map[]), connect) ==>
        fresh(database) && fresh(realtime) && realtime.client == middleware.currentClient
      ensures Switches(args.headers.GetOr(map[]), connect) && !InlineSwitch(name, args) ==>
        var headers := args.headers.GetOr(map[]);
        middleware.currentClient.session
        == Session(TenantUrl(ProjectFromHeaders(headers).value), TokenFromHeaders(headers).value)
      ensures !Switches(args.headers.GetOr(map[]), connect) ==> database == old(database) && realtime == old(realtime)
      ensures var headers := args.headers.GetOr(map[]);
        SwitchRequested(headers) && !InlineSwitch(name, args) ==>
        var project, token := ProjectFromHeaders(headers).value, TokenFromHeaders(headers).value;
        fresh(middleware.currentConfig) && middleware.HoldsTenant(project, token)
        && (!Switches(headers, connect) ==>
              middleware.currentClient == old(middleware.currentClient)
              && middleware.currentClient.session == old(middleware.currentClient.session))
      ensures !SwitchRequested(args.headers.GetOr(map[])) && !InlineSwitch(name, args) ==>
        middleware.currentConfig == middleware.defaultConfig && unchanged(middleware.defaultConfig)
      ensures !SwitchRequested(args.headers.GetOr(map[])) && !InlineSwitch(name, args) ==>
        middleware.RevertedClient(old(Connect(middleware.defaultConfig.SupabaseConfig(), connect)))
      ensures InlineSwitch(name, args) ==>
        var project, token := args.projectCode.value, args.accessToken.value;
        fresh(middleware.currentConfig) && middleware.HoldsTenant(project, token)
        && (connect(TenantUrl(project), token) == Pass ==>
              middleware.currentClient.session == Session(TenantUrl(project), token))
      ensures var headers := args.headers.GetOr(map[]);
        (InlineSwitch(name, args) && connect(TenantUrl(args.projectCode.value), args.accessToken.value) != Pass) ==>
        (Switches(headers, connect) ==>
           middleware.currentClient.session
           == Session(TenantUrl(ProjectFromHeaders(headers).value), TokenFromHeaders(headers).value))
        && (SwitchRequested(headers) && !Switches(headers, connect) ==>
              middleware.currentClient == old(middleware.currentClient)
              && middleware.currentClient.session == old(middleware.currentClient.session))
        && (!SwitchRequested(headers) ==>
              middleware.RevertedClient(old(Connect(middleware.defaultConfig.SupabaseConfig(), connect))))
      ensures Route(name) == DatabaseCategory ==> reply == Render(ToolReply(name, middleware.currentClient, args, backend))
      ensures Route(name) == AuthCategory || Route(name) == StorageCategory ==> reply == Render(delegate(name, args))
      ensures Route(name) == NoCategory ==> reply == Render(Err(UnknownTool(name)))
      ensures Route(name) == RealtimeCategory ==>
        var before := if Switches(args.headers.GetOr(map[]), connect) then EmptyRegistry else old(realtime.subscriptions);
        var s := Realtime.Dispatch(before, realtime.client.session, name, args, backend);
        reply == Render(s.reply) && realtime.subscriptions == s.registry
    {
      var switched := Rebuild(args.headers.GetOr(map[]), connect);
      ghost var before := realtime.subscriptions;
      assert before == if switched then EmptyRegistry else old(realtime.subscriptions);
      reply := RouteCall(name, args, connect, backend, delegate);
    }
  }

  // -----------------------------------------------------------------------
  // One tenant call, on concrete values

  /** A backend that answers only the tenant "acme", and only the
      table-listing query. */
  function AcmeOnly(session: Session, request: Request): Result<seq<Row>> {
    if session == Session("https://acme.supabase.co", "tok") && request == ExecSqlRequest(ListTablesSql)
    then Ok([[("table_name", "users")]])
    else Err("permission denied")
  }

  function NoDelegate(name: string, args: Args): Result<seq<Content>> {
    Err("not available")
  }

  /** On acme's session, listing the tables yields "users". */
  lemma AcmeListsUsers(client: SupabaseClient, args: Args)
    requires client.session == Session(TenantUrl("acme"), "tok")
    ensures ToolReply("database_list_tables", client, args, AcmeOnly) == Ok(Reply(TablesHeader + "users"))
  {
    assert TenantUrl("acme") == "https://acme.supabase.co";
    assert "database_list_tables" in DatabaseToolNames;
    ListTablesExample(client, AcmeOnly);
    assert Handle("database_list_tables", client, args, AcmeOnly) == ExecuteListTables(client, AcmeOnly);
  }

  /** The arguments of a `database_list_tables` call for tenant "acme". */
  function AcmeCall(): (args: Args)
    ensures Switches(args.headers.GetOr(map[]), AcceptAll) && !InlineCredentials(args)
    ensures ProjectFromHeaders(args.headers.GetOr(map[])) == Some("acme")
    ensures TokenFromHeaders(args.headers.GetOr(map[])) == Some("tok")
  {
    var headers := map["x-supabase-project" := "acme", "x-supabase-token" := "tok"];
    assert ProjectFromHeaders(headers) == Some("acme") && TokenFromHeaders(headers) == Some("tok");
    NoArgs().(headers := Some(headers))
  }

  /** Example helper: a fresh server on the default project, for the tenant
      calls below. */
  method ExampleServer() returns (server: SupabaseMCPServer)
    ensures fresh(server) && fresh(server.middleware) && fresh(server.realtime) && server.Valid()
    ensures fresh(server.middleware.currentClient) && fresh(server.middleware.defaultConfig)
  {
    var defaults := new Config(None, None, ExampleEnv);
    var created := DynamicConfigMiddleware.Create(defaults, AcceptAll);
    var m := created.value;
    var realtime := new RealtimeTools(defaults, m.currentClient);
    server := new SupabaseMCPServer(m, realtime);
  }

  /** As written: a tenant's first call ends in the `TypeError` text. */
  method TenantCallAsWritten() returns (reply: seq<Content>)
    ensures reply == Reply("Erro: " + AuthToolsArity)
  {
    var server := ExampleServer();
    reply := server.HandleCallTool("database_list_tables", AcmeCall(), AcceptAll, AcmeOnly, NoDelegate);
  }

  /** Corrected: the same call lists the tenant's tables. */
  method TenantCallRebuilt() returns (reply: seq<Content>)
    ensures reply == Reply(TablesHeader + "users")
  {
    var server := ExampleServer();
    var args := AcmeCall();
    assert Route("database_list_tables") == DatabaseCategory by {
      assert "database_list_tables"[..9] == "database_";
    }
    ghost var headers := args.headers.GetOr(map[]);
    assert Switches(headers, AcceptAll) && SwitchRequested(headers) && !InlineSwitch("database_list_tables", args);
    reply := server.HandleCallToolRebuilt("database_list_tables", args, AcceptAll, AcmeOnly, NoDelegate);
    assert server.middleware.currentClient.session == Session(TenantUrl("acme"), "tok");
    AcmeListsUsers(server.middleware.currentClient, args);
    assert Render(Ok(Reply(TablesHeader + "users"))) == Reply(TablesHeader + "users");
  }
}
