/** tools/database.py: the database tool set. `execute_tool` may feed inline
    credentials to the middleware, reads the active client and dispatches
    by exact name; the handlers turn the client's result or failure into
    one text block. The query, select and delete handlers are the ones of
    tools/database/queries.py and tools/database/deletes.py. */
module Database {
  import opened Common
  import opened Settings
  import opened Client
  import opened Middleware
  import opened Queries
  import opened Deletes

  const DatabaseToolNames: seq<string> := [
    "database_query", "database_select", "database_insert", "database_update",
    "database_delete", "database_list_tables", "database_get_project_info"]

  const InsertedPrefix: string := "Registro inserido com sucesso na tabela "
  const InsertError: string := "Erro ao inserir registro na tabela "
  const UpdatedPrefix: string := "Registro atualizado com sucesso na tabela "
  const UpdateError: string := "Erro ao atualizar registro na tabela "
  const TablesHeader: string := "Tabelas disponíveis no banco de dados:\n"
  const ListError: string := "Erro ao listar tabelas: "
  /** The SQL text `_execute_list_tables` sends (whitespace condensed). */
  const ListTablesSql: string := "SELECT table_name FROM information_schema.tables WHERE table_schema = 'public' ORDER BY table_name;"
  /** `SupabaseClient` has no `get_project_info`: the lookup always raises
      `AttributeError`, which the handler turns into this text. */
  const ProjectInfoError: string := "Erro ao obter informações do projeto: 'SupabaseClient' object has no attribute 'get_project_info'"

  /** A reply `head + cause` starts with `head` and contains the cause. */
  lemma {:induction false} HeadThenCause(head: string, cause: string)
    ensures StartsWith(head + cause, head) && Contains(head + cause, cause)
  {
    assert (head + cause)[..|head|] == head;
    ContainsRight(head, cause);
  }

  /** `_execute_insert`: the row the client returns, or the error naming
      the table; `table` and `data` are read before the `try`. */
  function ExecuteInsert(client: SupabaseClient, args: Args, backend: Backend): (r: Result<seq<Content>>)
    reads client
    ensures args.table.None? ==> r == Err(KeyErrorMessage("table"))
    ensures args.table.Some? && args.data.None? ==> r == Err(KeyErrorMessage("data"))
    ensures args.table.Some? && args.data.Some? ==>
      var table := args.table.value;
      var res := backend(client.session, Insert(table, args.data.value));
      r.Ok? && |r.value| == 1 && r.value[0].kind == "text"
      && (res.Ok? ==>
            StartsWith(r.value[0].text, InsertedPrefix + table)
            && Contains(r.value[0].text, ShowRow(FirstOrEmpty(res.value))))
      && (res.Err? ==>
            StartsWith(r.value[0].text, InsertError + table + ": ") && Contains(r.value[0].text, res.message))
  {
    if args.table.None? then Err(KeyErrorMessage("table"))
    else if args.data.None? then Err(KeyErrorMessage("data"))
    else
      var table := args.table.value;
      match client.InsertRecord(table, args.data.value, backend)
      case Ok(row) =>
        var head := InsertedPrefix + table + ":\n";
        HeadThenCause(head, ShowRow(row));
        assert (head + ShowRow(row))[..|InsertedPrefix + table|] == InsertedPrefix + table;
        Ok(Reply(head + ShowRow(row)))
      case Err(m) =>
        var head := InsertError + table + ": ";
        HeadThenCause(head, m);
        ContainsExtend(head, m, "", backend(client.session, Insert(table, args.data.value)).message);
        assert head + m + "" == head + m;
        Ok(Reply(head + m))
  }

  /** `_execute_update`: the row the client returns, or the error naming
      the table; `table`, `id` and `data` are read before the `try`. */
  function ExecuteUpdate(client: SupabaseClient, args: Args, backend: Backend): (r: Result<seq<Content>>)
    reads client
    ensures args.table.None? ==> r == Err(KeyErrorMessage("table"))
    ensures args.table.Some? && args.id.None? ==> r == Err(KeyErrorMessage("id"))
    ensures args.table.Some? && args.id.Some? && args.data.None? ==> r == Err(KeyErrorMessage("data"))
    ensures args.table.Some? && args.id.Some? && args.data.Some? ==>
      var table := args.table.value;
      var res := backend(client.session, UpdateWhereId(table, args.data.value, args.id.value));
      r.Ok? && |r.value| == 1 && r.value[0].kind == "text"
      && (res.Ok? ==>
            StartsWith(r.value[0].text, UpdatedPrefix + table)
            && Contains(r.value[0].text, ShowRow(FirstOrEmpty(res.value))))
      && (res.Err? ==>
            StartsWith(r.value[0].text, UpdateError + table + ": ") && Contains(r.value[0].text, res.message))
  {
    if args.table.None? then Err(KeyErrorMessage("table"))
    else if args.id.None? then Err(KeyErrorMessage("id"))
    else if args.data.None? then Err(KeyErrorMessage("data"))
    else
      var table := args.table.value;
      match client.UpdateRecord(table, args.id.value, args.data.value, backend)
      case Ok(row) =>
        var head := UpdatedPrefix + table + ":\n";
        HeadThenCause(head, ShowRow(row));
        assert (head + ShowRow(row))[..|UpdatedPrefix + table|] == UpdatedPrefix + table;
        Ok(Reply(head + ShowRow(row)))
      case Err(m) =>
        var head := UpdateError + table + ": ";
        HeadThenCause(head, m);
        ContainsExtend(head, m, "", backend(client.session, UpdateWhereId(table, args.data.value, args.id.value)).message);
        assert head + m + "" == head + m;
        Ok(Reply(head + m))
  }

  /** `[row["table_name"] for row in rows]`: one name per row, in order; a
      row without the column raises `KeyError`. */
  function TableNames(rows: seq<Row>): (r: Result<seq<string>>)
    ensures r.Ok? <==> forall i :: 0 <= i < |rows| ==> Lookup(rows[i], "table_name").Some?
    ensures r.Ok? ==>
      (|r.value| == |rows|
       && forall i :: 0 <= i < |rows| ==> Lookup(rows[i], "table_name") == Some(r.value[i]))
    ensures r.Err? ==> r.message == KeyErrorMessage("table_name")
  {
    if |rows| == 0 then Ok([])
    else
      match Lookup(rows[0], "table_name")
      case None => Err(KeyErrorMessage("table_name"))
      case Some(name) =>
        match TableNames(rows[1..])
        case Err(m) => Err(m)
        case Ok(names) => Ok([name] + names)
  }

  /** `_execute_list_tables`: the table names, in row order, joined by
      ", " under a header; any failure, including a row without
      `table_name`, becomes an error text. It never raises. */
  function ExecuteListTables(client: SupabaseClient, backend: Backend): (r: Result<seq<Content>>)
    reads client
    ensures r.Ok? && |r.value| == 1 && r.value[0].kind == "text"
    ensures var res := backend(client.session, ExecSqlRequest(ListTablesSql));
      (res.Ok? && TableNames(res.value).Ok? ==>
         r.value[0].text == TablesHeader + Join(TableNames(res.value).value, ", ")
         && StartsWith(r.value[0].text, TablesHeader)
         && forall i :: 0 <= i < |res.value| ==> Contains(r.value[0].text, Lookup(res.value[i], "table_name").value))
      && (res.Ok? && TableNames(res.value).Err? ==> r.value[0].text == ListError + KeyErrorMessage("table_name"))
      && (res.Err? ==> StartsWith(r.value[0].text, ListError) && Contains(r.value[0].text, res.message))
  {
    match backend(client.session, ExecSqlRequest(ListTablesSql))
    case Err(m) =>
      HeadThenCause(ListError, m);
      Ok(Reply(ListError + m))
    case Ok(rows) =>
      match TableNames(rows)
      case Err(m) => Ok(Reply(ListError + m))
      case Ok(names) =>
        var text := TablesHeader + Join(names, ", ");
        assert text[..|TablesHeader|] == TablesHeader;
        assert forall i :: 0 <= i < |rows| ==> Contains(text, names[i]) by {
          forall i | 0 <= i < |rows| ensures Contains(text, names[i]) {
            JoinContains(names, ", ", i);
            ContainsExtend(TablesHeader, Join(names, ", "), "", names[i]);
            assert TablesHeader + Join(names, ", ") + "" == text;
          }
        }
        Ok(Reply(text))
  }

  /** One table named "users" is listed as exactly that name. */
  lemma ListTablesExample(client: SupabaseClient, backend: Backend)
    requires backend(client.session, ExecSqlRequest(ListTablesSql)) == Ok([[("table_name", "users")]])
    ensures ExecuteListTables(client, backend) == Ok(Reply(TablesHeader + "users"))
  {
    var rows: seq<Row> := [[("table_name", "users")]];
    assert Lookup(rows[0], "table_name") == Some("users");
    assert TableNames(rows).Ok?;
    var names := TableNames(rows).value;
    assert |names| == 1 && Some(names[0]) == Some("users");
    assert names == ["users"];
    assert Join(["users"], ", ") == "users";
  }

  /** The handler a listed name selects; only a required-argument lookup
      escapes it. */
  function Handle(name: string, client: SupabaseClient, args: Args, backend: Backend): (r: Result<seq<Content>>)
    requires name in DatabaseToolNames
    reads client
    ensures r.Err? ==>
      r.message in [KeyErrorMessage("sql"), KeyErrorMessage("table"), KeyErrorMessage("id"), KeyErrorMessage("data")]
  {
    if name == "database_query" then ExecuteQuery(client, args, backend)
    else if name == "database_select" then ExecuteSelect(client, args, backend)
    else if name == "database_insert" then ExecuteInsert(client, args, backend)
    else if name == "database_update" then ExecuteUpdate(client, args, backend)
    else if name == "database_delete" then ExecuteDelete(client, args, backend)
    else if name == "database_list_tables" then ExecuteListTables(client, backend)
    else Ok(Reply(ProjectInfoError))
  }

  /** The reply of `execute_tool` for the client it has read: exact-name
      dispatch among the seven tools, `ValueError` for any other name. */
  function ToolReply(name: string, client: SupabaseClient, args: Args, backend: Backend): (r: Result<seq<Content>>)
    reads client
    ensures r == Err(UnknownTool(name)) <==> name !in DatabaseToolNames
    ensures r.Err? && name in DatabaseToolNames ==> |r.message| > 0 && r.message[0] == '\''
  {
    if name in DatabaseToolNames then
      var r := Handle(name, client, args, backend);
      assert r.Err? ==> r.message[0] == '\'' by {
        if r.Err? {
          var k :| k in ["sql", "table", "id", "data"] && r.message == KeyErrorMessage(k);
        }
      }
      r
    else Err(UnknownTool(name))
  }

  /** The reply of each listed tool: delete and project information as
      examples of the exact-name routing. */
  lemma ToolReplyRoutes(client: SupabaseClient, args: Args, backend: Backend)
    ensures ToolReply("database_delete", client, args, backend) == ExecuteDelete(client, args, backend)
    ensures ToolReply("database_get_project_info", client, args, backend) == Ok(Reply(ProjectInfoError))
    ensures ToolReply("database_Delete", client, args, backend) == Err(UnknownTool("database_Delete"))
  {
  }

  /** The inline credentials take effect only when both are truthy. */
  predicate InlineCredentials(args: Args) {
    Truthy(args.projectCode) && Truthy(args.accessToken)
  }

  /** The headers `execute_tool` hands to the middleware. */
  function CredentialHeaders(projectCode: string, accessToken: string): (h: Headers)
    ensures ProjectFromHeaders(h) == Some(projectCode) || projectCode == ""
    ensures projectCode != "" && accessToken != "" ==>
      SwitchRequested(h) && ProjectFromHeaders(h) == Some(projectCode) && TokenFromHeaders(h) == Some(accessToken)
  {
    map["x-supabase-project" := projectCode, "x-supabase-token" := accessToken]
  }

  /** `DatabaseTools`: the tool set bound to the shared middleware. */
  class DatabaseTools {
    const middleware: DynamicConfigMiddleware

    constructor(middleware: DynamicConfigMiddleware)
      ensures this.middleware == middleware
    {
      this.middleware := middleware;
    }

    /** `execute_tool`: inline credentials switch the middleware to that
        tenant, writing them into the shared default configuration as
        well (without them nothing touches the middleware: there is no
        revert); the handler then runs on the client the middleware holds
        afterwards. */
    method ExecuteTool(name: string, args: Args, connect: Connector, backend: Backend) returns (r: Result<seq<Content>>)
      requires middleware.Valid()
      modifies middleware, middleware.currentClient, middleware.defaultConfig
      ensures middleware.Valid()
      ensures r == ToolReply(name, middleware.currentClient, args, backend)
      ensures !InlineCredentials(args) ==>
        unchanged(middleware) && unchanged(middleware.currentClient) && unchanged(middleware.defaultConfig)
      ensures InlineCredentials(args) ==>
        var project, token := args.projectCode.value, args.accessToken.value;
        middleware.currentClient == old(middleware.currentClient)
        && fresh(middleware.currentConfig) && middleware.HoldsTenant(project, token)
        && (connect(TenantUrl(project), token) == Pass ==>
              middleware.currentClient.session == Session(TenantUrl(project), token))
        && (connect(TenantUrl(project), token) != Pass ==>
              middleware.currentClient.session == old(middleware.currentClient.session))
    {
      if InlineCredentials(args) {
        var headers := CredentialHeaders(args.projectCode.value, args.accessToken.value);
        var _ := middleware.UpdateConfigFromHeaders(headers, connect);
      }
      var client := middleware.GetCurrentClient();
      r := ToolReply(name, client, args, backend);
    }
  }
}
