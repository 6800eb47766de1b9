/** tools/database/queries.py: the handlers of `database_query` and
    `database_select` (tools/database.py carries the same two handlers).
    Each maps a client result or failure to one text block; a missing
    required argument is looked up before the `try` and escapes as a
    `KeyError`, modelled as `Err`. */
module Queries {
  import opened Common
  import opened Client

  const ExecSql: string := "exec_sql"
  const QuerySuccess: string := "Query executada com sucesso. Resultado: "
  const QueryError: string := "Erro ao executar query: "
  const SelectSuccess: string := "Consulta executada com sucesso. Encontrados "
  const SelectRecords: string := " registros:\n"
  const SelectError: string := "Erro ao consultar tabela "

  /** `rpc("exec_sql", {"sql_query": sql})`. */
  function ExecSqlRequest(sql: string): Request {
    Rpc(ExecSql, [("sql_query", sql)])
  }

  /** The success texts all name the outcome with the word "sucesso". */
  lemma {:induction false} SuccessWord(prefix: string, rest: string)
    requires prefix == QuerySuccess || prefix == SelectSuccess
    ensures Contains(prefix + rest, "sucesso")
  {
    if prefix == QuerySuccess {
      assert OccursAt(prefix + rest, "sucesso", 20);
    } else {
      assert (prefix + rest)[23..30] == prefix[23..30];
      assert prefix[23..30] == "sucesso";
      assert OccursAt(prefix + rest, "sucesso", 23);
    }
  }

  /** `execute_query`: runs the SQL text unchanged through `exec_sql`; the
      data on success, the exception message on failure. */
  function ExecuteQuery(client: SupabaseClient, args: Args, backend: Backend): (r: Result<seq<Content>>)
    reads client
    ensures args.sql.None? ==> r == Err(KeyErrorMessage("sql"))
    ensures args.sql.Some? ==>
      var res := backend(client.session, ExecSqlRequest(args.sql.value));
      r.Ok? && |r.value| == 1 && r.value[0].kind == "text"
      && (res.Ok? ==> Contains(r.value[0].text, "sucesso") && Contains(r.value[0].text, ShowRows(res.value)))
      && (res.Err? ==> StartsWith(r.value[0].text, QueryError) && Contains(r.value[0].text, res.message))
  {
    if args.sql.None? then Err(KeyErrorMessage("sql"))
    else
      match backend(client.session, ExecSqlRequest(args.sql.value))
      case Ok(rows) =>
        SuccessWord(QuerySuccess, ShowRows(rows));
        ContainsRight(QuerySuccess, ShowRows(rows));
        Ok(Reply(QuerySuccess + ShowRows(rows)))
      case Err(m) =>
        ContainsRight(QueryError, m);
        assert (QueryError + m)[..|QueryError|] == QueryError;
        Ok(Reply(QueryError + m))
  }

  /** The reply depends on nothing but the backend's answer to that one
      request: two backends that agree on it give the same reply. */
  lemma ExecuteQueryIssuesExecSql(client: SupabaseClient, args: Args, b1: Backend, b2: Backend)
    requires args.sql.Some?
    requires b1(client.session, ExecSqlRequest(args.sql.value)) == b2(client.session, ExecSqlRequest(args.sql.value))
    ensures ExecuteQuery(client, args, b1) == ExecuteQuery(client, args, b2)
  {
  }

  /** The `query_params` `execute_select` builds: filters `[]`, limit 100
      and offset 0 by default, all three always present; `columns` is read
      but not forwarded. */
  function SelectParams(args: Args): (p: QueryParams)
    ensures !NoParams(p) && p.orderBy.None?
    ensures p.offset.Some? && p.limit.Some?
    ensures args.limit.None? ==> p.limit == Some(DefaultLimit)
    ensures args.offset.None? ==> p.offset == Some(0)
  {
    QueryParams(Some(args.filters.GetOr([])), None, Some(args.limit.GetOr(DefaultLimit)), Some(args.offset.GetOr(0)))
  }

  /** A select always ends with a range window, rows `offset` to
      `offset + limit - 1`, so with no arguments it asks for rows 0 to 99. */
  lemma {:induction false} SelectAlwaysWindowed(args: Args)
    requires Plan(Some(SelectParams(args))).Ok?
    ensures var ops := Plan(Some(SelectParams(args))).value;
      var offset, limit := args.offset.GetOr(0), args.limit.GetOr(DefaultLimit);
      |ops| >= 3 && ops[|ops| - 1] == Range(offset, offset + limit - 1) && ops[|ops| - 2] == Limit(limit)
    ensures args.offset.None? && args.limit.None? ==>
      Plan(Some(SelectParams(args))).value[|Plan(Some(SelectParams(args))).value| - 1] == Range(0, 99)
  {
    PlanWindow(SelectParams(args));
  }

  /** The requested columns make no difference to the query. */
  lemma ColumnsIgnored(args: Args, columns: Option<seq<string>>)
    ensures SelectParams(args.(columns := columns)) == SelectParams(args)
  {
  }

  /** `execute_select`: the number of records and the records, or the
      error naming the table. */
  function ExecuteSelect(client: SupabaseClient, args: Args, backend: Backend): (r: Result<seq<Content>>)
    reads client
    ensures args.table.None? ==> r == Err(KeyErrorMessage("table"))
    ensures args.table.Some? ==>
      var table := args.table.value;
      var res := QueryResult(client.session, table, Some(SelectParams(args)), backend);
      r.Ok? && |r.value| == 1 && r.value[0].kind == "text"
      && (res.Ok? ==>
            StartsWith(r.value[0].text, SelectSuccess + NatToString(|res.value|) + SelectRecords)
            && Contains(r.value[0].text, "sucesso") && Contains(r.value[0].text, ShowRows(res.value)))
      && (res.Err? ==>
            StartsWith(r.value[0].text, SelectError + table + ": ") && Contains(r.value[0].text, res.message))
  {
    if args.table.None? then Err(KeyErrorMessage("table"))
    else
      var table := args.table.value;
      match QueryResult(client.session, table, Some(SelectParams(args)), backend)
      case Ok(rows) =>
        var head := SelectSuccess + NatToString(|rows|) + SelectRecords;
        SuccessWord(SelectSuccess, NatToString(|rows|) + SelectRecords + ShowRows(rows));
        assert SelectSuccess + (NatToString(|rows|) + SelectRecords + ShowRows(rows)) == head + ShowRows(rows);
        ContainsRight(head, ShowRows(rows));
        assert (head + ShowRows(rows))[..|head|] == head;
        Ok(Reply(head + ShowRows(rows)))
      case Err(m) =>
        var head := SelectError + table + ": ";
        ContainsRight(head, m);
        assert (head + m)[..|head|] == head;
        Ok(Reply(head + m))
  }
}
