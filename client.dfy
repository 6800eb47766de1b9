/** supabase_client.py: the wrapper around one live SDK handle.

    The SDK is an oracle. `create_client(url, key)` is a `Connector` that
    either accepts the credentials or raises; the handle it returns is
    represented by the `Session` (the url and key it was created with), so
    that every request records the credentials it was issued under. Every
    request then goes to a `Backend`, which returns the rows of the
    response's `data` or raises. */
module Client {
  import opened Common
  import opened Settings

  /** What an SDK handle is bound to: the credentials it was created with. */
  datatype Session = Session(url: string, key: string)

  /** `create_client(url, key)`: `Fail(message)` when it raises. */
  type Connector = (string, string) -> Outcome

  /** One step of the SDK's query builder. */
  datatype QueryOp =
    | Select(columns: string)
    | Filter(column: string, operator: string, value: string)
    | Order(column: string, desc: bool)
    | Limit(count: int)
    | Range(first: int, last: int)

  /** `query_params["order_by"]`: a dictionary with "column" and maybe "desc". */
  datatype OrderBy = OrderBy(column: Option<string>, desc: Option<bool>)

  /** The `query_params` dictionary of `query_table`; `None` is an absent key. */
  datatype QueryParams = QueryParams(
    filters: Option<seq<FilterItem>>,
    orderBy: Option<OrderBy>,
    limit: Option<int>,
    offset: Option<int>)

  /** The requests the wrapper sends through the SDK. */
  datatype Request =
    | Query(table: string, ops: seq<QueryOp>)
    | Insert(table: string, data: Row)
    | UpdateWhereId(table: string, data: Row, id: string)
    | DeleteWhereId(table: string, id: string)
    | Rpc(procedure: string, params: Row)
    | AuthSignUp(email: string, password: string, userData: Row)
    | AuthSignOut
    | Upload(bucket: string, path: string, file: seq<bv8>, fileOptions: Row)
    | OnTable(table: string, event: string, filter: Option<string>)
    | OnChannel(channel: string)
    | Send(channel: string, message: Row)

  /** The remote backend: `execute()` on a request made through a session. */
  type Backend = (Session, Request) -> Result<seq<Row>>

  const InitPrefix: string := "Erro ao inicializar cliente Supabase: "
  const MissingCredentials: string := "URL ou chave do Supabase não configuradas"
  const DefaultLimit: int := 100

  /** `_initialize_client` over resolved settings: the session it creates, or
      the message of the exception it raises. */
  function Connect(settings: SupabaseSettings, connect: Connector): (r: Result<Session>)
    ensures r.Ok? <==>
      Truthy(settings.url) && Truthy(settings.key)
      && connect(settings.url.value, settings.key.value) == Pass
    ensures r.Ok? ==> r.value == Session(settings.url.value, settings.key.value)
    ensures r.Err? ==> StartsWith(r.message, InitPrefix)
    ensures !Truthy(settings.url) || !Truthy(settings.key) ==>
      r == Err(InitPrefix + MissingCredentials)
  {
    if !Truthy(settings.url) || !Truthy(settings.key) then
      Err(InitPrefix + MissingCredentials)
    else
      match connect(settings.url.value, settings.key.value)
      case Fail(m) => Err(InitPrefix + m)
      case Pass => Ok(Session(settings.url.value, settings.key.value))
  }

  /** A tenant's credentials always reach the SDK: only the SDK itself can
      refuse them, and the session is bound to the tenant's URL and token. */
  lemma TenantConnect(project: string, token: string, env: Env, connect: Connector)
    requires project != "" && token != ""
    ensures var r := Connect(Resolve(Some(project), Some(token), env), connect);
      (r.Ok? <==> connect(TenantUrl(project), token) == Pass)
      && (r.Ok? ==> r.value == Session(TenantUrl(project), token))
  {
  }

  // ---------------------------------------------------------------------
  // Query building

  /** `query.filter(item["column"], item["operator"], item["value"])`;
      a missing key raises `KeyError`. */
  function FilterOp(item: FilterItem): Result<QueryOp> {
    if item.column.None? then Err(KeyErrorMessage("column"))
    else if item.operator.None? then Err(KeyErrorMessage("operator"))
    else if item.value.None? then Err(KeyErrorMessage("value"))
    else Ok(Filter(item.column.value, item.operator.value, item.value.value))
  }

  predicate WellFormed(item: FilterItem) {
    item.column.Some? && item.operator.Some? && item.value.Some?
  }

  /** The filter ops for a list of filter entries, in list order; the first
      malformed entry raises. */
  function FilterOps(items: seq<FilterItem>): Result<seq<QueryOp>>
    decreases |items|
  {
    if |items| == 0 then Ok([])
    else
      match FilterOps(items[..|items| - 1])
      case Err(m) => Err(m)
      case Ok(ops) =>
        match FilterOp(items[|items| - 1])
        case Err(m) => Err(m)
        case Ok(op) => Ok(ops + [op])
  }

  /** One op per entry, in the order given, each carrying that entry's
      column, operator and value; it fails exactly when an entry is malformed,
      with the message of the first malformed one. */
  lemma {:induction false} FilterOpsInOrder(items: seq<FilterItem>)
    ensures FilterOps(items).Ok? <==> forall i :: 0 <= i < |items| ==> WellFormed(items[i])
    ensures FilterOps(items).Ok? ==>
      |FilterOps(items).value| == |items|
      && forall i :: 0 <= i < |items| ==>
        FilterOps(items).value[i] == Filter(items[i].column.value, items[i].operator.value, items[i].value.value)
    ensures FilterOps(items).Err? ==>
      exists j :: 0 <= j < |items| && !WellFormed(items[j])
        && (forall i :: 0 <= i < j ==> WellFormed(items[i]))
        && FilterOps(items).message == FilterOp(items[j]).message
    decreases |items|
  {
    if |items| > 0 {
      var init := items[..|items| - 1];
      FilterOpsInOrder(init);
      assert forall i :: 0 <= i < |init| ==> init[i] == items[i];
      if FilterOps(init).Err? {
        var j :| 0 <= j < |init| && !WellFormed(init[j])
          && (forall i :: 0 <= i < j ==> WellFormed(init[i]))
          && FilterOps(init).message == FilterOp(init[j]).message;
        assert !WellFormed(items[j]);
      } else if FilterOp(items[|items| - 1]).Err? {
        assert !WellFormed(items[|items| - 1]);
      }
    }
  }

  /** Once a prefix of the filter list fails, the whole list fails the same way. */
  lemma {:induction false} FilterOpsFailureSticks(items: seq<FilterItem>, n: nat)
    requires n <= |items|
    requires FilterOps(items[..n]).Err?
    ensures FilterOps(items) == FilterOps(items[..n])
    decreases |items| - n
  {
    if n < |items| {
      assert items[..n + 1][..n] == items[..n];
      FilterOpsFailureSticks(items, n + 1);
    } else {
      assert items[..n] == items;
    }
  }

  /** A dictionary with no keys is falsy: `if query_params:` skips it. */
  predicate NoParams(p: QueryParams) {
    p.filters.None? && p.orderBy.None? && p.limit.None? && p.offset.None?
  }

  /** `query.order(order_by["column"], desc=order_by.get("desc", False))`. */
  function OrderOps(orderBy: Option<OrderBy>): Result<seq<QueryOp>> {
    match orderBy
    case None => Ok([])
    case Some(o) =>
      if o.column.None? then Err(KeyErrorMessage("column"))
      else Ok([Order(o.column.value, o.desc.GetOr(false))])
  }

  /** `limit(limit)` if given, then `range(offset, offset + limit - 1)` if an
      offset is given, with the limit defaulting to 100. */
  function PageOps(limit: Option<int>, offset: Option<int>): seq<QueryOp> {
    (if limit.Some? then [Limit(limit.value)] else [])
    + (if offset.Some? then [Range(offset.value, offset.value + limit.GetOr(DefaultLimit) - 1)] else [])
  }

  /** The ops `query_table` chains onto `table(table)`, or the message of the
      exception raised while chaining them. */
  function Plan(params: Option<QueryParams>): Result<seq<QueryOp>> {
    if params.None? || NoParams(params.value) then Ok([Select("*")])
    else
      var p := params.value;
      match FilterOps(p.filters.GetOr([]))
      case Err(m) => Err(m)
      case Ok(filterOps) =>
        match OrderOps(p.orderBy)
        case Err(m) => Err(m)
        case Ok(orderOps) => Ok([Select("*")] + filterOps + orderOps + PageOps(p.limit, p.offset))
  }

  /** Every query starts with `select("*")`; without parameters nothing else
      is added. */
  lemma PlanStartsWithSelectAll(params: Option<QueryParams>)
    ensures Plan(params).Ok? ==> |Plan(params).value| >= 1 && Plan(params).value[0] == Select("*")
    ensures params.None? ==> Plan(params) == Ok([Select("*")])
  {
  }

  /** The filters follow the select, one op per entry in list order; an
      order op follows only when `order_by` is given, ascending by default. */
  lemma {:induction false} PlanFiltersThenOrder(p: QueryParams)
    requires !NoParams(p)
    requires Plan(Some(p)).Ok?
    ensures var ops := Plan(Some(p)).value;
      var items := p.filters.GetOr([]);
      |ops| > |items|
      && (forall i :: 0 <= i < |items| ==>
          WellFormed(items[i])
          && ops[1 + i] == Filter(items[i].column.value, items[i].operator.value, items[i].value.value))
      && (p.orderBy.None? ==> forall i :: 0 <= i < |ops| ==> !ops[i].Order?)
      && (p.orderBy.Some? ==> (p.orderBy.value.column.Some? && |ops| > 1 + |items| &&
          ops[1 + |items|] == Order(p.orderBy.value.column.value, p.orderBy.value.desc.GetOr(false))))
  {
    var items := p.filters.GetOr([]);
    FilterOpsInOrder(items);
    var ops := Plan(Some(p)).value;
    var fops := FilterOps(items).value;
    var oops := OrderOps(p.orderBy).value;
    assert ops == [Select("*")] + fops + oops + PageOps(p.limit, p.offset);
    forall i | 0 <= i < |items|
      ensures ops[1 + i] == Filter(items[i].column.value, items[i].operator.value, items[i].value.value)
    {
      assert ops[1 + i] == fops[i];
    }
    if p.orderBy.None? {
      forall i | 0 <= i < |ops| ensures !ops[i].Order? {
        if 1 <= i < 1 + |fops| {
          assert ops[i] == fops[i - 1];
        }
      }
    } else {
      assert ops[1 + |items|] == oops[0];
    }
  }

  /** With an offset, the query ends with the inclusive window
      `[offset, offset + limit - 1]`, the limit defaulting to 100, right after
      the `limit` op when a limit is given. */
  lemma {:induction false} PlanWindow(p: QueryParams)
    requires p.offset.Some?
    requires Plan(Some(p)).Ok?
    ensures var ops := Plan(Some(p)).value;
      |ops| >= 2
      && ops[|ops| - 1] == Range(p.offset.value, p.offset.value + p.limit.GetOr(100) - 1)
      && (p.limit.Some? ==> |ops| >= 3 && ops[|ops| - 2] == Limit(p.limit.value))
  {
    var ops := Plan(Some(p)).value;
    var fops := FilterOps(p.filters.GetOr([])).value;
    var oops := OrderOps(p.orderBy).value;
    var tail := PageOps(p.limit, p.offset);
    assert ops == ([Select("*")] + fops + oops) + tail;
    assert ops[|ops| - 1] == tail[|tail| - 1];
    if p.limit.Some? {
      assert ops[|ops| - 2] == tail[|tail| - 2];
    }
  }

  /** Limit 10 with offset 20 asks for rows 20 to 29. */
  lemma WindowExample()
    ensures Plan(Some(QueryParams(None, None, Some(10), Some(20))))
      == Ok([Select("*"), Limit(10), Range(20, 29)])
  {
    assert FilterOps([]) == Ok([]);
    assert PageOps(Some(10), Some(20)) == [Limit(10), Range(20, 29)];
    assert [Select("*")] + [] + [] + [Limit(10), Range(20, 29)] == [Select("*"), Limit(10), Range(20, 29)];
  }

  // ---------------------------------------------------------------------
  // Error messages and result normalisation

  /** The message of the exception a table operation re-raises: the
      operation, the table and the cause. */
  function TableError(operation: string, table: string, cause: string): (m: string)
    ensures StartsWith(m, operation + table + ": ")
    ensures Contains(m, table) && Contains(m, cause)
  {
    var m := operation + table + ": " + cause;
    assert OccursAt(m, table, |operation|);
    assert OccursAt(m, cause, |m| - |cause|);
    assert m[..|operation + table + ": "|] == operation + table + ": ";
    m
  }

  const QueryFailure: string := "Erro ao consultar tabela "
  const InsertFailure: string := "Erro ao inserir registro na tabela "
  const UpdateFailure: string := "Erro ao atualizar registro na tabela "
  const DeleteFailure: string := "Erro ao deletar registro na tabela "
  const SignUpFailure: string := "Erro ao registrar usuário: "
  const SignOutFailure: string := "Erro ao fazer logout: "
  const UploadFailure: string := "Erro ao fazer upload do arquivo: "

  /** `result.data[0] if result.data else {}`. */
  function FirstOrEmpty(rows: seq<Row>): (r: Row)
    ensures rows == [] ==> r == []
    ensures rows != [] ==> r == rows[0]
  {
    if rows == [] then [] else rows[0]
  }

  /** The result `query_table` returns for a session: the rows of the
      planned query, or the re-raised error naming the table. */
  function QueryResult(session: Session, table: string, params: Option<QueryParams>, backend: Backend): Result<seq<Row>> {
    match Plan(params)
    case Err(m) => Err(TableError(QueryFailure, table, m))
    case Ok(ops) =>
      match backend(session, Query(table, ops))
      case Err(m) => Err(TableError(QueryFailure, table, m))
      case Ok(rows) => Ok(rows)
  }

  /** `file_options`: the content type only when one is given. */
  function UploadOptions(contentType: Option<string>): Row {
    if Truthy(contentType) then [("content-type", contentType.value)] else []
  }

  /** One `SupabaseClient` object: the configuration it reads and the SDK
      handle (`self.client`) it owns. */
  class SupabaseClient {
    var config: Config
    var session: Session

    /** A client whose handle has already been created. */
    constructor Bound(config: Config, session: Session)
      ensures this.config == config && this.session == session
    {
      this.config := config;
      this.session := session;
    }

    /** `SupabaseClient(config)`: raises when `_initialize_client` does,
        otherwise owns a handle bound to the configuration's URL and key. */
    static method Open(config: Config, connect: Connector) returns (r: Result<SupabaseClient>)
      ensures var c := Connect(config.SupabaseConfig(), connect);
        (c.Err? ==> r == Err(c.message))
        && (c.Ok? ==> r.Ok? && fresh(r.value) && r.value.config == config && r.value.session == c.value)
    {
      var c := Connect(config.SupabaseConfig(), connect);
      if c.Err? {
        return Err(c.message);
      }
      var client := new SupabaseClient.Bound(config, c.value);
      r := Ok(client);
    }

    /** `_initialize_client`: replaces the handle with one for the current
        configuration, or raises and keeps the old handle. */
    method Initialize(connect: Connector) returns (o: Outcome)
      modifies this`session
      ensures var c := Connect(config.SupabaseConfig(), connect);
        (c.Ok? ==> o == Pass && session == c.value)
        && (c.Err? ==> o == Fail(c.message) && session == old(session))
    {
      var c := Connect(config.SupabaseConfig(), connect);
      if c.Err? {
        return Fail(c.message);
      }
      session := c.value;
      o := Pass;
    }

    /** `update_config`: writes the tenant's project code and token into the
        configuration object this client reads (whoever else shares it), then
        reinitialises. The fields are written even when reinitialising fails. */
    method UpdateConfig(projectCode: string, accessToken: string, connect: Connector) returns (o: Outcome)
      modifies this`session, config
      ensures config == old(config)
      ensures config.projectCode == Some(projectCode) && config.accessToken == Some(accessToken)
      ensures var c := Connect(Resolve(Some(projectCode), Some(accessToken), config.env), connect);
        (c.Ok? ==> o == Pass && session == c.value)
        && (c.Err? ==> o == Fail(c.message) && session == old(session))
    {
      config.projectCode := Some(projectCode);
      config.accessToken := Some(accessToken);
      o := Initialize(connect);
    }

    /** `query_table`: builds the query op by op, the filters one per loop
        iteration, and executes it on this client's session. */
    method QueryTable(table: string, params: Option<QueryParams>, backend: Backend) returns (r: Result<seq<Row>>)
      ensures r == QueryResult(session, table, params, backend)
    {
      var query := [Select("*")];
      if params.Some? && !NoParams(params.value) {
        var p := params.value;
        var items := p.filters.GetOr([]);
        var i := 0;
        assert items[..0] == [] && query[1..] == [];
        while i < |items|
          invariant 0 <= i <= |items|
          invariant |query| >= 1 && query[0] == Select("*")
          invariant FilterOps(items[..i]) == Ok(query[1..])
        {
          assert items[..i + 1][..i] == items[..i];
          var op := FilterOp(items[i]);
          if op.Err? {
            FilterOpsFailureSticks(items, i + 1);
            return Err(TableError(QueryFailure, table, op.message));
          }
          assert items[..i + 1][i] == items[i];
          assert FilterOps(items[..i + 1]) == Ok(query[1..] + [op.value]);
          assert (query + [op.value])[1..] == query[1..] + [op.value];
          query := query + [op.value];
          i := i + 1;
        }
        assert items[..i] == items;
        if p.orderBy.Some? {
          if p.orderBy.value.column.None? {
            return Err(TableError(QueryFailure, table, KeyErrorMessage("column")));
          }
          query := query + [Order(p.orderBy.value.column.value, p.orderBy.value.desc.GetOr(false))];
        }
        if p.limit.Some? {
          query := query + [Limit(p.limit.value)];
        }
        if p.offset.Some? {
          query := query + [Range(p.offset.value, p.offset.value + p.limit.GetOr(DefaultLimit) - 1)];
        }
        assert query == [Select("*")] + FilterOps(items).value + OrderOps(p.orderBy).value + PageOps(p.limit, p.offset);
      }
      var result := backend(session, Query(table, query));
      if result.Err? {
        return Err(TableError(QueryFailure, table, result.message));
      }
      r := Ok(result.value);
    }

    /** `insert_record`: the first row the backend returns, or `{}`. */
    function InsertRecord(table: string, data: Row, backend: Backend): (r: Result<Row>)
      reads this
      ensures var res := backend(session, Insert(table, data));
        (res.Ok? ==> r == Ok(FirstOrEmpty(res.value)))
        && (res.Err? ==> r.Err? && StartsWith(r.message, InsertFailure + table) && Contains(r.message, res.message))
    {
      match backend(session, Insert(table, data))
      case Err(m) => Err(TableError(InsertFailure, table, m))
      case Ok(rows) => Ok(FirstOrEmpty(rows))
    }

    /** `update_record`: updates where `id` equals the record id; the first
        row returned, or `{}`. */
    function UpdateRecord(table: string, id: string, data: Row, backend: Backend): (r: Result<Row>)
      reads this
      ensures var res := backend(session, UpdateWhereId(table, data, id));
        (res.Ok? ==> r == Ok(FirstOrEmpty(res.value)))
        && (res.Err? ==> r.Err? && StartsWith(r.message, UpdateFailure + table) && Contains(r.message, res.message))
    {
      match backend(session, UpdateWhereId(table, data, id))
      case Err(m) => Err(TableError(UpdateFailure, table, m))
      case Ok(rows) => Ok(FirstOrEmpty(rows))
    }

    /** `delete_record`: true exactly when at least one row came back. */
    function DeleteRecord(table: string, id: string, backend: Backend): (r: Result<bool>)
      reads this
      ensures var res := backend(session, DeleteWhereId(table, id));
        (res.Ok? ==> r.Ok? && (r.value <==> res.value != []))
        && (res.Err? ==> r.Err? && StartsWith(r.message, DeleteFailure + table) && Contains(r.message, res.message))
    {
      match backend(session, DeleteWhereId(table, id))
      case Err(m) => Err(TableError(DeleteFailure, table, m))
      case Ok(rows) => Ok(|rows| > 0)
    }

    /** `sign_up`: sends `user_data or {}`; returns the user or `{}`. */
    function SignUp(email: string, password: string, userData: Option<Row>, backend: Backend): (r: Result<Row>)
      reads this
      ensures var res := backend(session, AuthSignUp(email, password, userData.GetOr([])));
        (res.Ok? ==> r == Ok(FirstOrEmpty(res.value)))
        && (res.Err? ==> r == Err(SignUpFailure + res.message))
    {
      match backend(session, AuthSignUp(email, password, userData.GetOr([])))
      case Err(m) => Err(SignUpFailure + m)
      case Ok(rows) => Ok(FirstOrEmpty(rows))
    }

    /** `sign_out`: true whenever the SDK call returns. */
    function SignOut(backend: Backend): (r: Result<bool>)
      reads this
      ensures r.Ok? <==> backend(session, AuthSignOut).Ok?
      ensures r.Ok? ==> r.value
      ensures r.Err? ==> r.message == SignOutFailure + backend(session, AuthSignOut).message
    {
      match backend(session, AuthSignOut)
      case Err(m) => Err(SignOutFailure + m)
      case Ok(_) => Ok(true)
    }

    /** `upload_file`: the content type is sent only when one is given. */
    function UploadFile(bucket: string, path: string, file: seq<bv8>, contentType: Option<string>, backend: Backend): (r: Result<seq<Row>>)
      reads this
      ensures Truthy(contentType) ==>
        r == Lift(backend(session, Upload(bucket, path, file, [("content-type", contentType.value)])), UploadFailure)
      ensures !Truthy(contentType) ==>
        r == Lift(backend(session, Upload(bucket, path, file, [])), UploadFailure)
    {
      Lift(backend(session, Upload(bucket, path, file, UploadOptions(contentType))), UploadFailure)
    }
  }

  /** A result passed through, its error re-raised with a prefix. */
  function Lift(res: Result<seq<Row>>, prefix: string): (r: Result<seq<Row>>)
    ensures res.Ok? ==> r == res
    ensures res.Err? ==> r == Err(prefix + res.message)
  {
    match res
    case Ok(rows) => Ok(rows)
    case Err(m) => Err(prefix + m)
  }
}
