# Supabase MCP server: credential switching, query planning and tool dispatch

This project models a tool server that puts the Supabase SDK behind the Model
Context Protocol. A client lists the server's 24 tools and calls them by name
with a JSON argument dictionary. Each call may carry a tenant's credentials in
one of two places:

- request headers: `x-supabase-project` / `x-supabase-token`, their bare
  variants, or `Authorization: Bearer …`;
- inline `project_code` / `access_token` arguments.

When a call carries credentials, the server switches its Supabase client to
that tenant's project (`https://<project>.supabase.co`). When it carries none,
the server reverts to its default configuration object, which a tenant switch
has overwritten as the code is written (see Findings).

The model covers the parts of the server that have logic of their own:

- **Settings** (`config.py`): how a configuration resolves to a URL, a key and
  a service key, and when constructing one raises.
- **Middleware** (`middleware.py`): header precedence, Bearer stripping, the
  tenant switch and the identity-based revert. `Config` and `SupabaseClient`
  are classes, so the aliasing in the code shows up in the model.
- **Client** (`supabase_client.py`): how a handle is created and re-created,
  and the query that `query_table` builds as a list of abstract operations:
  `select("*")`, the filters in order, an optional order, a limit and a range
  window. It also covers how insert, update, delete, sign-up, sign-out and
  upload results are normalised.
- **Queries, Deletes, Database** (`tools/database/queries.py`,
  `tools/database/deletes.py`, `tools/database.py`): the database tools.
  Inline credentials are fed back to the middleware, then dispatch is by exact
  name. Each handler turns a result or a failure into one text block, while a
  missing required argument escapes as a `KeyError`.
- **Realtime** (`tools/realtime.py`): the subscription registry, an
  insertion-ordered dictionary keyed by table name or `channel_<name>`, and
  the five realtime tools.
- **Server** (`main.py`): the tool list, prefix routing, rebuilding the tool
  sets after a switch, and turning every escaping exception into `"Erro: …"`.

The Supabase SDK is an oracle with two parts:

- A `Connector` stands for `create_client(url, key)`: it either accepts the
  credentials or fails with a message.
- A `Backend` answers each request. It receives the `Session` (the URL and key
  the handle was created with) and the request, and returns the response's rows
  or a failure message.

Because every request carries its session, the model can state which
credentials a call really used. An exception is the `Err(message)` of a
`Result`, where `message` is what `str(e)` prints. An absent dictionary key is
`None`.

## Model

| member | source | states |
|---|---|---|
| Common.UnknownTool | tools/database.py:226-227 | the `ValueError` text for an unknown tool is "Ferramenta desconhecida: " followed by exactly the name |
| Settings.Resolve | config.py:34-49 | with a truthy project code and token, the URL is the tenant URL of that project code and both keys are the token; otherwise all three values are the environment defaults, unchanged |
| Settings.TenantUrlRoundTrip | config.py:39 | the templated URL `https://<project>.supabase.co` gives back its project code |
| Settings.TenantUrlInjective | config.py:39 | two project codes never share a URL |
| Settings.PartialCredentialsAreStatic | config.py:43-49 | with either value missing, the defaults are used verbatim, and it does not matter which of the two was supplied |
| Settings.AdmissibleIgnoresToken | config.py:31-32 | a project code alone is enough to construct; without one, only the default URL decides; the token plays no part |
| Settings.Lower | config.py:26 | `str.lower()` on ASCII letters keeps the length and lowers each letter |
| Settings.DebugFlagSpelling | config.py:26 | DEBUG turns debug on exactly when it spells "true" in any mix of case |
| Settings.Config.constructor | config.py:15-32 | when admissible, stores the project code and token, computes debug from DEBUG, and defaults the log level to "INFO" and the timeout to 30 |
| Settings.Config.Create | config.py:15-32 | raises "Nenhuma configuração do Supabase fornecida" exactly when neither the project code nor the default URL is truthy; otherwise returns a new configuration holding the arguments |
| Settings.Config.SupabaseUrl | config.py:51-54 | the tenant URL in dynamic mode, the default URL otherwise |
| Settings.Config.SupabaseKey | config.py:56-59 | the token in dynamic mode, the default anon key otherwise |
| Settings.Config.SupabaseServiceKey | config.py:61-64 | the token in dynamic mode, the default service key otherwise |
| Settings.Config.IsDynamicConfig | config.py:66-68 | true exactly when the resolved settings are the tenant's; false exactly when they are the defaults |
| Settings.Config.IsProduction | config.py:26-72 | production exactly when DEBUG does not spell "true"; an unset DEBUG means production |
| Client.Connect | supabase_client.py:18-30 | creates a session exactly when the URL and key are both truthy and the SDK accepts them; the session is bound to that URL and key; every failure message starts with "Erro ao inicializar cliente Supabase: ", and a missing URL or key gives "URL ou chave do Supabase não configuradas" |
| Client.TenantConnect | supabase_client.py:18-30 | a tenant's credentials always reach the SDK; only the SDK can refuse them, and the session is the tenant URL with the token |
| Client.FilterOpsInOrder | supabase_client.py:45-47 | one filter op per entry, in list order, carrying that entry's column, operator and value; the fold fails exactly when some entry lacks a key, and then with the message of the first such entry |
| Client.FilterOpsFailureSticks | supabase_client.py:45-47 | once a prefix of the filter list fails, the whole list fails with the same message |
| Client.PlanStartsWithSelectAll | supabase_client.py:41-43 | every query starts with `select("*")`; without parameters it is the only op |
| Client.PlanFiltersThenOrder | supabase_client.py:43-51 | the filters follow the select in list order; an order op follows them only when `order_by` is given, with `desc` defaulting to false |
| Client.PlanWindow | supabase_client.py:54-57 | with an offset, the last op is `range(offset, offset + limit - 1)` with the limit defaulting to 100, right after `limit(limit)` when a limit is given |
| Client.WindowExample | supabase_client.py:54-57 | limit 10 with offset 20 asks for rows 20 to 29 |
| Client.TableError | supabase_client.py:62-63 | a re-raised failure names the operation and the table and contains the cause |
| Client.FirstOrEmpty | supabase_client.py:69 | the first returned row, or `{}` when none came back |
| Client.SupabaseClient.Open | supabase_client.py:13-16 | raises exactly when initialisation raises; otherwise the new client reads the very configuration object it was given, and its session is bound to that configuration's URL and key |
| Client.SupabaseClient.Initialize | supabase_client.py:18-30 | on success replaces the handle with the one for the current settings; on failure raises and keeps the old handle |
| Client.SupabaseClient.UpdateConfig | supabase_client.py:32-36 | writes the project code and token into the shared configuration object (even when reinitialising then fails), and reconnects with the tenant's URL and token |
| Client.SupabaseClient.QueryTable | supabase_client.py:38-63 | the loop over the filters issues exactly the planned query on this client's session; a malformed filter or order, or a backend failure, raises the error naming the table |
| Client.SupabaseClient.InsertRecord | supabase_client.py:65-71 | the first inserted row or `{}`; a failure raises an error naming the table and containing the cause |
| Client.SupabaseClient.UpdateRecord | supabase_client.py:73-79 | updates where `id` matches; the first row or `{}`; a failure raises an error naming the table and containing the cause |
| Client.SupabaseClient.DeleteRecord | supabase_client.py:81-87 | true exactly when at least one row came back; a failure raises an error naming the table and containing the cause |
| Client.SupabaseClient.SignUp | supabase_client.py:89-101 | sends the user data or `{}`; returns the user or `{}`; a failure raises "Erro ao registrar usuário: " plus the cause |
| Client.SupabaseClient.SignOut | supabase_client.py:114-120 | true exactly when the SDK call succeeds; a failure raises "Erro ao fazer logout: " plus the cause |
| Client.SupabaseClient.UploadFile | supabase_client.py:122-132 | the content type is sent as file options only when it is truthy; a failure raises "Erro ao fazer upload do arquivo: " plus the cause |
| Middleware.ProjectPrecedence | middleware.py:39-44 | `x-supabase-project` wins; `supabase-project` is read only when it is falsy |
| Middleware.TokenPrecedence | middleware.py:40-52 | `x-supabase-token`, then `supabase-token`, then `authorization`; at the last step a token is found exactly when that header starts with "Bearer " and has more after it |
| Middleware.BearerStripping | middleware.py:49-52 | "Bearer " followed by a token yields exactly that token; an `authorization` value without the prefix yields no token |
| Middleware.BearerExample | middleware.py:49-52 | "Bearer abc123" yields "abc123" |
| Middleware.DynamicConfigMiddleware.Create | middleware.py:16-19 | both current fields start at the default configuration, and the first client reads that very object |
| Middleware.DynamicConfigMiddleware.UpdateConfigFromHeaders | middleware.py:35-77 | as written. For a tenant: a fresh current configuration; the same client object with the tenant's credentials written into the default configuration; true exactly when the SDK accepts them. Without a tenant: false; nothing changes if the current configuration is already the default object; otherwise a revert, with a new client only when its creation succeeds. Keeps the invariant that the client reads the default configuration object |
| Middleware.DynamicConfigMiddleware.UpdateConfigFromHeadersIsolated | middleware.py:55-73 | corrected switch: the default configuration is never written; a tenant's configuration and client are installed together, and only when the client could be created; a revert restores the default configuration with a client bound to it |
| Middleware.DynamicConfigMiddleware.GetCurrentClient | middleware.py:79-81 | the current client, nothing changed |
| Middleware.DynamicConfigMiddleware.GetCurrentConfig | middleware.py:83-85 | the current configuration, nothing changed |
| Middleware.RevertKeepsTenantAsWritten | middleware.py:66-73 | as written, after a switch to "acme" and a call without credentials, the reverted configuration still resolves to https://acme.supabase.co and the client still uses acme's token |
| Middleware.RevertRestoresDefaultIsolated | middleware.py:66-73 | with the corrected switch, the same two calls resolve to the default URL and anon key again |
| Queries.ExecuteQuery | tools/database/queries.py:3-15 | a missing `sql` raises `KeyError('sql')`; otherwise one text block: on success it contains "sucesso" and the data, on failure it starts with "Erro ao executar query: " and contains the cause |
| Queries.SuccessWord | tools/database/queries.py:9 | both success texts contain the word "sucesso" |
| Queries.ExecuteQueryIssuesExecSql | tools/database/queries.py:6 | the reply depends only on the backend's answer to `rpc("exec_sql", {"sql_query": sql})` with the SQL unchanged |
| Queries.SelectParams | tools/database/queries.py:19-28 | filters, limit and offset are always present; limit defaults to 100 and offset to 0; no order |
| Queries.SelectAlwaysWindowed | tools/database/queries.py:21-29 | every select ends with `limit` and then the range window; with no arguments, rows 0 to 99 |
| Queries.ColumnsIgnored | tools/database/queries.py:19 | the requested columns make no difference to the query |
| Queries.ExecuteSelect | tools/database/queries.py:17-38 | a missing `table` raises `KeyError('table')`; otherwise one text block: on success it reports the number of records and contains them, on failure it names the table and contains the cause |
| Deletes.ExecuteDelete | tools/database/deletes.py:3-16 | a missing `table` or `id` raises `KeyError`; otherwise one text block: a success naming the table when a row was deleted, exactly "Registro não encontrado" when none was, and an error naming the table and containing the cause |
| Deletes.DeleteOutcomesDistinct | tools/database/deletes.py:8-16 | the three outcome texts never coincide |
| Database.ExecuteInsert | tools/database.py:272-287 | a missing `table` or `data` raises `KeyError`; otherwise one text block: success naming the table with the row, or an error naming the table and containing the cause |
| Database.ExecuteUpdate | tools/database.py:289-305 | a missing `table`, `id` or `data` raises `KeyError`; otherwise one text block: success naming the table with the row, or an error naming the table and containing the cause |
| Database.TableNames | tools/database.py:336 | one name per row, in order; succeeds exactly when every row has `table_name`, and otherwise raises `KeyError('table_name')` |
| Database.ExecuteListTables | tools/database.py:324-346 | never raises: exactly the header followed by the table names in row order joined by ", ", or "Erro ao listar tabelas: " with the cause, including a row without `table_name` |
| Database.ListTablesExample | tools/database.py:336-341 | one table "users" is listed as exactly that name under the header |
| Database.Handle | tools/database.py:212-225 | among the seven tools, only a required-argument lookup escapes, as one of the four `KeyError`s |
| Database.ToolReply | tools/database.py:212-227 | the unknown-tool `ValueError` is raised exactly for names outside the seven; any other escaping error is a `KeyError` |
| Database.ToolReplyRoutes | tools/database.py:219-227 | names are matched exactly: delete and project-info go to their handlers, and a differently cased name is unknown |
| Database.CredentialHeaders | tools/database.py:203-206 | inline credentials reach the middleware as the `x-supabase-project` / `x-supabase-token` headers it reads first |
| Database.DatabaseTools.ExecuteTool | tools/database.py:197-227 | without both inline credentials the middleware is untouched (no revert). With them, the current configuration is a fresh one holding the tenant's project code and token, the shared default configuration is overwritten with them too, and the same client is bound to the tenant's URL and token when the SDK accepts them (its old session otherwise). The reply is the dispatch on the client read after that update |
| Realtime.Put | tools/realtime.py:133 | assigning a key keeps its place when the key is present and appends it when it is new; every other entry is unchanged; the registry stays well formed |
| Realtime.RemoveKey | tools/realtime.py:152 | the key list without that key, every other key kept |
| Realtime.RemoveKeyKeepsOrder | tools/realtime.py:152 | in a list of distinct keys, deleting the key at position i leaves exactly the keys before it followed by the keys after it, in their order |
| Realtime.RemoveKeyDistinct | tools/realtime.py:152 | removing a key keeps the remaining keys distinct |
| Realtime.RemoveKeyAppended | tools/realtime.py:152 | removing a key just appended restores the key list |
| Realtime.Drop | tools/realtime.py:152 | deleting a key removes exactly that entry and keeps the registry well formed |
| Realtime.PutThenDrop | tools/realtime.py:133-152 | adding a new key and deleting it restores the registry |
| Realtime.ListText | tools/realtime.py:168-180 | "Inscrições ativas: " followed by the keys in insertion order joined by ", " (so every key appears), or "Nenhuma" when the registry is empty |
| Realtime.AppliedFilter | tools/realtime.py:120-130 | a filter is applied exactly when the filter string is non-empty |
| Realtime.Subscribe | tools/realtime.py:116-143 | corrected (callback defined): a missing `table` raises; the handle is stored under the table only after the SDK call succeeds, with the event defaulting to "*"; a failure leaves the registry as it was |
| Realtime.Unsubscribe | tools/realtime.py:145-166 | a present key is deleted with a success text; an absent key leaves the registry as it is and answers "Nenhuma inscrição encontrada para tabela …" |
| Realtime.Broadcast | tools/realtime.py:182-197 | a missing `channel` or `message` raises; otherwise the success or error text of one send |
| Realtime.ChannelKey | tools/realtime.py:212 | a channel is registered under "channel_" followed by its name |
| Realtime.SubscribeChannel | tools/realtime.py:199-222 | corrected (callback defined): a missing `channel` raises; the handle is stored under "channel_" + channel only after the SDK call succeeds; a failure leaves the registry as it was |
| Realtime.Dispatch | tools/realtime.py:101-114 | with the corrected subscription handlers: exact-name dispatch among the five tools, with `ValueError` otherwise; only the three subscription tools change the registry, and the registry stays well formed |
| Realtime.SubscribeThenUnsubscribe | tools/realtime.py:116-166 | corrected (callbacks defined): subscribing to a new table and then unsubscribing restores the registry |
| Realtime.SubscribedTableIsListed | tools/realtime.py:116-180 | corrected (callbacks defined): a subscribed table appears in the listing; an empty registry lists "Nenhuma" |
| Realtime.SubscribeAsWritten | tools/realtime.py:116-143 | as written: the undefined callback raises before the SDK is asked, so the reply is always the error text and nothing is stored |
| Realtime.SubscribeChannelAsWritten | tools/realtime.py:199-222 | as written: the undefined callback raises, so the reply is always the error text and nothing is stored |
| Realtime.SubscriptionsNeverStoredAsWritten | tools/realtime.py:126-133 | where the SDK would accept a subscription, the code as written stores nothing, and a later unsubscribe answers "Nenhuma inscrição encontrada" |
| Realtime.RealtimeTools.constructor | tools/realtime.py:14-17 | the client is fixed at construction and the registry starts empty |
| Realtime.RealtimeTools.ExecuteTool | tools/realtime.py:101-222 | with the corrected subscription handlers: updates `subscriptions` in place to exactly the registry `Dispatch` computes, returns its reply, and keeps the registry well formed |
| Server.Route | main.py:98-111 | each of the four prefixes selects its tool set, and at most one applies |
| Server.ListTools | main.py:65-81 | 24 names: the database, authentication, storage and realtime lists, in that order |
| Server.ListedToolsRouteHome | main.py:65-111 | every listed tool is routed to the tool set that lists it |
| Server.Render | main.py:116-121 | a reply passes through; an exception becomes one text block "Erro: " followed by its message |
| Server.AcmeCall | main.py:90 | a `headers` argument naming "acme" with a token requests a switch to that tenant, without inline credentials |
| Server.AcmeListsUsers | tools/database.py:324-346 | on acme's session, listing tables yields "users" |
| Server.SupabaseMCPServer.constructor | main.py:53 | the database tool set is built over the shared middleware |
| Server.SupabaseMCPServer.RouteCall | main.py:97-121 | database, authentication, storage and realtime names reach their tool sets (realtime calls the corrected subscription handlers); any other name gives "Erro: Ferramenta desconhecida: <name>"; only database calls with inline credentials touch the middleware, leaving the tenant's credentials in a fresh current configuration and in the default one, with the answering session bound to the tenant when the SDK accepts it; only realtime calls touch the registry |
| Server.SupabaseMCPServer.HandleCallTool | main.py:84-121 | as written, except that realtime calls run the corrected subscription handlers: after a switch, the middleware holds the tenant in a fresh current configuration and in the default one, with the tenant's session, and the call ends in the `AuthTools` `TypeError` text without being dispatched. Without a switch it is routed as usual: with no tenant headers, and unless it is a database call with inline credentials, the current configuration is the default object again (unchanged); with headers the SDK refused, the tenant is still written into both configurations and the old session kept. A revert from a tenant replaces the client by one built from the default object as it stood before the call when the SDK accepts it (its session is then the one answering the call), and keeps the old client and session otherwise; with no tenant before, client and session are untouched. A database call whose inline credentials the SDK accepts is answered on that tenant's session; when the SDK refuses them it is answered on the session the header step left: the old one after refused headers, the reverted client's without headers |
| Server.SupabaseMCPServer.Rebuild | main.py:90-95 | corrected: the tool sets are rebuilt only after a switch; the realtime set is then bound to the tenant's client and starts with an empty registry. Any tenant request leaves its credentials in a fresh current configuration and in the default one; without one, the current configuration is the default object, and a revert from a tenant installs a client built from that object when the SDK accepts it, keeping the old client and session otherwise |
| Server.SupabaseMCPServer.HandleCallToolRebuilt | main.py:84-121 | corrected (and with the corrected subscription handlers for realtime calls): after a switch, the tool sets are rebuilt and the call runs on the header tenant's session unless it is a database call with inline credentials; otherwise it is routed as usual. States the middleware's configurations after header and inline switches, the tenant session answering a database call with inline credentials the SDK accepts, and after a revert the client built from the default object as it stood before the call (or the old one when the SDK refuses). When the SDK refuses inline credentials, the call is answered on the session the header step left: the header tenant's after a switch, the old one after refused headers, the reverted client's without headers |
| Server.TenantCallAsWritten | main.py:91-95 | as written, a tenant's `database_list_tables` call answers "Erro: AuthTools.__init__() missing 1 required positional argument: 'supabase_client'" |
| Server.TenantCallRebuilt | main.py:91-95 | corrected, the same call lists the tenant's table "users" |

## Left out

- The Supabase SDK: `create_client`, the query builder, `.rpc`, `.auth`, `.storage`, `.channel` and `.execute()`. It is the `Connector` / `Backend` oracle, which answers each request as a whole.
- The authentication and storage tool sets (tools/auth.py, tools/storage.py) are SDK pass-throughs. Routing reaches them as an opaque `Delegate`.
- `sign_in` and `download_file` (supabase_client.py:103-112, 134-140) are used only by those tool sets.
- Environment loading (`load_dotenv`, `os.getenv`, `int(...)`). The environment is an `Env` value with `REQUEST_TIMEOUT` already parsed.
- Settings.Lower covers ASCII letters only: Unicode case mapping is not modelled.
- A tenant `Config` built during a switch reads the same environment as the default configuration.
- Data rendering: Python's `repr` of dictionaries and lists (quoting and escaping) is approximated by `ShowRow` / `ShowRows`.
- Argument values are strings, rows or lists as the tool schemas describe them. JSON `null` and wrongly typed values are not modelled, and neither are the tool schemas themselves (`ListTools` lists names only).
- Database.ListTablesSql keeps the SQL text with its whitespace condensed.
- `_execute_get_project_info` is modelled as its constant reply: `SupabaseClient` has no `get_project_info`, so the `AttributeError` text is the only outcome.
- Realtime.Subscribe, Realtime.SubscribeChannel, Realtime.Dispatch, Realtime.RealtimeTools.ExecuteTool, Server.SupabaseMCPServer.RouteCall, Server.SupabaseMCPServer.HandleCallTool and Server.SupabaseMCPServer.HandleCallToolRebuilt model the subscription handlers with their callbacks defined: as written nothing is ever stored (see Findings). A realtime call routed through the server therefore stores its subscription, which the code as written never does.
- Realtime.SubscribeAsWritten and Realtime.SubscribeChannelAsWritten use the `AttributeError` message of the missing callback. If the SDK object has no `.on`, the lookup of `.on` fails first, with the SDK's own message. Either way the reply is the error text and nothing is stored.
- The realtime callbacks themselves (`_handle_table_change`, `_handle_channel_message`) and message delivery: they are not part of the code.
- `extract_headers_from_request` (middleware.py:21-33) probes attributes of an arbitrary request object.
- Logging, the stdio transport and `main()` are not modelled.
- `SupabaseMCPServer.__init__` (main.py:44-59) as written raises the `TypeError` of `AuthTools(self.middleware)` at main.py:55, since `AuthTools` and `RealtimeTools` take a configuration and a client. `StorageTools` takes only a configuration, but it would fail too, because it builds `SupabaseClient(middleware)`. Server.SupabaseMCPServer.constructor instead takes the realtime tool set as built.
- main_fastapi.py: the HTTP front end and its concurrent calls over one shared middleware. Only sequential calls are modelled.
- tools/database/inserts.py, updates.py and tables.py repeat handlers that are modelled from tools/database.py.
- tools/tools/database_tools.py is a second dispatcher that fails on every call with a `NameError`.
- tools/__init__.py and n8n_example.js have no logic of their own.
- Queries.ExecuteQuery and Queries.ExecuteSelect state that the data appears in the success text (containment). They do not state its exact rendering, since the rendering is approximate.

## Findings

| source | as written | input that shows it | evidently intended | confidence | as-written member | corrected member |
|---|---|---|---|---|---|---|
| middleware.py:19, 63 and supabase_client.py:34-35 | the first client is built from `default_config` itself, and a tenant switch writes the tenant's project code and token into that client's configuration, so the default configuration is overwritten | headers `x-supabase-project: acme`, `x-supabase-token: tok`, then a call without credentials: the "revert" resolves to https://acme.supabase.co with token "tok" | a switch leaves the defaults intact, so a revert restores the default project | not executed | Middleware.RevertKeepsTenantAsWritten | Middleware.DynamicConfigMiddleware.UpdateConfigFromHeadersIsolated |
| main.py:93 and tools/auth.py:14 | after a switch, `AuthTools(self.middleware)` is called with one argument, but its constructor takes a configuration and a client | as written the server never starts: `__init__` raises the same `TypeError` at main.py:55. With the constructor repaired (the model's takes the built tool sets), any call whose headers switch to a tenant, e.g. `database_list_tables` for "acme": the reply is "Erro: AuthTools.__init__() missing 1 required positional argument: 'supabase_client'" and the tool never runs | the tool sets are rebuilt with the arguments their constructors take, and the call runs on the tenant's project | not executed | Server.TenantCallAsWritten | Server.SupabaseMCPServer.HandleCallToolRebuilt |
| tools/realtime.py:126 and 208 | the subscription handlers pass `self._handle_table_change` and `self._handle_channel_message`, which `RealtimeTools` never defines | `realtime_subscribe` with table "users" on an SDK that accepts it: the reply is "Erro ao criar inscrição: …" and the registry stays empty | the handle is stored under the table (or `channel_<name>`) and listed | not executed | Realtime.SubscriptionsNeverStoredAsWritten | Realtime.Subscribe |
