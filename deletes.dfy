/** tools/database/deletes.py: the handler of `database_delete` (the same
    handler appears in tools/database.py). */
module Deletes {
  import opened Common
  import opened Client

  const DeletedPrefix: string := "Registro deletado com sucesso da tabela "
  const NotFound: string := "Registro não encontrado"
  const DeleteError: string := "Erro ao deletar registro da tabela "

  /** `execute_delete`: one `delete_record(table, id)` call; success naming
      the table when a row was deleted, exactly "Registro não encontrado"
      when none was, and an error naming the table and the cause otherwise.
      `table` and `id` are read before the `try`. */
  function ExecuteDelete(client: SupabaseClient, args: Args, backend: Backend): (r: Result<seq<Content>>)
    reads client
    ensures args.table.None? ==> r == Err(KeyErrorMessage("table"))
    ensures args.table.Some? && args.id.None? ==> r == Err(KeyErrorMessage("id"))
    ensures args.table.Some? && args.id.Some? ==>
      var table := args.table.value;
      var res := backend(client.session, DeleteWhereId(table, args.id.value));
      r.Ok? && |r.value| == 1 && r.value[0].kind == "text"
      && (res.Ok? && res.value != [] ==> r.value[0].text == DeletedPrefix + table)
      && (res.Ok? && res.value == [] ==> r.value[0].text == NotFound)
      && (res.Err? ==>
            StartsWith(r.value[0].text, DeleteError + table + ": ")
            && Contains(r.value[0].text, res.message))
  {
    if args.table.None? then Err(KeyErrorMessage("table"))
    else if args.id.None? then Err(KeyErrorMessage("id"))
    else
      var table := args.table.value;
      match client.DeleteRecord(table, args.id.value, backend)
      case Ok(found) => Ok(Reply(if found then DeletedPrefix + table else NotFound))
      case Err(m) =>
        var head := DeleteError + table + ": ";
        var cause := backend(client.session, DeleteWhereId(table, args.id.value)).message;
        assert Contains(m, cause);
        ContainsExtend(head, m, "", cause);
        assert head + m + "" == head + m;
        assert (head + m)[..|head|] == head;
        Ok(Reply(head + m))
  }

  /** The three outcomes can be told apart from the text alone: a deletion,
      a missing record and a failure never produce the same text. */
  lemma DeleteOutcomesDistinct(table: string, cause: string)
    ensures DeletedPrefix + table != NotFound
    ensures DeletedPrefix + table != DeleteError + table + ": " + cause
    ensures NotFound != DeleteError + table + ": " + cause
  {
    assert (DeletedPrefix + table)[9] == 'd' && NotFound[9] == 'n';
    assert (DeletedPrefix + table)[0] == 'R' && (DeleteError + table + ": " + cause)[0] == 'E';
    assert NotFound[0] == 'R';
  }
}
