/** tools/realtime.py: the realtime tool set and its subscription registry.
    The registry is the `subscriptions` dictionary, keyed by table name or
    by "channel_" + channel name, kept in insertion order as Python
    dictionaries are. The tool set is bound to one client, fixed when it is
    built. */
module Realtime {
  import opened Common
  import opened Settings
  import opened Client

  const RealtimeToolNames: seq<string> := [
    "realtime_subscribe", "realtime_unsubscribe", "realtime_list_subscriptions",
    "realtime_broadcast", "realtime_subscribe_channel"]

  const SubscribedPrefix: string := "Inscrição criada com sucesso para tabela "
  const EventInfix: string := ", evento "
  const SubscribeError: string := "Erro ao criar inscrição: "
  const RemovedPrefix: string := "Inscrição removida com sucesso para tabela "
  const NotSubscribedPrefix: string := "Nenhuma inscrição encontrada para tabela "
  const ActivePrefix: string := "Inscrições ativas: "
  const NoneActive: string := "Nenhuma"
  const SentPrefix: string := "Mensagem enviada com sucesso para o canal "
  const SendError: string := "Erro ao enviar mensagem: "
  const ChannelSubscribedPrefix: string := "Inscrição criada com sucesso para o canal "
  const ChannelError: string := "Erro ao criar inscrição no canal: "

  /** What a stored handle was created for, and on which session. */
  datatype Subscription =
    | TableSubscription(session: Session, table: string, event: string, filter: Option<string>)
    | ChannelSubscription(session: Session, channel: string)

  /** An insertion-ordered dictionary: the keys in order and their values. */
  datatype Registry = Registry(keys: seq<string>, handles: map<string, Subscription>)

  const EmptyRegistry: Registry := Registry([], map[])

  /** Each key listed once, and exactly the keys that have a value. */
  ghost predicate ValidRegistry(r: Registry) {
    (forall i, j :: 0 <= i < j < |r.keys| ==> r.keys[i] != r.keys[j])
    && (forall k :: k in r.handles <==> k in r.keys)
  }

  /** `d[key] = value`: an overwritten key keeps its place, a new key goes
      last; every other entry is kept. */
  function Put(r: Registry, key: string, value: Subscription): (s: Registry)
    ensures key in s.handles && s.handles[key] == value
    ensures forall k :: k != key ==> (k in s.handles <==> k in r.handles)
    ensures forall k :: k != key && k in r.handles ==> s.handles[k] == r.handles[k]
    ensures |s.keys| >= |r.keys| && s.keys[..|r.keys|] == r.keys
    ensures ValidRegistry(r) ==> ValidRegistry(s)
    ensures ValidRegistry(r) && key in r.handles ==> s.keys == r.keys
    ensures key !in r.handles ==> s.keys == r.keys + [key]
  {
    var s := Registry(if key in r.handles then r.keys else r.keys + [key], r.handles[key := value]);
    assert s.keys[..|r.keys|] == r.keys;
    s
  }

  /** The list without `key`, the others in their order. */
  function RemoveKey(keys: seq<string>, key: string): (t: seq<string>)
    ensures forall k :: k in t <==> k in keys && k != key
    ensures key !in keys ==> t == keys
    ensures |t| <= |keys|
  {
    if |keys| == 0 then []
    else if keys[0] == key then RemoveKey(keys[1..], key)
    else [keys[0]] + RemoveKey(keys[1..], key)
  }

  /** Removing a key keeps the other keys distinct. */
  lemma {:induction false} RemoveKeyDistinct(keys: seq<string>, key: string)
    requires forall i, j :: 0 <= i < j < |keys| ==> keys[i] != keys[j]
    ensures forall i, j :: 0 <= i < j < |RemoveKey(keys, key)| ==> RemoveKey(keys, key)[i] != RemoveKey(keys, key)[j]
    decreases |keys|
  {
    if |keys| > 0 {
      var tail := keys[1..];
      assert forall i, j :: 0 <= i < j < |tail| ==> tail[i] != tail[j] by {
        forall i, j | 0 <= i < j < |tail| ensures tail[i] != tail[j] {
          assert tail[i] == keys[i + 1] && tail[j] == keys[j + 1];
        }
      }
      RemoveKeyDistinct(tail, key);
      if keys[0] != key {
        var t := RemoveKey(keys, key);
        var rest := RemoveKey(tail, key);
        assert t == [keys[0]] + rest;
        assert keys[0] !in tail by {
          forall j | 0 <= j < |tail| ensures tail[j] != keys[0] {
            assert tail[j] == keys[j + 1];
          }
        }
        forall i, j | 0 <= i < j < |t| ensures t[i] != t[j] {
          if i == 0 {
            assert t[j] == rest[j - 1];
            assert rest[j - 1] in rest;
            assert rest[j - 1] in tail;
          } else {
            assert t[i] == rest[i - 1] && t[j] == rest[j - 1];
          }
        }
      }
    }
  }

  /** In a list of distinct keys, removing the key at position `i` cuts out
      exactly that position: the keys before and after it keep their order. */
  lemma {:induction false} RemoveKeyKeepsOrder(keys: seq<string>, i: int)
    requires forall p, q :: 0 <= p < q < |keys| ==> keys[p] != keys[q]
    requires 0 <= i < |keys|
    ensures RemoveKey(keys, keys[i]) == keys[..i] + keys[i + 1..]
    decreases i
  {
    var key, tail := keys[i], keys[1..];
    if i == 0 {
      assert key !in tail by {
        forall j | 0 <= j < |tail| ensures tail[j] != key {
          assert tail[j] == keys[j + 1];
        }
      }
    } else {
      assert forall p, q :: 0 <= p < q < |tail| ==> tail[p] != tail[q] by {
        forall p, q | 0 <= p < q < |tail| ensures tail[p] != tail[q] {
          assert tail[p] == keys[p + 1] && tail[q] == keys[q + 1];
        }
      }
      assert tail[i - 1] == key && keys[0] != key;
      RemoveKeyKeepsOrder(tail, i - 1);
      assert keys[..i] == [keys[0]] + tail[..i - 1];
      assert keys[i + 1..] == tail[i..];
    }
  }

  /** Removing a key just appended gives back the original list. */
  lemma {:induction false} RemoveKeyAppended(keys: seq<string>, key: string)
    requires key !in keys
    ensures RemoveKey(keys + [key], key) == keys
    decreases |keys|
  {
    if |keys| == 0 {
      assert [key][1..] == [];
    } else {
      assert (keys + [key])[1..] == keys[1..] + [key];
      RemoveKeyAppended(keys[1..], key);
      assert [keys[0]] + keys[1..] == keys;
    }
  }

  /** `del d[key]`: that entry goes, every other one is kept. */
  function Drop(r: Registry, key: string): (s: Registry)
    ensures key !in s.handles
    ensures forall k :: k != key ==> (k in s.handles <==> k in r.handles)
    ensures forall k :: k != key && k in r.handles ==> s.handles[k] == r.handles[k]
    ensures ValidRegistry(r) ==> ValidRegistry(s)
    ensures ValidRegistry(r) && key !in r.handles ==> s == r
  {
    var s := Registry(RemoveKey(r.keys, key), r.handles - {key});
    assert ValidRegistry(r) ==> ValidRegistry(s) by {
      if ValidRegistry(r) {
        RemoveKeyDistinct(r.keys, key);
        assert forall k :: k in s.handles <==> k in s.keys;
      }
    }
    assert ValidRegistry(r) && key !in r.handles ==> s == r by {
      if ValidRegistry(r) && key !in r.handles {
        assert r.handles - {key} == r.handles;
      }
    }
    s
  }

  /** Adding a new key and removing it again restores the registry. */
  lemma {:induction false} PutThenDrop(r: Registry, key: string, value: Subscription)
    requires ValidRegistry(r) && key !in r.handles
    ensures Drop(Put(r, key, value), key) == r
  {
    RemoveKeyAppended(r.keys, key);
    assert r.handles[key := value] - {key} == r.handles;
  }

  /** The text of `realtime_list_subscriptions`: the keys in insertion
      order joined by ", ", or "Nenhuma". */
  function ListText(r: Registry): (text: string)
    ensures StartsWith(text, ActivePrefix)
    ensures r.keys == [] ==> text == ActivePrefix + NoneActive
    ensures r.keys != [] ==> text == ActivePrefix + Join(r.keys, ", ")
    ensures forall i :: 0 <= i < |r.keys| ==> Contains(text, r.keys[i])
  {
    var text := ActivePrefix + (if r.keys == [] then NoneActive else Join(r.keys, ", "));
    assert text[..|ActivePrefix|] == ActivePrefix;
    assert forall i :: 0 <= i < |r.keys| ==> Contains(text, r.keys[i]) by {
      forall i | 0 <= i < |r.keys| ensures Contains(text, r.keys[i]) {
        JoinContains(r.keys, ", ", i);
        ContainsExtend(ActivePrefix, Join(r.keys, ", "), "", r.keys[i]);
        assert ActivePrefix + Join(r.keys, ", ") + "" == text;
      }
    }
    text
  }

  /** The registry after a call, and the call's reply. */
  datatype Step = Step(registry: Registry, reply: Result<seq<Content>>)

  /** The filter `_execute_subscribe` applies: only a non-empty one. */
  function AppliedFilter(filter: Option<string>): (f: Option<string>)
    ensures f.Some? <==> Truthy(filter)
    ensures f.Some? ==> f == filter
  {
    if Truthy(filter) then filter else None
  }

  /** `_execute_subscribe`, with its callback defined: the handle is stored
      under the table name, and only once the SDK call has succeeded; the
      event defaults to "*". */
  function Subscribe(reg: Registry, session: Session, args: Args, backend: Backend): (s: Step)
    ensures args.table.None? ==> s == Step(reg, Err(KeyErrorMessage("table")))
    ensures args.table.Some? ==>
      var table, event := args.table.value, args.event.GetOr("*");
      var res := backend(session, OnTable(table, event, AppliedFilter(args.filter)));
      (res.Ok? ==>
         s.registry == Put(reg, table, TableSubscription(session, table, event, AppliedFilter(args.filter)))
         && s.reply == Ok(Reply(SubscribedPrefix + table + EventInfix + event)))
      && (res.Err? ==> s.registry == reg && s.reply == Ok(Reply(SubscribeError + res.message)))
  {
    if args.table.None? then Step(reg, Err(KeyErrorMessage("table")))
    else
      var table, event := args.table.value, args.event.GetOr("*");
      var filter := AppliedFilter(args.filter);
      match backend(session, OnTable(table, event, filter))
      case Err(m) => Step(reg, Ok(Reply(SubscribeError + m)))
      case Ok(_) =>
        Step(Put(reg, table, TableSubscription(session, table, event, filter)),
             Ok(Reply(SubscribedPrefix + table + EventInfix + event)))
  }

  /** `_execute_unsubscribe`: deletes exactly that key when present; an
      absent key leaves the registry as it is. */
  function Unsubscribe(reg: Registry, args: Args): (s: Step)
    ensures args.table.None? ==> s == Step(reg, Err(KeyErrorMessage("table")))
    ensures args.table.Some? && args.table.value in reg.handles ==>
      s.registry == Drop(reg, args.table.value) && s.reply == Ok(Reply(RemovedPrefix + args.table.value))
    ensures args.table.Some? && args.table.value !in reg.handles ==>
      s.registry == reg && s.reply == Ok(Reply(NotSubscribedPrefix + args.table.value))
  {
    if args.table.None? then Step(reg, Err(KeyErrorMessage("table")))
    else if args.table.value in reg.handles then
      Step(Drop(reg, args.table.value), Ok(Reply(RemovedPrefix + args.table.value)))
    else
      Step(reg, Ok(Reply(NotSubscribedPrefix + args.table.value)))
  }

  /** `_execute_broadcast`: sends the message on the channel; `channel` and
      `message` are read before the `try`. */
  function Broadcast(session: Session, args: Args, backend: Backend): (r: Result<seq<Content>>)
    ensures args.channel.None? ==> r == Err(KeyErrorMessage("channel"))
    ensures args.channel.Some? && args.message.None? ==> r == Err(KeyErrorMessage("message"))
    ensures args.channel.Some? && args.message.Some? ==>
      var res := backend(session, Send(args.channel.value, args.message.value));
      (res.Ok? ==> r == Ok(Reply(SentPrefix + args.channel.value)))
      && (res.Err? ==> r == Ok(Reply(SendError + res.message)))
  {
    if args.channel.None? then Err(KeyErrorMessage("channel"))
    else if args.message.None? then Err(KeyErrorMessage("message"))
    else
      match backend(session, Send(args.channel.value, args.message.value))
      case Err(m) => Ok(Reply(SendError + m))
      case Ok(_) => Ok(Reply(SentPrefix + args.channel.value))
  }

  /** The registry key of a channel subscription. */
  function ChannelKey(channel: string): (k: string)
    ensures StartsWith(k, "channel_") && k[|"channel_"|..] == channel
  {
    "channel_" + channel
  }

  /** `_execute_subscribe_channel`, with its callback defined: the handle
      is stored under "channel_" + channel once the SDK call has succeeded. */
  function SubscribeChannel(reg: Registry, session: Session, args: Args, backend: Backend): (s: Step)
    ensures args.channel.None? ==> s == Step(reg, Err(KeyErrorMessage("channel")))
    ensures args.channel.Some? ==>
      var channel := args.channel.value;
      var res := backend(session, OnChannel(channel));
      (res.Ok? ==>
         s.registry == Put(reg, ChannelKey(channel), ChannelSubscription(session, channel))
         && s.reply == Ok(Reply(ChannelSubscribedPrefix + channel)))
      && (res.Err? ==> s.registry == reg && s.reply == Ok(Reply(ChannelError + res.message)))
  {
    if args.channel.None? then Step(reg, Err(KeyErrorMessage("channel")))
    else
      var channel := args.channel.value;
      match backend(session, OnChannel(channel))
      case Err(m) => Step(reg, Ok(Reply(ChannelError + m)))
      case Ok(_) =>
        Step(Put(reg, ChannelKey(channel), ChannelSubscription(session, channel)),
             Ok(Reply(ChannelSubscribedPrefix + channel)))
  }

  /** `execute_tool`: exact-name dispatch over the five tools, with the
      corrected subscription handlers (`Subscribe`, `SubscribeChannel`,
      callbacks defined). Only the three subscription tools can change the
      registry, and every call keeps it well formed. */
  function Dispatch(reg: Registry, session: Session, name: string, args: Args, backend: Backend): (s: Step)
    ensures name !in RealtimeToolNames ==> s == Step(reg, Err(UnknownTool(name)))
    ensures name !in ["realtime_subscribe", "realtime_unsubscribe", "realtime_subscribe_channel"] ==> s.registry == reg
    ensures ValidRegistry(reg) ==> ValidRegistry(s.registry)
  {
    if name == "realtime_subscribe" then Subscribe(reg, session, args, backend)
    else if name == "realtime_unsubscribe" then Unsubscribe(reg, args)
    else if name == "realtime_list_subscriptions" then Step(reg, Ok(Reply(ListText(reg))))
    else if name == "realtime_broadcast" then Step(reg, Broadcast(session, args, backend))
    else if name == "realtime_subscribe_channel" then SubscribeChannel(reg, session, args, backend)
    else Step(reg, Err(UnknownTool(name)))
  }

  /** A successful subscription to a new table, then an unsubscription from
      it, leaves the registry as it was. */
  lemma {:induction false} SubscribeThenUnsubscribe(reg: Registry, session: Session, args: Args, backend: Backend)
    requires ValidRegistry(reg) && args.table.Some? && args.table.value !in reg.handles
    requires backend(session, OnTable(args.table.value, args.event.GetOr("*"), AppliedFilter(args.filter))).Ok?
    ensures var after := Dispatch(reg, session, "realtime_subscribe", args, backend).registry;
      args.table.value in after.handles
      && Dispatch(after, session, "realtime_unsubscribe", args, backend).registry == reg
  {
    var table := args.table.value;
    var sub := TableSubscription(session, table, args.event.GetOr("*"), AppliedFilter(args.filter));
    PutThenDrop(reg, table, sub);
  }

  /** A subscribed table is listed, and an empty registry lists "Nenhuma". */
  lemma {:induction false} SubscribedTableIsListed(reg: Registry, session: Session, args: Args, backend: Backend)
    requires ValidRegistry(reg) && args.table.Some?
    requires backend(session, OnTable(args.table.value, args.event.GetOr("*"), AppliedFilter(args.filter))).Ok?
    ensures var after := Dispatch(reg, session, "realtime_subscribe", args, backend).registry;
      Dispatch(after, session, "realtime_list_subscriptions", args, backend).reply.Ok?
      && Contains(Dispatch(after, session, "realtime_list_subscriptions", args, backend).reply.value[0].text, args.table.value)
    ensures Dispatch(EmptyRegistry, session, "realtime_list_subscriptions", args, backend).reply
      == Ok(Reply(ActivePrefix + NoneActive))
  {
    var after := Dispatch(reg, session, "realtime_subscribe", args, backend).registry;
    var table := args.table.value;
    assert ValidRegistry(after) && table in after.handles;
    var i :| 0 <= i < |after.keys| && after.keys[i] == table;
    assert Contains(ListText(after), after.keys[i]);
  }

  // -----------------------------------------------------------------------
  // The subscription handlers as written

  /** The callbacks the two subscription handlers pass are never defined on
      `RealtimeTools`, so evaluating the argument raises `AttributeError`
      before the SDK is asked for anything. */
  const MissingTableCallback: string := "'RealtimeTools' object has no attribute '_handle_table_change'"
  const MissingChannelCallback: string := "'RealtimeTools' object has no attribute '_handle_channel_message'"

  /** `_execute_subscribe` as written: always the error text, nothing stored. */
  function SubscribeAsWritten(reg: Registry, args: Args): (s: Step)
    ensures s.registry == reg
    ensures args.table.None? ==> s.reply == Err(KeyErrorMessage("table"))
    ensures args.table.Some? ==> s.reply == Ok(Reply(SubscribeError + MissingTableCallback))
  {
    if args.table.None? then Step(reg, Err(KeyErrorMessage("table")))
    else Step(reg, Ok(Reply(SubscribeError + MissingTableCallback)))
  }

  /** `_execute_subscribe_channel` as written: always the error text,
      nothing stored. */
  function SubscribeChannelAsWritten(reg: Registry, args: Args): (s: Step)
    ensures s.registry == reg
    ensures args.channel.None? ==> s.reply == Err(KeyErrorMessage("channel"))
    ensures args.channel.Some? ==> s.reply == Ok(Reply(ChannelError + MissingChannelCallback))
  {
    if args.channel.None? then Step(reg, Err(KeyErrorMessage("channel")))
    else Step(reg, Ok(Reply(ChannelError + MissingChannelCallback)))
  }

  /** Where the SDK would accept the subscription, the code as written
      still stores nothing and reports an error, so the registry stays empty
      and unsubscribing always answers "Nenhuma inscrição encontrada". */
  lemma {:induction false} SubscriptionsNeverStoredAsWritten(reg: Registry, session: Session, args: Args, backend: Backend)
    requires args.table.Some? && args.table.value !in reg.handles
    requires backend(session, OnTable(args.table.value, args.event.GetOr("*"), AppliedFilter(args.filter))).Ok?
    ensures args.table.value in Subscribe(reg, session, args, backend).registry.handles
    ensures args.table.value !in SubscribeAsWritten(reg, args).registry.handles
    ensures Unsubscribe(SubscribeAsWritten(reg, args).registry, args).reply
      == Ok(Reply(NotSubscribedPrefix + args.table.value))
    ensures Subscribe(reg, session, args, backend).reply != SubscribeAsWritten(reg, args).reply
  {
    var table := args.table.value;
    var good := SubscribedPrefix + table + EventInfix + args.event.GetOr("*");
    var bad := SubscribeError + MissingTableCallback;
    assert good[0] == 'I' && bad[0] == 'E';
    assert Reply(good)[0].text != Reply(bad)[0].text;
  }

  /** `RealtimeTools(config, supabase_client)`: the client is fixed at
      construction and the registry starts empty. */
  class RealtimeTools {
    const config: Config
    const client: SupabaseClient
    var subscriptions: Registry

    constructor(config: Config, client: SupabaseClient)
      ensures this.config == config && this.client == client
      ensures subscriptions == EmptyRegistry && Valid()
    {
      this.config := config;
      this.client := client;
      subscriptions := EmptyRegistry;
    }

    ghost predicate Valid()
      reads this
    {
      ValidRegistry(subscriptions)
    }

    /** `execute_tool` with the corrected subscription handlers: the reply
        and the registry update of `Dispatch`, made in place on
        `subscriptions`. */
    method ExecuteTool(name: string, args: Args, backend: Backend) returns (r: Result<seq<Content>>)
      requires Valid()
      modifies this`subscriptions
      ensures Valid()
      ensures Step(subscriptions, r) == Dispatch(old(subscriptions), client.session, name, args, backend)
    {
      var session := client.session;
      if name == "realtime_subscribe" {
        if args.table.None? {
          return Err(KeyErrorMessage("table"));
        }
        var table, event := args.table.value, args.event.GetOr("*");
        var filter := AppliedFilter(args.filter);
        var res := backend(session, OnTable(table, event, filter));
        if res.Err? {
          return Ok(Reply(SubscribeError + res.message));
        }
        subscriptions := Put(subscriptions, table, TableSubscription(session, table, event, filter));
        r := Ok(Reply(SubscribedPrefix + table + EventInfix + event));
      } else if name == "realtime_unsubscribe" {
        if args.table.None? {
          return Err(KeyErrorMessage("table"));
        }
        var table := args.table.value;
        if table in subscriptions.handles {
          subscriptions := Drop(subscriptions, table);
          r := Ok(Reply(RemovedPrefix + table));
        } else {
          r := Ok(Reply(NotSubscribedPrefix + table));
        }
      } else if name == "realtime_list_subscriptions" {
        r := Ok(Reply(ListText(subscriptions)));
      } else if name == "realtime_broadcast" {
        r := Broadcast(session, args, backend);
      } else if name == "realtime_subscribe_channel" {
        if args.channel.None? {
          return Err(KeyErrorMessage("channel"));
        }
        var channel := args.channel.value;
        var res := backend(session, OnChannel(channel));
        if res.Err? {
          return Ok(Reply(ChannelError + res.message));
        }
        subscriptions := Put(subscriptions, ChannelKey(channel), ChannelSubscription(session, channel));
        r := Ok(Reply(ChannelSubscribedPrefix + channel));
      } else {
        r := Err(UnknownTool(name));
      }
    }
  }
}
