/** The database object behind both back ends (source/PQDatabase.cpp, source/SQLiteDatabase.cpp): the
    handlers, statement by statement, proved against what one request does. */
module Databases {
  import opened Protocol
  import opened Like
  import opened Tables
  import opened Backend
  import opened MonitorRules
  import opened Lanes
  import opened MonitorDevices
  import opened DeviceManagers

  class Database {
    const dialect: Dialect
    var store: Store
    const queue: MessageQueue<StoreRequest>
    const dispatcher: MessageQueue<DispatchRequest>
    const outbox: MessageQueue<Sent>
    const manager: DeviceManager

    constructor (dialect: Dialect, store: Store, dispatcher: MessageQueue<DispatchRequest>,
                 outbox: MessageQueue<Sent>, manager: DeviceManager)
      ensures this.dialect == dialect && this.store == store && queue.items == [] && fresh(queue)
      ensures this.dispatcher == dispatcher && this.outbox == outbox && this.manager == manager
    {
      this.dialect, this.store := dialect, store;
      queue := new MessageQueue();
      this.dispatcher, this.outbox, this.manager := dispatcher, outbox, manager;
    }

    /** Everything a handler does apart from loading devices. */
    twostate predicate Did(effect: Effect)
      reads this, queue, dispatcher, outbox
    {
      && store == effect.store
      && queue.items == old(queue.items) + effect.requeued
      && dispatcher.items == old(dispatcher.items) + effect.dispatched
      && outbox.items == old(outbox.items) + effect.written
    }

    /** A fresh answer holds the request id, if there is one. */
    method StartAnswer(rq: StoreRequest) returns (args: Args)
      ensures args == if RequestId in rq.args then map[RequestId := rq.args[RequestId]] else map[]
    {
      args := map[];
      if RequestId in rq.args {
        args := Emplace(args, RequestId, rq.args[RequestId]);
      }
    }

    /** The answer so far: the request id, a reason, perhaps already a status, nothing else. */
    ghost predicate Begun(rq: StoreRequest, args: Args) {
      && Reason in args && args[Reason].Because?
      && (RequestId in args <==> RequestId in rq.args) && (RequestId in args ==> args[RequestId] == rq.args[RequestId])
      && args.Keys <= {RequestId, Status, Reason}
    }

    /** Emplaces the final status, which does not replace an earlier one, and queues the answer. */
    method Finish(rq: StoreRequest, args: Args, status: bool)
      requires Begun(rq, args)
      modifies dispatcher
      ensures dispatcher.items == old(dispatcher.items)
              + [Reply(rq, if Status in args then args[Status] else if status then Okay else Error, args[Reason].why)]
    {
      var complete := Emplace(args, Status, if status then Okay else Error);
      assert complete == Reply(rq, complete[Status], complete[Reason].why).args;
      dispatcher.Push(Request(rq.client, SendStatus, complete));
    }

    /** hasDevice: -1 stands for no row; `ok` is false when the query throws. */
    method HasDevice(env: Env, hash: string) returns (ok: bool, id: int)
      ensures ok == (env.select && store.created)
      ensures ok ==> (id == -1 <==> DeviceIds(dialect, store, hash) == {})
    {
      id := -1;
      ok := env.select && store.created;
      if ok {
        var ids := DeviceIds(dialect, store, hash);
        if ids != {} {
          var first :| first in ids;
          id := first;
        }
      }
    }

    method HasSession(env: Env, hash: string) returns (ok: bool, id: int)
      ensures ok == (env.select && store.created)
      ensures ok ==> (id == -1 <==> SessionIds(dialect, store, hash) == {})
      ensures !ok ==> id == -1
    {
      id := -1;
      ok := env.select && store.created;
      if ok {
        var ids := SessionIds(dialect, store, hash);
        if ids != {} {
          var first :| first in ids;
          id := first;
        }
      }
    }

    method DoInitDatabase(env: Env, rq: StoreRequest)
      modifies this`store, dispatcher
      ensures Did(InitEffect(dialect, env, old(store), rq))
    {
      var args := StartAnswer(rq);
      if dialect.PostgreSQL? && !env.open {
        args := Emplace(args, Status, Error);
        args := Emplace(args, Reason, Because(DatabaseConnectionError));
        Finish(rq, args, false);
        return;
      }
      if Forced in rq.args {
        if rq.args[Forced] == True {
          if env.drop {
            store := DropTables(store);
          }
        }
      }
      var status := env.create;
      if status {
        store := store.(created := true);
      }
      args := Emplace(args, Status, if status then Okay else Error);
      args := Emplace(args, Reason, Because(if status then DatabaseInitComplete else DatabaseInitFailed));
      Finish(rq, args, status);
    }

    /** In PostgreSQL a failed removal ends the request; SQLite ignores it and inserts. */
    method DoAddDevice(env: Env, rq: StoreRequest)
      requires rq.action.InsertDevice?
      modifies this`store, queue, dispatcher
      ensures Did(AddDeviceEffect(dialect, env, old(store), rq, rq.action.device))
    {
      hide DeleteDevices, InsertDeviceRow, DeviceIds, Reply;
      var device := rq.action.device;
      var args := StartAnswer(rq);
      var status, devId := HasDevice(env, device.hash);
      if status {
        if Forced in rq.args {
          if rq.args[Forced] == True {
            if env.delete {
              store := DeleteDevices(dialect, store, device.hash);
            } else if dialect.PostgreSQL? {
              status := false;
            }
          }
        } else if devId != -1 {
          args := Emplace(args, Status, Error);
          args := Emplace(args, Reason, Because(DeviceAlreadyExists));
          Finish(rq, args, status);
          return;
        }
        if status {
          if env.insert {
            store := InsertDeviceRow(dialect, store, device);
          } else {
            status := false;
          }
        }
        if !status {
          args := Emplace(args, Reason, Because(FailedToAddDevice));
        } else {
          args := Emplace(args, Reason, Because(DeviceAdded));
          queue.Push(Internal(LoadDevices));
        }
      } else {
        args := Emplace(args, Reason, Because(CannotCheckExistingDevice));
      }
      Finish(rq, args, status);
    }

    /** The delete runs even when no such device was found; the first status emplaced stays. */
    method DoRemoveDevice(env: Env, rq: StoreRequest)
      requires rq.action.DeleteDevice?
      modifies this`store, dispatcher
      ensures Did(RemoveDeviceEffect(dialect, env, old(store), rq, rq.action.hash))
    {
      var hash := rq.action.hash;
      var args := StartAnswer(rq);
      var status, devId := HasDevice(env, hash);
      if status {
        if devId == -1 {
          args := Emplace(args, Status, Error);
          args := Emplace(args, Reason, Because(NoSuchDevice));
        }
        if env.delete {
          store := DeleteDevices(dialect, store, hash);
        } else {
          status := false;
        }
        args := Emplace(args, Reason, Because(if status then DeviceRemoved else FailedToRemoveDevice));
      } else {
        args := Emplace(args, Reason, Because(CannotCheckExistingDevice));
      }
      Finish(rq, args, status);
    }

    /** PostgreSQL deletes only an existing session, SQLite always; the outcome is the same. */
    method DoRemSession(env: Env, rq: StoreRequest)
      requires rq.action.RemSession?
      modifies this`store, dispatcher
      ensures Did(RemSessionEffect(dialect, env, old(store), rq, rq.action.hash))
    {
      var hash := rq.action.hash;
      var args := StartAnswer(rq);
      var status, sesId := HasSession(env, hash);
      if status {
        if sesId == -1 {
          args := Emplace(args, Status, Error);
          args := Emplace(args, Reason, Because(NoSuchSession));
        }
        if sesId != -1 || dialect.SQLite? {
          if env.delete {
            store := DeleteSession(dialect, store, hash);
          } else {
            status := false;
          }
          args := Emplace(args, Reason, Because(if status then SessionRemoved else FailedToRemoveSession));
        }
      } else {
        args := Emplace(args, Reason, Because(CannotCheckExistingSession));
      }
      assert dialect.SQLite? && sesId == -1 ==> old(store).sessions - {} == old(store).sessions;
      Finish(rq, args, status);
    }

    method DoAddSession(env: Env, rq: StoreRequest)
      requires rq.action.AddSession? && WellFormed(rq)
      modifies this`store
      ensures Did(AddSessionEffect(dialect, env, old(store), rq.action.info, rq.args[DeviceHash].text))
    {
      var info := rq.action.info;
      var ok, sesId := HasSession(env, info.hash);
      if sesId != -1 {
        if env.delete {
          store := DeleteSession(dialect, store, info.hash);
        }
      }
      if env.insert && store.created {
        match InsertSession(dialect, store, info, rq.args[DeviceHash].text, env.now)
        case None =>
        case Some(next) => store := next;
      }
    }

    /** Pushes an EndSession for each listed session without an end. */
    method DoCleanSessions(env: Env)
      requires Backend.Answers(env, store)
      modifies queue
      ensures Did(CleanEffect(env, old(store)))
    {
      if env.select && store.created {
        var order := env.sessionOrder;
        for i := 0 to |order|
          invariant queue.items == old(queue.items) + EndRequests(store, order[..i])
        {
          assert order[..i + 1][..i] == order[..i];
          var row := store.sessions[order[i]];
          if row.ended == 0 {
            queue.Push(Request(None, EndSession, map[SessionHash := Text(row.hash)]));
          }
        }
        assert order[..|order|] == order;
      }
    }

    /** One listed device: skipped when the registry knows the hash, otherwise registered as Loaded. */
    method Register(device: DeviceData)
      requires manager.Valid()
      modifies manager.devices
      ensures manager.Valid() && manager.States().Keys == old(manager.States()).Keys + {device.hash}
      ensures device.hash in old(manager.States()) ==> manager.devices.items == old(manager.devices.items)
      ensures device.hash !in old(manager.States()) ==>
                && |manager.devices.items| == |old(manager.devices.items)| + 1
                && manager.devices.items[..|manager.devices.items| - 1] == old(manager.devices.items)
                && var entry := manager.devices.items[|manager.devices.items| - 1];
                   fresh(entry) && entry.View() == NewMonitor(device)
    {
      ghost var items := manager.devices.items;
      var present := manager.GetDevice(device.hash);
      if present == null {
        var entry := new MonitorDevice(device, dispatcher, queue);
        var added := manager.AddDevice(entry);
        entry.state := Loaded;
        assert manager.devices.items[..|items|] == items;
        assert StatesOf(items) == old(manager.States());
      }
    }

    /** The registry holds the entries of `before` and behind them new Loaded ones for `loaded`. */
    ghost predicate Extends(before: seq<MonitorDevice>, loaded: seq<DeviceData>)
      reads manager.devices, manager.devices.items, set d | d in manager.devices.items :: d.sources
    {
      var now := manager.devices.items;
      && before <= now && |now| == |before| + |loaded|
      && forall k | |before| <= k < |now| :: now[k].View() == NewMonitor(loaded[k - |before|])
    }

    method RegisterNext(device: DeviceData, ghost before: seq<MonitorDevice>, ghost loaded: seq<DeviceData>)
      requires manager.Valid() && Extends(before, loaded)
      modifies manager.devices
      ensures manager.Valid() && manager.States().Keys == old(manager.States()).Keys + {device.hash}
      ensures Extends(before, loaded + if device.hash in old(manager.States()) then [] else [device])
    {
      Register(device);
      hide StatesOf;
    }

    /** Registers each listed device whose hash the registry does not know. */
    method RegisterAll(order: seq<nat>)
      requires manager.Valid() && forall i | 0 <= i < |order| :: order[i] in store.devices
      modifies manager.devices
      ensures manager.Valid()
      ensures Extends(old(manager.devices.items), NewDevices(store, order, old(manager.States()).Keys))
    {
      ghost var known, before, loaded := manager.States().Keys, manager.devices.items, [];
      hide StatesOf;
      for i := 0 to |order|
        invariant manager.Valid() && loaded == NewDevices(store, order[..i], known)
        invariant manager.States().Keys == known + HashesOf(loaded)
        invariant Extends(before, loaded)
      {
        var device := store.devices[order[i]];
        ghost var more := if device.hash in manager.States() then [] else [device];
        NewDevicesStep(store, order, i, known);
        HashesStep(loaded, more);
        RegisterNext(device, before, loaded);
        loaded := loaded + more;
      }
      assert order[..|order|] == order;
    }

    method DoLoadDevices(env: Env)
      requires Backend.Answers(env, store) && manager.Valid()
      modifies manager.devices
      ensures manager.Valid() && Did(LoadEffect(env, store, old(manager.States())).(loaded := []))
      ensures Extends(old(manager.devices.items), LoadEffect(env, store, old(manager.States())).loaded)
    {
      if env.select && store.created {
        RegisterAll(env.deviceOrder);
      }
    }

    /** The list goes to the client ahead of the status that is queued for it. */
    method WriteList(env: Env, rq: StoreRequest, list: Message) returns (written: bool)
      modifies outbox
      ensures written == (env.written && rq.client.Some?)
      ensures outbox.items == old(outbox.items) + if written then [Sent(rq.client.value, list)] else []
    {
      written := env.written && rq.client.Some?;
      if written {
        outbox.Push(Sent(rq.client.value, list));
      }
    }

    method DoGetDevices(env: Env, rq: StoreRequest)
      requires Backend.Answers(env, store)
      modifies outbox, dispatcher
      ensures Did(ListEffect(env, store, rq, env.select && store.created,
                             DeviceListMessage(DeviceEntries(store, env.deviceOrder, old(manager.States()))),
                             FailedToSendDeviceList))
    {
      var args := StartAnswer(rq);
      var status := env.select && store.created;
      if status {
        var list := ListDevices(env);
        var written := WriteList(env, rq, DeviceListMessage(list));
        args := Emplace(args, Reason, Because(if written then ListProvided else FailedToSendDeviceList));
      } else {
        args := Emplace(args, Reason, Because(QueryFailed));
      }
      hide DeviceEntries, Lists;
      Finish(rq, args, status);
    }

    /** Each listed device with the state its registered object is in. */
    method ListDevices(env: Env) returns (list: seq<(DeviceData, DeviceState)>)
      requires Backend.Answers(env, store)
      ensures list == DeviceEntries(store, env.deviceOrder, manager.States())
    {
      var order := env.deviceOrder;
      list := [];
      for i := 0 to |order|
        invariant list == DeviceEntries(store, order[..i], manager.States())
      {
        var device := store.devices[order[i]];
        var active := manager.GetDevice(device.hash);
        list := list + [(device, if active != null then active.state else Unknown)];
      }
      assert order[..|order|] == order;
    }

    method ListSessions(env: Env, hash: string) returns (list: seq<SessionEntry>)
      requires Backend.Answers(env, store)
      ensures list == SessionEntries(dialect, store, env.sessionOrder, hash)
    {
      var order := env.sessionOrder;
      list := [];
      for i := 0 to |order|
        invariant list == SessionEntries(dialect, store, order[..i], hash)
      {
        assert order[..i + 1][..i] == order[..i];
        var row := store.sessions[order[i]];
        if hash == "" || Some(row.device) == Scalar(dialect, DeviceIds(dialect, store, hash)) {
          list := list + [SessionEntry(row.hash, row.name, row.started, row.ended, row.ended != 0)];
        }
      }
      assert order[..|order|] == order;
    }

    method DoGetSessions(env: Env, rq: StoreRequest)
      requires rq.action.ListSessions? && Backend.Answers(env, store)
      modifies outbox, dispatcher
      ensures Did(ListEffect(env, store, rq, env.select && store.created && (rq.action.hash == "" || dialect.SQLite?),
                             SessionListMessage(SessionEntries(dialect, store, env.sessionOrder, rq.action.hash)),
                             FailedToSendSessionList))
    {
      var args := StartAnswer(rq);
      var hash := rq.action.hash;
      var status := env.select && store.created && (hash == "" || dialect.SQLite?);
      if status {
        var list := ListSessions(env, hash);
        var written := WriteList(env, rq, SessionListMessage(list));
        args := Emplace(args, Reason, Because(if written then ListProvided else FailedToSendSessionList));
      } else {
        args := Emplace(args, Reason, Because(QueryFailed));
      }
      hide SessionEntries, Lists;
      Finish(rq, args, status);
    }

    /** `work.exec` and `work.commit`: a failing statement leaves the tables as they were. */
    method RunTransaction(qs: seq<Insert>)
      modifies this`store
      ensures store == match Transaction(dialect, old(store), qs) case None => old(store) case Some(next) => next
    {
      var work := store;
      for i := 0 to |qs|
        invariant Transaction(dialect, work, qs[i..]) == Transaction(dialect, old(store), qs)
        invariant store == old(store)
      {
        assert qs[i..][1..] == qs[i + 1..];
        match RunInsert(dialect, work, qs[i])
        case None => return;
        case Some(next) => work := next;
      }
      store := work;
    }

    /** `sqlite3_exec`: every statement takes effect by itself, up to the first that fails. */
    method RunScript(qs: seq<Insert>)
      modifies this`store
      ensures store == Script(dialect, old(store), qs)
    {
      for i := 0 to |qs|
        invariant Script(dialect, store, qs[i..]) == Script(dialect, old(store), qs)
      {
        assert qs[i..][1..] == qs[i + 1..];
        match RunInsert(dialect, store, qs[i])
        case None => return;
        case Some(next) => store := next;
      }
    }

    /** The overload of addData for the kind, and its execution. */
    method DoAddData(env: Env, rq: StoreRequest)
      requires rq.action.AddData? && WellFormed(rq)
      modifies this`store
      ensures store == if env.insert && old(store).created
                       then StoreData(dialect, old(store), rq.action.data, rq.args[SessionHash].text) else old(store)
    {
      var data, hash := rq.action.data, rq.args[SessionHash].text;
      if !env.insert || !store.created {
        return;
      }
      match data.what {
        case OtherKind => return;
        case _ =>
      }
      var qs := AddDataStatements(data, hash);
      if dialect.SQLite? {
        RunScript(qs);
      } else {
        RunTransaction(qs);
      }
    }

    method DoEndSession(env: Env, rq: StoreRequest)
      requires rq.action.EndSession? && WellFormed(rq)
      modifies this`store
      ensures store == if env.update && old(store).created
                       then MarkEnded(dialect, old(store), rq.args[SessionHash].text, env.now) else old(store)
    {
      if env.update && store.created {
        store := MarkEnded(dialect, store, rq.args[SessionHash].text, env.now);
      }
    }

    /** The handler of a popped request does exactly what the rules say. */
    method RequestHandler(env: Env, rq: StoreRequest)
      requires Backend.Answers(env, store) && WellFormed(rq) && manager.Valid()
      modifies this`store, queue, dispatcher, outbox, manager.devices
      ensures manager.Valid() && Did(HandleStore(dialect, env, old(store), old(manager.States()), rq))
      ensures Extends(old(manager.devices.items), HandleStore(dialect, env, old(store), old(manager.States()), rq).loaded)
    {
      hide InitEffect, AddDeviceEffect, RemoveDeviceEffect, RemSessionEffect, AddSessionEffect, CleanEffect, LoadEffect,
        StoreData, MarkEnded, DeviceEntries, SessionEntries, Lists;
      match rq.action
      case CheckDatabase =>
      case OpenStore =>
      case CloseStore =>
      case InitTables => DoInitDatabase(env, rq);
      case LoadDevices => DoLoadDevices(env);
      case CleanSessions => DoCleanSessions(env);
      case ListDevices => DoGetDevices(env, rq);
      case ListSessions(_) => DoGetSessions(env, rq);
      case InsertDevice(_) => DoAddDevice(env, rq);
      case DeleteDevice(_) => DoRemoveDevice(env, rq);
      case AddSession(_) => DoAddSession(env, rq);
      case RemSession(_) => DoRemSession(env, rq);
      case EndSession => DoEndSession(env, rq);
      case AddData(_) => DoAddData(env, rq);
    }
  }

  /** Query::addData: the statement text for a sample, appended to entry by entry for the repeated
      kinds and for the cores behind the totals of SysProcStat. */
  method AddDataStatements(data: Data, hash: string) returns (out: seq<Insert>)
    requires !data.what.OtherKind?
    ensures out == Inserts(data, hash, Entries(data))
    ensures StatesEach(out, data, hash)
  {
    hide Inserts, Entries, StatesEach;
    InsertsContent(data, hash);
    StatementsJoin(data, hash);
    out := [];
    if !Repeated(data.what) {
      out := out + [Insert(data.what, data.head, data.stamp, data.trace, hash)];
    }
    if Repeated(data.what) || data.what.SysProcStat? {
      out := EntryStatements(out, data, hash);
    }
    assert out == Inserts(data, hash, Entries(data));
  }

  /** One statement for each entry, appended to what is there. */
  method EntryStatements(first: seq<Insert>, data: Data, hash: string) returns (out: seq<Insert>)
    ensures out == first + Inserts(data, hash, data.entries)
  {
    out := first;
    for i := 0 to |data.entries|
      invariant out == first + Inserts(data, hash, data.entries[..i])
    {
      out := out + [Insert(data.what, data.entries[i], data.stamp, data.trace, hash)];
    }
    assert data.entries[..|data.entries|] == data.entries;
  }

  lemma StatementsJoin(data: Data, hash: string)
    requires !data.what.OtherKind?
    ensures var head := Insert(data.what, data.head, data.stamp, data.trace, hash);
            Inserts(data, hash, Entries(data)) ==
            if data.what.SysProcStat? then [head] + Inserts(data, hash, data.entries)
            else if Repeated(data.what) then [] + Inserts(data, hash, data.entries) else [head]
    ensures !(data.what.SysProcStat? && Repeated(data.what))
  {
  }

  /** One statement for each entry of a repeated kind, in order; for SysProcStat one for the totals and then
      one for each core; for any other kind one. */
  ghost predicate StatesEach(out: seq<Insert>, data: Data, hash: string) {
    && |out| == (if data.what.SysProcStat? then 1 + |data.entries| else if Repeated(data.what) then |data.entries| else 1)
    && forall k | 0 <= k < |out| ::
         out[k] == Insert(data.what,
                          if Repeated(data.what) then data.entries[k] else if k == 0 then data.head else data.entries[k - 1],
                          data.stamp, data.trace, hash)
  }

  lemma InsertsContent(data: Data, hash: string)
    requires !data.what.OtherKind?
    ensures StatesEach(Inserts(data, hash, Entries(data)), data, hash)
  {
    var entries := Entries(data);
    if Repeated(data.what) {
      assert entries == data.entries;
    } else if data.what.SysProcStat? {
      assert entries == [data.head] + data.entries;
    } else {
      assert entries == [data.head];
    }
  }

  ghost function HashesOf(devices: seq<DeviceData>): set<string> {
    set d | d in devices :: d.hash
  }

  lemma HashesStep(devices: seq<DeviceData>, more: seq<DeviceData>)
    ensures HashesOf(devices + more) == HashesOf(devices) + HashesOf(more)
  {
  }

  lemma NewDevicesStep(s: Store, order: seq<nat>, i: nat, known: set<string>)
    requires i < |order| && forall k | 0 <= k < |order| :: order[k] in s.devices
    ensures var loaded, device := NewDevices(s, order[..i], known), s.devices[order[i]];
            NewDevices(s, order[..i + 1], known) ==
            loaded + if device.hash in known + HashesOf(loaded) then [] else [device]
  {
    assert order[..i + 1][..i] == order[..i];
  }
}
