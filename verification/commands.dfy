/** What each control command does, from the accepted request over the dispatcher to the handler that
    serves it (source/ControlClient.cpp, source/Dispatcher.cpp, source/PQDatabase.cpp). */
module Commands {
  import opened Protocol
  import opened Like
  import opened Tables
  import opened Backend
  import opened MonitorRules
  import opened Routing
  import opened Collector
  import opened Relational
  import opened Frozen
  import opened Replies

  // ---- what a deletion takes and what it leaves ----

  /** Gone are the devices with the hash and nothing else - in PostgreSQL with their sessions and the
      samples of these. */
  ghost predicate DeviceGone(d: Dialect, s: Store, s': Store, hash: string) {
    && s' == s.(devices := s'.devices, sessions := s'.sessions, rows := s'.rows)
    && (forall id :: id in s'.devices <==> id in s.devices && s.devices[id].hash != hash)
    && (forall id | id in s'.devices :: s'.devices[id] == s.devices[id])
    && (forall id :: id in s'.sessions <==>
          id in s.sessions
          && !(d.PostgreSQL? && s.sessions[id].device in s.devices && s.devices[s.sessions[id].device].hash == hash))
    && (forall id | id in s'.sessions :: s'.sessions[id] == s.sessions[id])
    && RowsLeft(d, s, s')
  }

  /** Gone are the sessions with the hash and nothing else - in PostgreSQL with their samples. */
  ghost predicate SessionGone(d: Dialect, s: Store, s': Store, hash: string) {
    && s' == s.(sessions := s'.sessions, rows := s'.rows)
    && (forall id :: id in s'.sessions <==> id in s.sessions && s.sessions[id].hash != hash)
    && (forall id | id in s'.sessions :: s'.sessions[id] == s.sessions[id])
    && RowsLeft(d, s, s')
  }

  /** SQLite keeps all samples; PostgreSQL those of every session that was not deleted, in order. */
  ghost predicate RowsLeft(d: Dialect, s: Store, s': Store) {
    && (d.SQLite? ==> s'.rows == s.rows)
    && (d.PostgreSQL? ==>
          && (forall r | r in s'.rows :: r.session !in s.sessions || r.session in s'.sessions)
          && forall session: nat | session !in s.sessions || session in s'.sessions ::
               SamplesOf(s'.rows, session) == SamplesOf(s.rows, session))
  }

  lemma DeletesDevice(d: Dialect, s: Store, hash: string)
    requires Exact(d, hash)
    ensures DeviceGone(d, s, DeleteDevices(d, s, hash), hash)
  {
    hide DeviceIds, SessionsOf, Exact, SamplesOf, WithoutRowsOf, RowsLeft;
    SelectsDevices(d, s, hash);
    SessionsOfDevices(s, DeviceIds(d, s, hash));
    if d.PostgreSQL? {
      Spares(d, s, DeleteDevices(d, s, hash), SessionsOf(s, DeviceIds(d, s, hash)));
    } else {
      NothingSpared(s, DeleteDevices(d, s, hash));
    }
  }

  lemma SessionsOfDevices(s: Store, ids: set<nat>)
    ensures forall id :: id in SessionsOf(s, ids) <==> id in s.sessions && s.sessions[id].device in ids
  {
  }

  lemma NothingSpared(s: Store, s': Store)
    requires s'.rows == s.rows
    ensures RowsLeft(SQLite, s, s')
  {
  }

  lemma SelectsDevices(d: Dialect, s: Store, hash: string)
    requires Exact(d, hash)
    ensures forall id :: id in DeviceIds(d, s, hash) <==> id in s.devices && s.devices[id].hash == hash
  {
    assert forall id | id in s.devices :: Matches(d, hash, s.devices[id].hash) <==> s.devices[id].hash == hash;
  }

  lemma DeletesSession(d: Dialect, s: Store, hash: string)
    requires Exact(d, hash)
    ensures SessionGone(d, s, DeleteSession(d, s, hash), hash)
  {
    SelectsEqual(d, s, hash);
    Spares(d, s, DeleteSession(d, s, hash), SessionIds(d, s, hash));
    hide SessionIds, Matches, RowsLeft;
  }

  lemma Spares(d: Dialect, s: Store, s': Store, ids: set<nat>)
    requires s'.sessions == s.sessions - ids && s'.rows == if d.PostgreSQL? then WithoutRowsOf(s.rows, ids) else s.rows
    requires ids <= s.sessions.Keys
    ensures RowsLeft(d, s, s')
  {
    KeptRows(s.rows, ids);
    if d.PostgreSQL? {
      forall session: nat | session !in s.sessions || session in s'.sessions
        ensures SamplesOf(s'.rows, session) == SamplesOf(s.rows, session)
      {
        CascadeSparesOthers(s.rows, ids, session);
      }
    }
    hide SamplesOf, WithoutRowsOf;
  }

  /** One device row is new, under a key of its own. */
  ghost predicate DeviceNew(s: Store, s': Store, device: DeviceData) {
    exists id: nat :: id !in s.devices && s' == s.(devices := s.devices[id := device], nextDevice := s'.nextDevice)
  }

  // ---- the commands the database serves ----

  /** The one status that goes back to the client, under the id of its request. */
  predicate Told(effect: Effect, o: Origin, rq: ControlRequest, status: Value, why: Why) {
    |effect.dispatched| == 1 && Says(effect.dispatched[0], Some(o), map[RequestId := Text(rq.id)], status, why)
  }

  /** AddDevice: refused for a known device unless enforced; an enforced one removes the known device first.
      Okay means the row is there, and a reload of the registry follows. */
  lemma AddDeviceCommand(d: Dialect, env: Env, s: Store, registry: map<string, DeviceState>, o: Origin, rq: ControlRequest, written: bool)
    returns (next: StoreRequest, s1: Store)
    requires rq.command.AskAddDevice? && Exact(d, rq.command.device.hash) && Sound(d, s) && Backend.Answers(env, s)
    ensures RouteOf(Accept(o, rq, written)) == ToStore(next) && WellFormed(next)
    ensures var device, effect := rq.command.device, HandleStore(d, env, s, registry, next);
            && (if env.select && s.created && rq.enforced && env.delete then DeviceGone(d, s, s1, device.hash) else s1 == s)
            && effect.written == [] && effect.loaded == []
            && if !env.select || !s.created then
                 Told(effect, o, rq, Error, CannotCheckExistingDevice) && effect.store == s && effect.requeued == []
               else if !rq.enforced && HasDevice(s, device.hash) then
                 Told(effect, o, rq, Error, DeviceAlreadyExists) && effect.store == s && effect.requeued == []
               else if (rq.enforced && !env.delete && d.PostgreSQL?) || !env.insert then
                 Told(effect, o, rq, Error, FailedToAddDevice) && effect.store == s1 && effect.requeued == []
               else
                 Told(effect, o, rq, Okay, DeviceAdded) && DeviceNew(s1, effect.store, device)
                 && effect.requeued == [Request(None, LoadDevices, map[])]
  {
    hide DeleteDevices, InsertDeviceRow, DeviceIds, Exact, Lists, HasDevice, DeviceGone, DeviceNew, Sound;
    var device := rq.command.device;
    next := Request(Some(o), InsertDevice(device), Accept(o, rq, written).args);
    s1 := s;
    if env.select && s.created && rq.enforced && env.delete {
      s1 := DeleteDevices(d, s, device.hash);
      DeletesDevice(d, s, device.hash);
    }
    KnownDevice(d, s, device.hash);
    InsertsDevice(d, s, s1, device);
  }

  lemma KnownDevice(d: Dialect, s: Store, hash: string)
    requires Exact(d, hash)
    ensures HasDevice(s, hash) <==> DeviceIds(d, s, hash) != {}
    ensures !HasDevice(s, hash) ==> DeleteDevices(d, s, hash) == s
  {
    assert forall id | id in s.devices :: Matches(d, hash, s.devices[id].hash) <==> s.devices[id].hash == hash;
    if HasDevice(s, hash) {
      var id :| id in s.devices && s.devices[id].hash == hash;
      assert id in DeviceIds(d, s, hash);
    } else {
      assert DeviceIds(d, s, hash) == {};
      NothingToDelete(d, s, hash);
    }
  }

  lemma InsertsDevice(d: Dialect, s: Store, s1: Store, device: DeviceData)
    requires Sound(d, s) && (s1 == s || DeviceGone(d, s, s1, device.hash))
    ensures DeviceNew(s1, InsertDeviceRow(d, s1, device), device)
  {
    FreshIdIsFresh(d, s1.nextDevice, s1.devices.Keys);
  }

  /** RemoveDevice: Okay means that exactly this device is gone; otherwise nothing is. */
  lemma RemoveDeviceCommand(d: Dialect, env: Env, s: Store, registry: map<string, DeviceState>, o: Origin, rq: ControlRequest, written: bool)
    returns (next: StoreRequest)
    requires rq.command.AskRemoveDevice? && Exact(d, rq.command.hash) && Backend.Answers(env, s)
    ensures RouteOf(Accept(o, rq, written)) == ToStore(next) && WellFormed(next)
    ensures var hash, effect := rq.command.hash, HandleStore(d, env, s, registry, next);
            && effect.requeued == [] && effect.written == [] && effect.loaded == []
            && if !env.select || !s.created then Told(effect, o, rq, Error, CannotCheckExistingDevice) && effect.store == s
               else if !HasDevice(s, hash) then Told(effect, o, rq, Error, NoSuchDevice) && effect.store == s
               else if env.delete then Told(effect, o, rq, Okay, DeviceRemoved) && DeviceGone(d, s, effect.store, hash)
               else Told(effect, o, rq, Error, FailedToRemoveDevice) && effect.store == s
  {
    hide DeleteDevices, DeviceIds, Exact, Lists, HasDevice, DeviceGone;
    next := Request(Some(o), DeleteDevice(rq.command.hash), Accept(o, rq, written).args);
    KnownDevice(d, s, rq.command.hash);
    DeletesDevice(d, s, rq.command.hash);
  }

  /** RemoveSession likewise. */
  lemma RemoveSessionCommand(d: Dialect, env: Env, s: Store, registry: map<string, DeviceState>, o: Origin, rq: ControlRequest, written: bool)
    returns (next: StoreRequest)
    requires rq.command.AskRemoveSession? && Exact(d, rq.command.hash) && Backend.Answers(env, s)
    ensures RouteOf(Accept(o, rq, written)) == ToStore(next) && WellFormed(next)
    ensures var hash, effect := rq.command.hash, HandleStore(d, env, s, registry, next);
            && effect.requeued == [] && effect.written == [] && effect.loaded == []
            && if !env.select || !s.created then Told(effect, o, rq, Error, CannotCheckExistingSession) && effect.store == s
               else if !HasSession(s, hash) then Told(effect, o, rq, Error, NoSuchSession) && effect.store == s
               else if env.delete then Told(effect, o, rq, Okay, SessionRemoved) && SessionGone(d, s, effect.store, hash)
               else Told(effect, o, rq, Error, FailedToRemoveSession) && effect.store == s
  {
    hide DeleteSession, SessionIds, Exact, Lists, HasSession, SessionGone;
    next := Request(Some(o), RemSession(rq.command.hash), Accept(o, rq, written).args);
    KnownSession(d, s, rq.command.hash);
    DeletesSession(d, s, rq.command.hash);
  }

  lemma KnownSession(d: Dialect, s: Store, hash: string)
    requires Exact(d, hash)
    ensures HasSession(s, hash) <==> SessionIds(d, s, hash) != {}
  {
    SelectsEqual(d, s, hash);
    if HasSession(s, hash) {
      var id :| id in s.sessions && s.sessions[id].hash == hash;
      assert id in SessionIds(d, s, hash);
    }
  }

  /** InitDatabase: an enforced one whose drop succeeds empties every table, any other empties none; Okay
      means that the tables are there. */
  lemma InitCommand(d: Dialect, env: Env, s: Store, registry: map<string, DeviceState>, o: Origin, rq: ControlRequest, written: bool)
    returns (next: StoreRequest)
    requires rq.command.AskInit? && Backend.Answers(env, s)
    ensures RouteOf(Accept(o, rq, written)) == ToStore(next) && WellFormed(next)
    ensures var effect := HandleStore(d, env, s, registry, next);
            && effect.requeued == [] && effect.written == [] && effect.loaded == []
            && if d.PostgreSQL? && !env.open then Told(effect, o, rq, Error, DatabaseConnectionError) && effect.store == s
               else
                 && (if env.create then Told(effect, o, rq, Okay, DatabaseInitComplete) && effect.store.created
                     else Told(effect, o, rq, Error, DatabaseInitFailed))
                 && (if rq.enforced && env.drop then
                       effect.store.devices == map[] && effect.store.sessions == map[] && effect.store.rows == []
                       && (effect.store.created ==> env.create)
                     else effect.store == s.(created := s.created || env.create))
  {
    next := Request(Some(o), InitTables, Accept(o, rq, written).args);
    hide Lists;
  }

  /** GetDevices: the list, each device row once with the state of its registered device, goes to the client
      that asked, if it can be written; the status tells of the query. */
  lemma DevicesCommand(d: Dialect, env: Env, s: Store, registry: map<string, DeviceState>, o: Origin, rq: ControlRequest, written: bool)
    returns (next: StoreRequest)
    requires rq.command.AskDevices? && Backend.Answers(env, s)
    ensures RouteOf(Accept(o, rq, written)) == ToStore(next) && WellFormed(next)
    ensures var effect := HandleStore(d, env, s, registry, next);
            && effect.store == s && effect.requeued == [] && effect.loaded == []
            && if !env.select || !s.created then Told(effect, o, rq, Error, QueryFailed) && effect.written == []
               else if !env.written then Told(effect, o, rq, Okay, FailedToSendDeviceList) && effect.written == []
               else
                 && Told(effect, o, rq, Okay, ListProvided)
                 && |effect.written| == 1 && effect.written[0].origin == o && effect.written[0].message.DeviceListMessage?
                 && DevicesListed(effect.written[0].message.devices, s, registry)
  {
    hide HandleStore, Lists, Shown, DevicesListed, Told;
    next := Request(Some(o), ListDevices, Accept(o, rq, written).args);
    ListStatus(d, env, s, registry, o, rq, written, next);
    DeviceListTellsTheTruth(d, env, s, registry, next);
    if env.select && s.created && env.written {
      SameStates(s, registry, HandleStore(d, env, s, registry, next).written[0].message.devices);
    }
  }

  /** The status of either list tells of the query, the reason of the write. */
  lemma ListStatus(d: Dialect, env: Env, s: Store, registry: map<string, DeviceState>, o: Origin, rq: ControlRequest, written: bool, next: StoreRequest)
    requires Backend.Answers(env, s) && (rq.command.AskDevices? || rq.command.AskSessions?)
    requires next == Request(Some(o), if rq.command.AskDevices? then ListDevices else ListSessions(rq.command.hash), Accept(o, rq, written).args)
    ensures var effect := HandleStore(d, env, s, registry, next);
            && effect.store == s && effect.requeued == [] && effect.loaded == []
            && (forall m | m in effect.written :: m.origin == o)
            && if !env.select || !s.created || (next.action.ListSessions? && next.action.hash != "" && d.PostgreSQL?) then
                 Told(effect, o, rq, Error, QueryFailed) && effect.written == []
               else if !env.written then
                 && Told(effect, o, rq, Okay, if rq.command.AskDevices? then FailedToSendDeviceList else FailedToSendSessionList)
                 && effect.written == []
               else Told(effect, o, rq, Okay, ListProvided) && |effect.written| == 1
  {
    hide DeviceEntries, SessionEntries, Lists;
  }

  /** One entry for each device row, with the state the registry has for its hash. */
  ghost predicate DevicesListed(list: seq<(DeviceData, DeviceState)>, s: Store, registry: map<string, DeviceState>) {
    && |list| == |s.devices|
    && forall e :: e in list <==> exists id :: id in s.devices && e.0 == s.devices[id] && e.1 == StateIn(registry, e.0.hash)
  }

  lemma SameStates(s: Store, registry: map<string, DeviceState>, list: seq<(DeviceData, DeviceState)>)
    requires forall id | id in s.devices :: Shown(s.devices[id], registry) in list
    requires forall e | e in list :: exists id :: id in s.devices && e == Shown(s.devices[id], registry)
    requires |list| == |s.devices|
    ensures DevicesListed(list, s, registry)
  {
    forall e ensures e in list <==> exists id :: id in s.devices && e.0 == s.devices[id] && e.1 == StateIn(registry, e.0.hash) {
      if id :| id in s.devices && e.0 == s.devices[id] && e.1 == StateIn(registry, e.0.hash) {
        assert e == Shown(s.devices[id], registry);
      }
    }
  }

  function StateIn(registry: map<string, DeviceState>, hash: string): DeviceState {
    if hash in registry then registry[hash] else Unknown
  }

  /** GetSessions: likewise the sessions, all of them or those of the first device with the hash, each row
      once with its own fields, complete if and only if it has ended. */
  lemma SessionsCommand(d: Dialect, env: Env, s: Store, registry: map<string, DeviceState>, o: Origin, rq: ControlRequest, written: bool)
    returns (next: StoreRequest)
    requires rq.command.AskSessions? && Backend.Answers(env, s)
    ensures RouteOf(Accept(o, rq, written)) == ToStore(next) && WellFormed(next)
    ensures var hash, effect := rq.command.hash, HandleStore(d, env, s, registry, next);
            && effect.store == s && effect.requeued == [] && effect.loaded == []
            && if !env.select || !s.created || (hash != "" && d.PostgreSQL?) then Told(effect, o, rq, Error, QueryFailed) && effect.written == []
               else if !env.written then Told(effect, o, rq, Okay, FailedToSendSessionList) && effect.written == []
               else
                 && Told(effect, o, rq, Okay, ListProvided)
                 && |effect.written| == 1 && effect.written[0].origin == o && effect.written[0].message.SessionListMessage?
                 && SessionsListed(effect.written[0].message.sessions, s, hash)
  {
    hide HandleStore, Lists, Told, AskedFor, SessionsListed, DeviceIds, Scalar;
    next := Request(Some(o), ListSessions(rq.command.hash), Accept(o, rq, written).args);
    ListStatus(d, env, s, registry, o, rq, written, next);
    SessionListTellsTheTruth(d, env, s, registry, next);
    if env.select && s.created && env.written && (rq.command.hash == "" || d.SQLite?) {
      SameEntries(d, s, rq.command.hash, HandleStore(d, env, s, registry, next).written[0].message.sessions);
    }
  }

  /** One entry for each session row asked for, with its own fields. */
  ghost predicate SessionsListed(list: seq<SessionEntry>, s: Store, hash: string) {
    && |list| == |set id | id in s.sessions && Of(s, s.sessions[id], hash)|
    && forall e :: e in list <==> exists id :: id in s.sessions && Of(s, s.sessions[id], hash) && Describes(e, s.sessions[id])
  }

  /** All sessions are asked for, or those of the first device with the hash. */
  predicate Of(s: Store, row: SessionRow, hash: string) {
    hash == ""
    || (&& row.device in s.devices && s.devices[row.device].hash == hash
        && forall other | other in s.devices && s.devices[other].hash == hash :: row.device <= other)
  }

  predicate Describes(e: SessionEntry, row: SessionRow) {
    e.hash == row.hash && e.name == row.name && e.started == row.started && e.ended == row.ended && (e.complete <==> row.ended != 0)
  }

  lemma OneDeviceAsked(d: Dialect, s: Store, hash: string, row: SessionRow)
    requires hash == "" || d.SQLite?
    ensures AskedFor(d, s, hash, row) <==> Of(s, row, hash)
  {
    var ids := DeviceIds(d, s, hash);
    if hash != "" {
      assert forall id :: id in ids <==> id in s.devices && s.devices[id].hash == hash;
      assert ids != {} ==> IsMin(ids, MinOf(ids));
    }
  }

  lemma SameEntries(d: Dialect, s: Store, hash: string, list: seq<SessionEntry>)
    requires hash == "" || d.SQLite?
    requires |list| == |set id | id in s.sessions && AskedFor(d, s, hash, s.sessions[id])|
    requires forall e :: e in list <==> exists id :: id in s.sessions && AskedFor(d, s, hash, s.sessions[id]) && e == ShownSession(s.sessions[id])
    ensures SessionsListed(list, s, hash)
  {
    hide AskedFor, Of, DeviceIds, Scalar;
    forall id | id in s.sessions ensures AskedFor(d, s, hash, s.sessions[id]) <==> Of(s, s.sessions[id], hash) {
      OneDeviceAsked(d, s, hash, s.sessions[id]);
    }
    assert (set id | id in s.sessions && AskedFor(d, s, hash, s.sessions[id]))
        == set id | id in s.sessions && Of(s, s.sessions[id], hash);
    forall e ensures e in list <==> exists id :: id in s.sessions && Of(s, s.sessions[id], hash) && Describes(e, s.sessions[id]) {
      if e in list {
        var id :| id in s.sessions && AskedFor(d, s, hash, s.sessions[id]) && e == ShownSession(s.sessions[id]);
        assert Of(s, s.sessions[id], hash) && Describes(e, s.sessions[id]);
      }
      if id :| id in s.sessions && Of(s, s.sessions[id], hash) && Describes(e, s.sessions[id]) {
        assert AskedFor(d, s, hash, s.sessions[id]) && e == ShownSession(s.sessions[id]);
      }
    }
  }

  // ---- the commands the dispatcher and the devices serve ----

  /** The session request is answered at once, Okay if and only if the session message could be written;
      QuitCollector makes the collector exit. */
  lemma SessionAndQuitCommands(o: Origin, rq: ControlRequest, written: bool)
    ensures rq.command.AskSession? ==>
              RouteOf(Accept(o, rq, written)) ==
              ToClient(Sent(o, StatusMessage(Text(rq.id), if written then WhatOkay else WhatError,
                                             Because(if written then ControlClientSessionSet else FailedToSetSession))))
    ensures rq.command.AskQuit? ==>
              RouteOf(Accept(o, rq, written)) == Back(Request(None, Quit, map[])) && RouteOf(Request(None, Quit, map[])) == Exit
  {
  }

  /** The four device commands reach the device of their hash as the action of that name, under the
      client and the id of the request. */
  lemma DeviceCommands(o: Origin, rq: ControlRequest, written: bool) returns (args: Args)
    ensures RequestId in args && args[RequestId] == Text(rq.id)
    ensures var route := RouteOf(Accept(o, rq, written));
            && (rq.command.AskConnect? ==> route == ToDevice(rq.command.hash, Request(Some(o), Connect, args)))
            && (rq.command.AskDisconnect? ==> route == ToDevice(rq.command.hash, Request(Some(o), Disconnect, args)))
            && (rq.command.AskStart? ==> route == ToDevice(rq.command.hash, Request(Some(o), StartDevice, args)))
            && (rq.command.AskStop? ==> route == ToDevice(rq.command.hash, Request(Some(o), StopDevice, args)))
            && (route.ToDevice? ==>
                  rq.command.AskConnect? || rq.command.AskDisconnect? || rq.command.AskStart? || rq.command.AskStop?)
  {
    args := Accept(o, rq, written).args;
  }

  // ---- the way there ----

  ghost predicate Arrived(w: World, w': World, o: Origin, route: Route, written: bool, sends: bool) {
    if route.ToStore? then w' == w.(asked := w'.asked, database := w.database + [route.store])
    else if route.ToDevice? then
      var at := Find(w.devices, route.hash);
      if at.None? then
        && w' == w.(asked := w'.asked, dispatcher := w'.dispatcher)
        && |w'.dispatcher| == 1 && Says(w'.dispatcher[0], Some(o), map[], Error, NoSuchDevice)
      else
        && w' == w.(asked := w'.asked, devices := w'.devices) && |w'.devices| == |w.devices|
        && w'.devices[at.value] == w.devices[at.value].(queue := w.devices[at.value].queue + [route.device])
        && forall k | 0 <= k < |w.devices| && k != at.value :: w'.devices[k] == w.devices[k]
    else if route.Back? then w' == w.(asked := w'.asked, dispatcher := [route.again])
    else if route.ToClient? then
      var greeted := if written then w.sent + [Sent(o, SetSessionMessage)] else w.sent;
      if sends then w' == w.(asked := w'.asked, sent := greeted + [route.sent])
      else w' == w.(asked := w'.asked, sent := greeted, lost := w.lost + [route.sent])
    else false
  }

  /** A control request that finds the dispatcher idle is routed by its first turn: behind what the
      database has waiting, or behind what the last device registered under the hash has waiting; for an
      unknown hash the status NoSuchDevice is queued. Nothing else changes. */
  lemma CommandArrives(w: World, client: nat, rq: ControlRequest, written: bool, sends: bool)
    requires w.phase.Running? && w.dispatcher == []
    ensures Possible(w, [Control(client, rq, written), TurnDispatcher(sends)])
    ensures After(w, [Control(client, rq, written), TurnDispatcher(sends)]).asked == w.asked + [(client, rq)]
    ensures Arrived(w, After(w, [Control(client, rq, written), TurnDispatcher(sends)]), Origin(client, |w.asked|),
                    RouteOf(Accept(Origin(client, |w.asked|), rq, written)), written, sends)
  {
    var e, f, o := Control(client, rq, written), TurnDispatcher(sends), Origin(client, |w.asked|);
    var w1 := Taken(w, client, rq, written);
    Routed(w, w1, o, Accept(o, rq, written), written, sends);
    hide Next, Enabled, Accept, RouteOf, Arrived;
    OneEventMore(w1, f, []);
    OneEventMore(w, e, [f]);
    assert [f] + [] == [f] && [e] + [f] == [e, f];
  }

  lemma Taken(w: World, client: nat, rq: ControlRequest, written: bool) returns (w1: World)
    requires w.phase.Running? && w.dispatcher == []
    ensures var o, e := Origin(client, |w.asked|), Control(client, rq, written);
            && Enabled(w, e) && w1 == Next(w, e) && w1.asked == w.asked + [(client, rq)]
            && w1 == w.(asked := w1.asked, dispatcher := [Accept(o, rq, written)], sent := w1.sent)
            && w1.sent == (if rq.command.AskSession? && written then w.sent + [Sent(o, SetSessionMessage)] else w.sent)
            && Accept(o, rq, written).client == Some(o)
            && var route := RouteOf(Accept(o, rq, written));
               (route.ToClient? <==> rq.command.AskSession?) && !route.Nowhere? && !route.Exit?
  {
    hide HandleStore, HandleMonitor;
    w1 := Next(w, Control(client, rq, written));
  }

  lemma Routed(w: World, w1: World, o: Origin, accepted: DispatchRequest, written: bool, sends: bool)
    requires w.phase.Running? && w.dispatcher == [] && accepted.client == Some(o)
    requires w1 == w.(asked := w1.asked, dispatcher := [accepted], sent := w1.sent)
    requires var route := RouteOf(accepted);
             && !route.Nowhere? && !route.Exit?
             && w1.sent == if route.ToClient? && written then w.sent + [Sent(o, SetSessionMessage)] else w.sent
    ensures Enabled(w1, TurnDispatcher(sends)) && Next(w1, TurnDispatcher(sends)).asked == w1.asked
    ensures Arrived(w, Next(w1, TurnDispatcher(sends)), o, RouteOf(accepted), written, sends)
  {
    hide HandleStore, HandleMonitor, RouteOf;
    assert w1.dispatcher[1..] == [];
    var next := Routing.Unknown(accepted.client);
    assert [] + [next] == [next];
  }
}
