/** A SQLite run in which a removed session's samples end up under another session. */
module KeyReuse {
  import opened Protocol
  import opened Like
  import opened Tables
  import opened Samples
  import opened Backend
  import opened Lanes
  import opened MonitorRules
  import opened Routing
  import opened Collector
  import opened Relational
  import opened Draining
  import opened Attribution
  import Connections

  /** The device is connected and nothing of it or of the database waits. */
  predicate Quiet(w: World, i: nat) {
    && w.dialect.SQLite? && w.phase.Running? && w.store.created && w.dispatcher == [] && w.database == []
    && i < |w.devices| && w.devices[i].queue == [] && w.devices[i].monitor.connected
  }

  /** Everything succeeds. */
  function Fine(deviceOrder: seq<nat>, sessionOrder: seq<nat>): Env {
    Env(1, true, true, true, true, true, true, true, true, deviceOrder, sessionOrder)
  }

  function Opened(s: Store, info: SessionInfo, deviceHash: string): Store {
    AddSessionEffect(SQLite, Fine([], []), s, info, deviceHash).store
  }

  lemma DatabaseTurn(w: World) returns (e: Event)
    requires w.phase.Running? && w.database != [] && WellFormed(w.database[0])
    ensures e.TurnDatabase? && Enabled(w, e) && e.env == Fine(e.env.deviceOrder, e.env.sessionOrder)
  {
    var devices := ListingExists(w.store.devices.Keys);
    var sessions := ListingExists(w.store.sessions.Keys);
    e := TurnDatabase(Fine(devices, sessions));
  }

  lemma ThreeSteps(w: World, a: Event, b: Event, c: Event)
    requires Enabled(w, a) && Enabled(Next(w, a), b) && Enabled(Next(Next(w, a), b), c)
    ensures Possible(w, [a, b, c]) && After(w, [a, b, c]) == Next(Next(Next(w, a), b), c)
  {
    hide Next, Enabled;
    assert [a, b, c][1..] == [b, c] && [b, c][1..] == [c] && [c][1..] == [];
    OneEventMore(Next(Next(w, a), b), c, []);
    assert [c] + [] == [c];
    OneEventMore(Next(w, a), b, [c]);
    assert [b] + [c] == [b, c];
    OneEventMore(w, a, [b, c]);
    assert [a] + [b, c] == [a, b, c];
  }

  /** A monitor message that its device passes on to the database and the database handles. */
  lemma Passes(w: World, i: nat, report: Report) returns (es: seq<Event>)
    requires Quiet(w, i) && !report.StatusReport? && (report.DataReport? ==> report.data.trace == w.traces)
    ensures Possible(w, es) && Passed(w, After(w, es), i, report)
  {
    var m := w.devices[i].monitor;
    var a, b := Incoming(i, report), TurnDevice(i, Link(true, true));
    var w2 := DevicePasses(w, i, report);
    hide HandleStore, HandleMonitor, Opened, StoreData, After, Possible;
    var c := DatabaseTurn(w2);
    DatabaseStores(w2, c);
    if report.DataReport? {
      StoredRows(SQLite, w.store, report.data, m.session);
    } else {
      StaysCreated(w.store, report.info, m.data.hash);
    }
    ThreeSteps(w, a, b, c);
    es := [a, b, c];
  }

  lemma DevicePasses(w: World, i: nat, report: Report) returns (w2: World)
    requires Quiet(w, i) && !report.StatusReport? && (report.DataReport? ==> report.data.trace == w.traces)
    ensures var a, b := Incoming(i, report), TurnDevice(i, Link(true, true));
            Enabled(w, a) && Enabled(Next(w, a), b) && w2 == Next(Next(w, a), b)
    ensures i < |w2.devices| && w2.devices[i].monitor.connected
    ensures var m, m2 := w.devices[i].monitor, w2.devices[i].monitor;
            && w2 == w.(database := w2.database, devices := w2.devices, log := w2.log, traces := w2.traces, owners := w2.owners)
            && m2.data == m.data
            && match report
               case SessionReport(info) =>
                 && w2.devices[i].queue == [Protocol.Internal(StartStream)] && m2.session == info.hash
                 && w2.database == [Started(m, info)] && w2.log == w.log + [SessionTaken(i, info.hash)] && w2.traces == w.traces
               case DataReport(data) =>
                 && w2.devices[i].queue == [] && m2.session == m.session
                 && w2.database == [Sampled(m, data)] && w2.log == w.log + [SampleTaken(i, data.trace)]
                 && w2.traces == w.traces + 1
               case StatusReport => false
  {
    hide HandleStore, HandleMonitor, RouteOf, Accept, Configured, Ticked;
    DeviceForwards(Link(true, true), w.devices[i].monitor, RequestOf(report));
    var w1 := Next(w, Incoming(i, report));
    assert w1.devices[i] == Device(w.devices[i].monitor, [RequestOf(report)]);
    w2 := Next(w1, TurnDevice(i, Link(true, true)));
  }

  lemma DeviceForwards(link: Link, m: Monitor, rq: DeviceRequest)
    ensures var outcome := HandleMonitor(link, m, rq);
            && (rq.action.SetSession? || rq.action.ProcessData? ==>
                  !outcome.fault && outcome.dispatched == [] && outcome.monitor.connected == m.connected && outcome.monitor.data == m.data)
            && (rq.action.SetSession? ==>
                  && outcome.requeued == [Protocol.Internal(StartStream)] && outcome.stored == [Started(m, rq.action.info)]
                  && outcome.monitor.session == rq.action.info.hash)
            && (rq.action.ProcessData? ==>
                  outcome.requeued == [] && outcome.stored == [Sampled(m, rq.action.data)] && outcome.monitor.session == m.session)
  {
    hide Reply, Configured;
  }

  lemma DatabaseStores(w: World, c: Event)
    requires |w.database| == 1 && Enabled(w, c) && c.TurnDatabase? && w.store.created && w.dialect.SQLite?
    requires c.env == Fine(c.env.deviceOrder, c.env.sessionOrder)
    requires w.database[0].action.AddSession? || w.database[0].action.AddData?
    ensures var w', rq := Next(w, c), w.database[0];
            && w' == w.(database := [], store := w'.store)
            && w'.store == match rq.action
                           case AddSession(info) => Opened(w.store, info, rq.args[DeviceHash].text)
                           case AddData(data) => StoreData(SQLite, w.store, data, rq.args[SessionHash].text)
                           case _ => w.store
  {
    hide StoreData, InsertSession, DeleteSession, SessionIds, Lists, Registry;
    assert w.database[1..] == [] && w.devices + Enrol([]) == w.devices;
    assert w.dispatcher + [] == w.dispatcher && w.sent + [] == w.sent;
  }

  lemma StaysCreated(s: Store, info: SessionInfo, hash: string)
    ensures Opened(s, info, hash).created == s.created && DeleteSession(SQLite, s, hash).created == s.created
  {
  }

  predicate Passed(w: World, w': World, i: nat, report: Report)
    requires i < |w.devices|
  {
    && w'.dialect.SQLite? && w'.phase.Running? && w'.dispatcher == [] && w'.database == [] && w'.store.created
    && i < |w'.devices| && w'.devices[i].monitor.connected
    && var m, m' := w.devices[i].monitor, w'.devices[i].monitor;
       && m'.data == m.data
       && match report
          case SessionReport(info) =>
            && w'.devices[i].queue == [Protocol.Internal(StartStream)] && m'.session == info.hash
            && w'.store == Opened(w.store, info, m.data.hash) && w'.log == w.log + [SessionTaken(i, info.hash)]
            && w'.traces == w.traces
          case DataReport(data) =>
            && w'.devices[i].queue == [] && m'.session == m.session
            && w'.store == StoreData(SQLite, w.store, data, m.session) && w'.log == w.log + [SampleTaken(i, data.trace)]
            && w'.traces == w.traces + 1
          case StatusReport => false
  }

  /** A session message that is stored, and the stream it leads to. */
  lemma Opens(w: World, i: nat, info: SessionInfo) returns (es: seq<Event>)
    requires Quiet(w, i)
    ensures Possible(w, es) && Quiet(After(w, es), i)
    ensures var w', m, m' := After(w, es), w.devices[i].monitor, After(w, es).devices[i].monitor;
            && m'.data == m.data && m'.session == info.hash && w'.traces == w.traces
            && w'.store == Opened(w.store, info, m.data.hash) && w'.log == w.log + [SessionTaken(i, info.hash)]
  {
    es := Passes(w, i, SessionReport(info));
    var w1, e := After(w, es), TurnDevice(i, Link(true, true));
    AfterStep(w, es, e);
    es := es + [e];
    hide After, Possible, HandleStore, Opened, Configured;
    assert w1.log + [] == w1.log;
  }

  /** A control request that removes the session. */
  lemma Removes(w: World, i: nat, rq: ControlRequest) returns (es: seq<Event>)
    requires Quiet(w, i) && rq.command.AskRemoveSession? && SessionIds(SQLite, w.store, rq.command.hash) != {}
    ensures Possible(w, es) && Quiet(After(w, es), i)
    ensures var w' := After(w, es);
            && w'.devices == w.devices && w'.log == w.log && w'.traces == w.traces
            && w'.store == DeleteSession(SQLite, w.store, rq.command.hash)
  {
    hide InsertSession, DeleteSession, DeviceIds, SessionIds, Lists, NewDevices, EndRequests, DeviceEntries,
      SessionEntries, Registry, HandleMonitor, After, Possible;
    var a := Control(0, rq, true);
    var w1 := Next(w, a);
    var b := TurnDispatcher(true);
    var w2 := Next(w1, b);
    assert w2.database == [Request(Some(Origin(0, |w.asked|)), RemSession(rq.command.hash), w1.dispatcher[0].args)];
    var c := DatabaseTurn(w2);
    var w3 := Next(w2, c);
    assert w3.database == [] && w3.devices == w.devices;
    StaysCreated(w.store, NO_SESSION, rq.command.hash);
    ThreeSteps(w, a, b, c);
    es := [a, b, c];
    AfterStep(w, es, b);
    es := es + [b];
  }

  // ---- what the requests do to the tables ----

  lemma FirstSession(s: Store, info: SessionInfo, deviceHash: string)
    requires s.created && s.sessions == map[] && DeviceIds(SQLite, s, deviceHash) != {}
    ensures var s' := Opened(s, info, deviceHash);
            && s'.created && s'.devices == s.devices && s'.rows == s.rows && s'.sessions.Keys == {1}
            && s'.sessions[1].hash == info.hash && s'.sessions[1].ended == 0
  {
    assert s.sessions.Keys == {};
  }

  lemma FirstSample(s: Store, data: Data, hash: string)
    requires s.sessions.Keys == {1} && s.sessions[1].hash == hash && s.sessions[1].ended == 0
    requires s.rows == [] && Entries(data) != []
    ensures var s' := StoreData(SQLite, s, data, hash);
            && s' == s.(rows := s'.rows) && s'.rows != [] && s'.rows[0].session == 1 && s'.rows[0].trace == data.trace
  {
    StoredRows(SQLite, s, data, hash);
    assert 1 in OpenIds(SQLite, s, hash) && OpenIds(SQLite, s, hash) == {1};
  }

  /** From any state with a connected device whose table has no sessions: it takes a session and stores a
      sample, a client removes the session, the device takes another, and the sample lies under that
      one, which it was not taken for. */
  lemma RemovalMisnamesExample(w: World, i: nat, a: SessionInfo, b: SessionInfo, data: Data, rq: ControlRequest)
    returns (es: seq<Event>, r: DataRow)
    requires Quiet(w, i) && w.store.sessions == map[] && w.store.rows == []
    requires DeviceIds(SQLite, w.store, w.devices[i].monitor.data.hash) != {}
    requires Entries(data) != [] && data.trace == w.traces && rq.command == AskRemoveSession(a.hash) && a.hash != b.hash
    requires forall k | 0 <= k < |w.log| && w.log[k].SampleTaken? :: w.log[k].trace < w.traces
    ensures Possible(w, es) && RowsNamed(w, w.traces)
    ensures var w' := After(w, es);
            && r in w'.store.rows && r.trace == data.trace && r.session in w'.store.sessions
            && w'.store.sessions[r.session].hash == b.hash && TakenUnder(w'.log, r.trace, i, a.hash) && !RowNamed(w', r)
  {
    hide After, Possible, Opened, StoreData, DeleteSession, Entries, DeviceIds;
    var device := w.devices[i].monitor.data.hash;
    es := Opens(w, i, a);
    var w1 := After(w, es);
    FirstSession(w.store, a, device);
    var more := Passes(w1, i, DataReport(data));
    AfterRun(w, es, more);
    es := es + more;
    var w2 := After(w, es);
    FirstSample(w1.store, data, a.hash);
    r := w2.store.rows[0];
    Emptied(w2.store, a.hash);
    more := Removes(w2, i, rq);
    AfterRun(w, es, more);
    es := es + more;
    var w3 := After(w, es);
    more := Opens(w3, i, b);
    AfterRun(w, es, more);
    es := es + more;
    SameDevices(w.store, w3.store, device);
    FirstSession(w3.store, b, device);
    TakenOnce(w.log, i, data.trace, a.hash, b.hash);
    assert After(w, es).log == w.log + [SessionTaken(i, a.hash), SampleTaken(i, data.trace), SessionTaken(i, b.hash)];
  }

  lemma SameDevices(s: Store, s': Store, hash: string)
    requires s.devices == s'.devices
    ensures DeviceIds(SQLite, s, hash) == DeviceIds(SQLite, s', hash)
  {
  }

  lemma Emptied(s: Store, hash: string)
    requires s.sessions.Keys == {1} && s.sessions[1].hash == hash
    ensures SessionIds(SQLite, s, hash) == {1}
    ensures DeleteSession(SQLite, s, hash) == s.(sessions := map[])
  {
    assert SessionIds(SQLite, s, hash) == {1};
  }

  lemma TakenOnce(log: seq<Entry>, i: nat, trace: nat, before: string, after: string)
    requires forall k | 0 <= k < |log| && log[k].SampleTaken? :: log[k].trace < trace
    ensures var log' := log + [SessionTaken(i, before), SampleTaken(i, trace), SessionTaken(i, after)];
            TakenUnder(log', trace, i, before) && forall j, h | TakenUnder(log', trace, j, h) :: h == before
  {
    var log' := log + [SessionTaken(i, before), SampleTaken(i, trace), SessionTaken(i, after)];
    assert log'[..|log| + 1] == log + [SessionTaken(i, before)];
    LastTakenSnoc(log, SessionTaken(i, before), i);
    assert log'[|log| + 1] == SampleTaken(i, trace);
    hide LastTaken;
    assert forall k | 0 <= k < |log'| && log'[k].SampleTaken? && log'[k].trace == trace :: k == |log| + 1;
  }

  // ---- such a state is reached ----

  /** Start-up on a fresh table with one device, and a client that connects it. */
  lemma ConnectedExample(device: DeviceData, rq: ControlRequest) returns (store: Store, es: seq<Event>)
    requires rq.command == AskConnect(device.hash)
    ensures Sound(SQLite, store) && Linked(store) && Possible(Startup(SQLite, store, 0, false), es)
    ensures var w := After(Startup(SQLite, store, 0, false), es);
            && Quiet(w, 0) && w.store == store && store.sessions == map[] && store.rows == [] && w.log == [] && w.traces == 0
            && w.devices[0].monitor.data == device && DeviceIds(SQLite, store, device.hash) != {}
  {
    store := EMPTY_STORE.(created := true, devices := map[1 := device], nextDevice := 2);
    assert 1 in DeviceIds(SQLite, store, device.hash);
    es := Loads(device, store);
    hide DeviceIds;
    var more := Connects(After(Startup(SQLite, store, 0, false), es), rq);
    AfterRun(Startup(SQLite, store, 0, false), es, more);
    es := es + more;
  }

  lemma Loads(device: DeviceData, store: Store) returns (es: seq<Event>)
    requires store.created && store.devices == map[1 := device] && store.sessions == map[] && store.rows == []
    ensures Possible(Startup(SQLite, store, 0, false), es)
    ensures var w := After(Startup(SQLite, store, 0, false), es);
            && w == Startup(SQLite, store, 0, false).(database := [], devices := [Device(NewMonitor(device), [])])
  {
    hide After, Possible, HandleStore, Answers;
    var w, env := Startup(SQLite, store, 0, false), Fine([1], []);
    var e := TurnDatabase(env);
    StartupEffects(device, store, env);
    var loaded := Device(NewMonitor(device), []);
    var w1 := w.(database := [Protocol.Internal(LoadDevices), Protocol.Internal(CleanSessions)]);
    assert Next(w, e) == w1;
    var w2 := w.(database := [Protocol.Internal(CleanSessions)], devices := [loaded]);
    assert Enrol([device]) == [loaded] && [] + Enrol([device]) == [loaded];
    assert Next(w1, e) == w2;
    assert [loaded] + Enrol([]) == [loaded];
    assert Next(w2, e) == w2.(database := []);
    ThreeSteps(w, e, e, e);
    es := [e, e, e];
  }

  lemma StartupEffects(device: DeviceData, store: Store, env: Env)
    requires store.created && store.devices == map[1 := device] && store.sessions == map[] && env == Fine([1], [])
    ensures Answers(env, store)
    ensures forall registry :: HandleStore(SQLite, env, store, registry, Protocol.Internal(CheckDatabase)) == Silent(store)
    ensures HandleStore(SQLite, env, store, map[], Protocol.Internal(LoadDevices)) == Silent(store).(loaded := [device])
    ensures forall registry :: HandleStore(SQLite, env, store, registry, Protocol.Internal(CleanSessions)) == Silent(store)
  {
    assert store.devices.Keys == {1};
    var none: map<string, DeviceState> := map[];
    assert [1][..0] == [] && none.Keys == {};
    assert NewDevices(store, [1], none.Keys) == [device];
  }

  lemma Connects(w: World, rq: ControlRequest) returns (es: seq<Event>)
    requires w.dialect.SQLite? && w.phase.Running? && w.store.created && w.dispatcher == [] && w.database == []
    requires |w.devices| == 1 && w.devices[0] == Device(NewMonitor(w.devices[0].monitor.data), [])
    requires rq.command == AskConnect(w.devices[0].monitor.data.hash)
    ensures Possible(w, es) && Quiet(After(w, es), 0)
    ensures var w' := After(w, es);
            && w'.store == w.store && w'.log == w.log && w'.traces == w.traces
            && w'.devices[0].monitor.data == w.devices[0].monitor.data
  {
    hide After, Possible, HandleStore;
    var device := w.devices[0].monitor.data;
    var connect := Request(Some(Origin(0, |w.asked|)), Connect, Accept(Origin(0, |w.asked|), rq, true).args);
    assert w.devices[..0] == [];
    es := Connections.RequestArrives(w, 0, rq, connect);
    var w1 := After(w, es);
    assert w1.devices[0].queue == [connect];
    var more := ConnectTurns(w1, connect);
    AfterRun(w, es, more);
    es := es + more;
    hide HandleMonitor;
    AfterStep(w, es, TurnDispatcher(true));
    es := es + [TurnDispatcher(true)];
  }

  lemma ConnectTurns(w: World, connect: DeviceRequest) returns (es: seq<Event>)
    requires w.phase.Running? && w.dispatcher == [] && connect.action.Connect? && connect.client.Some?
    requires |w.devices| == 1 && w.devices[0] == Device(NewMonitor(w.devices[0].monitor.data), [connect])
    ensures Possible(w, es)
    ensures var w' := After(w, es);
            && w' == w.(dispatcher := w'.dispatcher, devices := w'.devices)
            && |w'.dispatcher| == 1 && w'.dispatcher[0].action.SendStatus?
            && |w'.devices| == 1 && w'.devices[0].queue == [] && w'.devices[0].monitor.connected
            && w'.devices[0].monitor.data == w.devices[0].monitor.data
  {
    hide HandleStore, RouteOf, Reply;
    var c := TurnDevice(0, Link(true, true));
    AfterStep(w, [], c);
    es := [c];
    var w1 := After(w, es);
    assert w.log + [] == w.log && w.database + [] == w.database;
    assert w1.devices[0] == Device(w.devices[0].monitor.(connected := true, watched := true),
                                   [Request(connect.client, SendDescriptor, connect.args)]);
    assert w1.dispatcher == w.dispatcher && w1 == w.(devices := w1.devices);
    hide After, Possible;
    AfterStep(w, es, c);
    es := es + [c];
    var w2 := After(w, es);
    assert |w2.devices| == 1 && w2.devices[0].queue == [];
  }

  /** So from start-up on a sound table SQLite can lose the attribution. */
  lemma AttributionFailsExample(device: DeviceData, a: SessionInfo, b: SessionInfo, data: Data, connect: ControlRequest, remove: ControlRequest)
    returns (store: Store, es: seq<Event>, r: DataRow)
    requires Entries(data) != [] && data.trace == 0 && a.hash != b.hash
    requires connect.command == AskConnect(device.hash) && remove.command == AskRemoveSession(a.hash)
    ensures Sound(SQLite, store) && Linked(store) && store.rows == [] && Possible(Startup(SQLite, store, 0, false), es)
    ensures var w := After(Startup(SQLite, store, 0, false), es);
            r in w.store.rows && r.session in w.store.sessions && !RowNamed(w, r)
  {
    hide After, Possible, Quiet, DeviceIds, Entries, Sound, Linked, Startup;
    store, es := ConnectedExample(device, connect);
    var w0 := Startup(SQLite, store, 0, false);
    var more: seq<Event>;
    QuietDevice(After(w0, es), 0);
    more, r := RemovalMisnamesExample(After(w0, es), 0, a, b, data, remove);
    AfterRun(w0, es, more);
    es := es + more;
  }

  lemma QuietDevice(w: World, i: nat)
    requires Quiet(w, i)
    ensures i < |w.devices| && w.phase.Running?
  {
  }
}
