/** The device registry against the device table, over whole runs (source/DeviceManager.cpp). */
module RegistryRuns {
  import opened Protocol
  import opened Like
  import opened Tables
  import opened Backend
  import opened MonitorRules
  import opened Routing
  import opened Collector

  ghost predicate Distinct(devices: seq<Device>) {
    forall i, j | 0 <= i < j < |devices| :: devices[i].monitor.data.hash != devices[j].monitor.data.hash
  }

  ghost predicate Registered(devices: seq<Device>, hash: string) {
    exists i :: 0 <= i < |devices| && devices[i].monitor.data.hash == hash
  }

  lemma RegisteredSplit(devices: seq<Device>, hash: string)
    requires devices != []
    ensures Registered(devices, hash) <==>
              Registered(devices[..|devices| - 1], hash) || devices[|devices| - 1].monitor.data.hash == hash
  {
    var earlier := devices[..|devices| - 1];
    if Registered(earlier, hash) {
      var i :| 0 <= i < |earlier| && earlier[i].monitor.data.hash == hash;
      assert devices[i].monitor.data.hash == hash;
    }
    if Registered(devices, hash) && devices[|devices| - 1].monitor.data.hash != hash {
      var i :| 0 <= i < |devices| && devices[i].monitor.data.hash == hash;
      assert earlier[i].monitor.data.hash == hash;
    }
  }

  lemma {:induction false} RegistryKeys(devices: seq<Device>)
    ensures forall h :: h in Registry(devices) <==> Registered(devices, h)
  {
    if devices != [] {
      RegistryKeys(devices[..|devices| - 1]);
      forall h ensures h in Registry(devices) <==> Registered(devices, h) {
        RegisteredSplit(devices, h);
      }
    }
  }

  /** The states the database lists are those of the devices `getDevice` finds. */
  lemma {:induction false} RegistryIsGetDevice(devices: seq<Device>, hash: string)
    ensures hash in Registry(devices) <==> Find(devices, hash).Some?
    ensures hash in Registry(devices) ==> Registry(devices)[hash] == devices[Find(devices, hash).value].monitor.state
  {
    if devices != [] {
      RegistryIsGetDevice(devices[..|devices| - 1], hash);
    }
  }

  ghost predicate Listed(s: Store, order: seq<nat>, device: DeviceData) {
    exists k :: 0 <= k < |order| && order[k] in s.devices && s.devices[order[k]] == device
  }

  ghost predicate Has(loaded: seq<DeviceData>, hash: string) {
    exists d :: d in loaded && d.hash == hash
  }

  /** What loading adds: rows of the table under hashes not known before, each hash once ... */
  lemma {:induction false} NewDevicesAreNew(s: Store, order: seq<nat>, known: set<string>)
    requires forall i | 0 <= i < |order| :: order[i] in s.devices
    ensures var loaded := NewDevices(s, order, known);
            && (forall d | d in loaded :: d.hash !in known && Listed(s, order, d))
            && (forall i, j | 0 <= i < j < |loaded| :: loaded[i].hash != loaded[j].hash)
  {
    if order != [] {
      var shorter := order[..|order| - 1];
      var earlier := NewDevices(s, shorter, known);
      NewDevicesAreNew(s, shorter, known);
      forall d | d in earlier ensures Listed(s, order, d) {
        var k :| 0 <= k < |shorter| && shorter[k] in s.devices && s.devices[shorter[k]] == d;
        assert order[k] == shorter[k];
      }
      assert Listed(s, order, s.devices[order[|order| - 1]]);
    }
  }

  /** ... and between them and the known ones every listed row. */
  lemma {:induction false} NewDevicesCover(s: Store, order: seq<nat>, known: set<string>, k: nat)
    requires forall i | 0 <= i < |order| :: order[i] in s.devices
    requires k < |order|
    ensures s.devices[order[k]].hash in known || Has(NewDevices(s, order, known), s.devices[order[k]].hash)
  {
    var shorter := order[..|order| - 1];
    var earlier, loaded := NewDevices(s, shorter, known), NewDevices(s, order, known);
    var hash := s.devices[order[k]].hash;
    assert forall d | d in earlier :: d in loaded;
    if k < |shorter| {
      assert order[k] == shorter[k];
      NewDevicesCover(s, shorter, known, k);
      if Has(earlier, hash) {
        var d :| d in earlier && d.hash == hash;
        assert d in loaded;
      }
    } else if hash !in known && !Has(earlier, hash) {
      assert s.devices[order[k]] in loaded;
    }
  }

  /** A device that was only loaded: no session, no connection, no timers, nothing waiting. */
  predicate Fresh(device: Device) {
    && device.monitor.state == Loaded && device.monitor.session == "" && !device.monitor.connected && !device.monitor.watched
    && device.monitor.sources == [] && device.monitor.running == {} && device.queue == []
  }

  /** Handling LoadDevices: entries keep their place and state, the new ones are Loaded with empty
      queues, hashes stay distinct, and every device row has an entry. */
  lemma LoadingCompletesTheRegistry(w: World, env: Env)
    requires Enabled(w, TurnDatabase(env)) && w.database[0].action.LoadDevices? && env.select && w.store.created
    requires Distinct(w.devices)
    ensures var w' := TurnedDatabase(w, env);
            && w.devices <= w'.devices && Distinct(w'.devices)
            && (forall i | |w.devices| <= i < |w'.devices| ::
                  && Fresh(w'.devices[i])
                  && Listed(w.store, env.deviceOrder, w'.devices[i].monitor.data))
            && (forall id | id in w.store.devices :: Find(w'.devices, w.store.devices[id].hash).Some?)
  {
    hide HandleStore, NewDevices, Registry, TurnedDatabase, Listed, Distinct, Enrol, Fresh, Registered;
    LoadedEntries(w, env);
    var loaded, w' := NewDevices(w.store, env.deviceOrder, Registry(w.devices).Keys), TurnedDatabase(w, env);
    EnrolmentGrows(w.devices, loaded);
    EnrolledAt(w.devices, loaded);
    forall i | |w.devices| <= i < |w'.devices|
      ensures Fresh(w'.devices[i]) && Listed(w.store, env.deviceOrder, w'.devices[i].monitor.data)
    {
      assert loaded[i - |w.devices|] in loaded;
    }
    forall id | id in w.store.devices ensures Find(w'.devices, w.store.devices[id].hash).Some? {
      EntryFor(w, env, id);
    }
  }

  lemma EnrolledAt(devices: seq<Device>, loaded: seq<DeviceData>)
    ensures var all := devices + Enrol(loaded);
            && devices <= all && |all| == |devices| + |loaded|
            && forall i | |devices| <= i < |all| ::
                 Fresh(all[i]) && all[i].monitor.data == loaded[i - |devices|]
  {
  }

  lemma LoadedEntries(w: World, env: Env)
    requires Enabled(w, TurnDatabase(env)) && w.database[0].action.LoadDevices? && env.select && w.store.created
    ensures var loaded := NewDevices(w.store, env.deviceOrder, Registry(w.devices).Keys);
            && TurnedDatabase(w, env).devices == w.devices + Enrol(loaded)
            && (forall d | d in loaded :: Listed(w.store, env.deviceOrder, d))
            && (forall i, j | 0 <= i < j < |loaded| :: loaded[i].hash != loaded[j].hash)
            && (forall d | d in loaded :: !Registered(w.devices, d.hash))
  {
    NewDevicesAreNew(w.store, env.deviceOrder, Registry(w.devices).Keys);
    RegistryKeys(w.devices);
    hide NewDevices, Registry, Registered;
  }

  lemma LoadedTail(w: World, env: Env)
    requires Enabled(w, TurnDatabase(env)) && w.database[0].action.LoadDevices? && env.select && w.store.created
    ensures TurnedDatabase(w, env).devices
         == w.devices + Enrol(NewDevices(w.store, env.deviceOrder, Registry(w.devices).Keys))
  {
  }

  lemma EntryFor(w: World, env: Env, id: nat)
    requires Enabled(w, TurnDatabase(env)) && w.database[0].action.LoadDevices? && env.select && w.store.created
    requires id in w.store.devices
    ensures Find(TurnedDatabase(w, env).devices, w.store.devices[id].hash).Some?
  {
    var order, hash, w' := env.deviceOrder, w.store.devices[id].hash, TurnedDatabase(w, env);
    var known := Registry(w.devices).Keys;
    var loaded := NewDevices(w.store, order, known);
    LoadedTail(w, env);
    RegistryKeys(w.devices);
    var k :| 0 <= k < |order| && order[k] == id;
    NewDevicesCover(w.store, order, known, k);
    hide NewDevices, Registry, TurnedDatabase, Lists;
    if Registered(w.devices, hash) {
      var i :| 0 <= i < |w.devices| && w.devices[i].monitor.data.hash == hash;
      assert w'.devices[i] == w.devices[i];
    } else {
      var d :| d in loaded && d.hash == hash;
      var i :| 0 <= i < |loaded| && loaded[i] == d;
      assert w'.devices[|w.devices| + i].monitor.data == d;
    }
  }

  lemma EnrolmentGrows(devices: seq<Device>, loaded: seq<DeviceData>)
    requires Distinct(devices)
    requires forall i, j | 0 <= i < j < |loaded| :: loaded[i].hash != loaded[j].hash
    requires forall d | d in loaded :: !Registered(devices, d.hash)
    ensures Grows(devices, devices + Enrol(loaded))
  {
    var all := devices + Enrol(loaded);
    forall i, j | 0 <= i < j < |all| ensures all[i].monitor.data.hash != all[j].monitor.data.hash {
      if j >= |devices| {
        assert all[j].monitor.data == loaded[j - |devices|];
        if i >= |devices| {
          assert all[i].monitor.data == loaded[i - |devices|];
        }
      }
    }
  }

  /** Entries are only ever added behind the others, under new hashes. */
  ghost predicate Grows(devices: seq<Device>, more: seq<Device>) {
    && |devices| <= |more| && Distinct(more)
    && forall i | 0 <= i < |devices| :: more[i].monitor.data == devices[i].monitor.data
  }

  lemma StepGrows(w: World, e: Event)
    requires Distinct(w.devices) && Enabled(w, e)
    ensures Grows(w.devices, Next(w, e).devices)
  {
    hide HandleStore, HandleMonitor;
    match e
    case TurnDatabase(env) => DatabaseTurnGrows(w, env);
    case TurnDevice(i, link) => MonitorKeepsData(link, w.devices[i].monitor, w.devices[i].queue[0]);
    case _ =>
  }

  lemma MonitorKeepsData(link: Link, m: Monitor, rq: DeviceRequest)
    ensures HandleMonitor(link, m, rq).monitor.data == m.data
  {
  }

  lemma DatabaseTurnGrows(w: World, env: Env)
    requires Distinct(w.devices) && Enabled(w, TurnDatabase(env))
    ensures Grows(w.devices, TurnedDatabase(w, env).devices)
  {
    hide HandleStore, NewDevices, Registry, Listed, Registered, Distinct, Grows, Enrol;
    NewDevicesAreNew(w.store, env.deviceOrder, Registry(w.devices).Keys);
    RegistryKeys(w.devices);
    LoadedOrNone(w, env);
    EnrolmentGrows(w.devices, HandleStore(w.dialect, env, w.store, Registry(w.devices), w.database[0]).loaded);
  }

  lemma LoadedOrNone(w: World, env: Env)
    requires Enabled(w, TurnDatabase(env))
    ensures var loaded := HandleStore(w.dialect, env, w.store, Registry(w.devices), w.database[0]).loaded;
            loaded == [] || loaded == NewDevices(w.store, env.deviceOrder, Registry(w.devices).Keys)
  {
    hide DeleteDevices, DeleteSession, InsertDeviceRow, InsertSession, MarkEnded, StoreData, Lists, DropTables,
      DeviceEntries, SessionEntries, EndRequests, NewDevices, DeviceIds, SessionIds, Reply;
  }

  /** Over every run the registry keeps its hashes apart and never loses or replaces an entry, so
      `getDevice` keeps finding the same device. */
  lemma {:induction false} RegistryOnlyGrows(w: World, es: seq<Event>)
    requires Distinct(w.devices) && Possible(w, es)
    ensures Grows(w.devices, After(w, es).devices)
    ensures forall h | Find(w.devices, h).Some? :: Find(After(w, es).devices, h) == Find(w.devices, h)
    decreases |es|
  {
    if es != [] {
      StepGrows(w, es[0]);
      hide HandleStore, HandleMonitor, Next, Enabled;
      RegistryOnlyGrows(Next(w, es[0]), es[1..]);
    }
    forall h | Find(w.devices, h).Some? ensures Find(After(w, es).devices, h) == Find(w.devices, h) {
      var i := Find(w.devices, h).value;
      var j := Find(After(w, es).devices, h);
      assert After(w, es).devices[i].monitor.data.hash == h;
      assert j.Some? && After(w, es).devices[j.value].monitor.data.hash == h;
    }
  }
}
