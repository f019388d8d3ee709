/** The session a sample lies under belongs to the device that took the sample (PostgreSQL). */
module Ownership {
  import opened Protocol
  import opened Like
  import opened Tables
  import opened Samples
  import opened Backend
  import opened MonitorRules
  import opened Routing
  import opened Collector
  import opened Queues
  import opened Relational
  import opened Closing
  import opened Attribution

  // ---- hashes and the devices they arrived at ----

  /** The hash arrived as a session of device `i`, and it is a plain, non-empty name. */
  ghost predicate Names(w: World, hash: string, i: nat) {
    hash != "" && Exact(PostgreSQL, hash) && hash in w.owners && w.owners[hash] == i && i < |w.devices|
  }

  /** Sessions and samples in the queues carry hashes of the devices they come from. */
  ghost predicate Named(w: World) {
    && (forall i | 0 <= i < |w.devices| :: w.devices[i].monitor.session == "" || Names(w, w.devices[i].monitor.session, i))
    && (forall i, rq | 0 <= i < |w.devices| && rq in w.devices[i].queue && rq.action.SetSession? ::
          Names(w, rq.action.info.hash, i))
    && (forall rq | rq in w.database && rq.action.AddSession? :: WellFormed(rq) && SessionNamed(w, rq))
    && (forall rq | rq in w.database && rq.action.AddData? :: WellFormed(rq) && SampleNamed(w, rq))
  }

  ghost predicate SessionNamed(w: World, rq: StoreRequest)
    requires rq.action.AddSession? && WellFormed(rq)
  {
    exists i: nat :: Names(w, rq.action.info.hash, i) && rq.args[DeviceHash].text == w.devices[i].monitor.data.hash
  }

  ghost predicate SampleNamed(w: World, rq: StoreRequest)
    requires rq.action.AddData? && WellFormed(rq)
  {
    var hash := rq.args[SessionHash].text;
    exists i: nat :: TakenUnder(w.log, rq.action.data.trace, i, hash) && (hash == "" || Names(w, hash, i))
  }

  /** Session hashes are plain, not empty, and never shared by two devices; registered device hashes
      are plain; the checks and deletes of the database succeed. */
  ghost predicate Orderly(w: World, e: Event) {
    && (forall i | 0 <= i < |w.devices| :: Exact(PostgreSQL, w.devices[i].monitor.data.hash))
    && match e
       case Incoming(i, SessionReport(info)) =>
         info.hash != "" && Exact(PostgreSQL, info.hash) && (info.hash in w.owners ==> w.owners[info.hash] == i)
       case TurnDatabase(env) => Careful(env)
       case _ => true
  }

  /** Nothing that names a hash is lost from one state to the next. */
  ghost predicate Extends(w: World, w': World) {
    && |w.devices| <= |w'.devices|
    && (forall i | 0 <= i < |w.devices| :: w'.devices[i].monitor.data == w.devices[i].monitor.data)
    && (forall h | h in w.owners :: h in w'.owners && w'.owners[h] == w.owners[h])
    && w.log <= w'.log
  }

  lemma StepExtends(w: World, e: Event)
    requires Enabled(w, e) && Orderly(w, e)
    ensures Extends(w, Next(w, e))
  {
    hide HandleStore, HandleMonitor, Exact, Careful, RouteOf, Accept, Registry;
    if e.TurnDevice? {
      SessionChanges(e.link, w.devices[e.device].monitor, w.devices[e.device].queue[0]);
    }
  }

  lemma NamedExtends(w: World, w': World, rq: StoreRequest)
    requires Extends(w, w') && WellFormed(rq)
    ensures rq.action.AddSession? && SessionNamed(w, rq) ==> SessionNamed(w', rq)
    ensures rq.action.AddData? && SampleNamed(w, rq) ==> SampleNamed(w', rq)
  {
    if rq.action.AddSession? && SessionNamed(w, rq) {
      var i: nat :| Names(w, rq.action.info.hash, i) && rq.args[DeviceHash].text == w.devices[i].monitor.data.hash;
      assert Names(w', rq.action.info.hash, i);
    }
    if rq.action.AddData? && SampleNamed(w, rq) {
      var hash := rq.args[SessionHash].text;
      var i: nat :| TakenUnder(w.log, rq.action.data.trace, i, hash) && (hash == "" || Names(w, hash, i));
      TakenUnderGrows(w.log, w'.log[|w.log|..], rq.action.data.trace, i, hash);
      assert w.log + w'.log[|w.log|..] == w'.log;
      assert hash == "" || Names(w', hash, i);
    }
  }

  lemma DeviceTurnNames(w: World, i: nat, link: Link)
    requires Named(w) && Remembered(w) && Enabled(w, TurnDevice(i, link)) && Orderly(w, TurnDevice(i, link))
    ensures var w' := TurnedDevice(w, i, link);
            forall rq | rq in HandleMonitor(link, w.devices[i].monitor, w.devices[i].queue[0]).stored ::
              && WellFormed(rq)
              && (rq.action.AddSession? ==> SessionNamed(w', rq))
              && (rq.action.AddData? ==> SampleNamed(w', rq))
  {
    hide Exact, LastTaken, HandleStore, RouteOf, Orderly, Reply;
    var w' := TurnedDevice(w, i, link);
    var m, rq := w.devices[i].monitor, w.devices[i].queue[0];
    assert rq in w.devices[i].queue;
    StepExtends(w, TurnDevice(i, link));
    match rq.action
    case SetSession(info) => assert Names(w', info.hash, i);
    case ProcessData(data) =>
      assert w'.log[|w.log|] == SampleTaken(i, data.trace) && w'.log[..|w.log|] == w.log;
      assert TakenUnder(w'.log, data.trace, i, m.session);
      assert m.session == "" || Names(w', m.session, i);
    case _ =>
  }

  lemma ArrivalNames(w: World, e: Event)
    requires Enabled(w, e) && Orderly(w, e) && e.Incoming? && e.report.SessionReport?
    ensures Names(Next(w, e), e.report.info.hash, e.device)
  {
    hide HandleStore, HandleMonitor;
  }

  lemma StepStaysNamed(w: World, e: Event)
    requires Named(w) && Remembered(w) && Proper(w) && Enabled(w, e) && Orderly(w, e)
    ensures Named(Next(w, e))
  {
    var w' := Next(w, e);
    StepExtends(w, e);
    if e.Incoming? && e.report.SessionReport? {
      ArrivalNames(w, e);
    }
    if e.TurnDevice? {
      TurnIsNext(w, e);
    }
    hide HandleStore, HandleMonitor, Next, Enabled, Exact, LastTaken, TakenUnder, Proper, Orderly, Remembered;
    forall rq | rq in w'.database && (rq.action.AddSession? || rq.action.AddData?)
      ensures WellFormed(rq) && (rq.action.AddSession? ==> SessionNamed(w', rq)) && (rq.action.AddData? ==> SampleNamed(w', rq))
    {
      QueuedStores(w, e, rq);
      if rq in w.database {
        NamedExtends(w, w', rq);
      } else {
        DeviceTurnNames(w, e.device, e.link);
      }
    }
    forall i, rq | 0 <= i < |w'.devices| && rq in w'.devices[i].queue && rq.action.SetSession?
      ensures Names(w', rq.action.info.hash, i)
    {
      QueuedSessions(w, e, i, rq);
    }
    forall i | 0 <= i < |w'.devices|
      ensures w'.devices[i].monitor.session == "" || Names(w', w'.devices[i].monitor.session, i)
    {
      HeldSessions(w, e, i);
    }
  }

  // ---- whose session a hash stands for ----

  /** Every row with the hash belongs to the device with that hash. */
  ghost predicate OwnedBy(s: Store, hash: string, device: string) {
    forall id | id in s.sessions && s.sessions[id].hash == hash ::
      s.sessions[id].device in s.devices && s.devices[s.sessions[id].device].hash == device
  }

  /** The rows with the hash belong to the device it names, or its session request is among the
      first `k` pending. */
  ghost predicate Ready(w: World, hash: string, i: nat, k: nat)
    requires i < |w.devices| && k <= |w.database|
  {
    OwnedBy(w.store, hash, w.devices[i].monitor.data.hash)
    || exists j :: 0 <= j < k && Opens(w.database[j], hash)
  }

  /** A session request always goes ahead of the samples taken under its hash. */
  ghost predicate Ordered(w: World) {
    && (forall i | 0 <= i < |w.devices| && w.devices[i].monitor.session != "" ::
          Ready(w, w.devices[i].monitor.session, i, |w.database|))
    && (forall k, i: nat | 0 <= k < |w.database| && IsSample(w.database[k]) && Names(w, Under(w.database[k]), i) ::
          Ready(w, Under(w.database[k]), i, k))
  }

  lemma StatementKeepsOwner(s: Store, st: Statement, hash: string, device: string)
    requires OwnedBy(s, hash, device) && Sound(PostgreSQL, s) && Linked(s)
    requires st.NewSession? && st.info.hash == hash ==> st.deviceHash == device && Exact(PostgreSQL, device)
    ensures OwnedBy(Run(PostgreSQL, s, st), hash, device)
  {
    match st
    case NewSession(info, deviceHash, now) =>
      ScalarIsMember(PostgreSQL, DeviceIds(PostgreSQL, s, deviceHash));
      FreshIdIsFresh(PostgreSQL, s.nextSession, s.sessions.Keys);
    case NewDevice(_) => FreshIdIsFresh(PostgreSQL, s.nextDevice, s.devices.Keys);
    case Sample(data, h) =>
      StoredRows(PostgreSQL, s, data, h);
      hide StoreData;
    case _ =>
  }

  lemma RequestKeepsOwner(env: Env, s: Store, registry: map<string, DeviceState>, rq: StoreRequest, hash: string, device: string)
    requires OwnedBy(s, hash, device) && Sound(PostgreSQL, s) && Linked(s)
    requires Backend.Answers(env, s) && WellFormed(rq)
    requires Opens(rq, hash) ==> rq.args[DeviceHash].text == device && Exact(PostgreSQL, device)
    ensures OwnedBy(HandleStore(PostgreSQL, env, s, registry, rq).store, hash, device)
  {
    RequestRunsStatements(PostgreSQL, env, s, registry, rq);
    var first, second := First(PostgreSQL, env, s, rq), Second(PostgreSQL, env, s, rq);
    assert !first.NewSession?;
    assert second.NewSession? ==> rq.action.AddSession? && second.info == rq.action.info && second.deviceHash == rq.args[DeviceHash].text;
    hide HandleStore, First, Second, Run, OwnedBy, Exact, Sound, Linked;
    StatementKeepsOwner(s, first, hash, device);
    StatementStaysSound(PostgreSQL, s, first);
    StatementStaysLinked(s, first);
    StatementKeepsOwner(Run(PostgreSQL, s, first), second, hash, device);
  }

  /** Handling the session request makes the hash stand for its device. */
  lemma OpeningOwns(env: Env, s: Store, registry: map<string, DeviceState>, rq: StoreRequest, hash: string, device: string)
    requires Tidy(s) && Sound(PostgreSQL, s) && Linked(s) && Backend.Answers(env, s) && WellFormed(rq) && Careful(env)
    requires Opens(rq, hash) && Exact(PostgreSQL, hash)
    requires rq.args[DeviceHash].text == device && Exact(PostgreSQL, device)
    ensures OwnedBy(HandleStore(PostgreSQL, env, s, registry, rq).store, hash, device)
  {
    hide HandleStore, Lists, InsertSession, StoreData, DeleteDevices, InsertDeviceRow, MarkEnded, Sound, Linked;
    RequestRunsStatements(PostgreSQL, env, s, registry, rq);
    var first, second := First(PostgreSQL, env, s, rq), Second(PostgreSQL, env, s, rq);
    var s1 := Run(PostgreSQL, s, first);
    assert forall id | id in s.sessions && s.sessions[id].hash == hash :: id in SessionIds(PostgreSQL, s, hash);
    assert OwnedBy(s1, hash, device);
    hide OwnedBy, Run;
    StatementStaysSound(PostgreSQL, s, first);
    StatementStaysLinked(s, first);
    StatementKeepsOwner(s1, second, hash, device);
  }

  ghost predicate Kept(w: World) {
    w.dialect.PostgreSQL? && Tidy(w.store) && Sound(PostgreSQL, w.store) && Linked(w.store)
  }

  lemma DatabaseTurnKeepsReady(w: World, env: Env, hash: string, i: nat, k: nat)
    requires Kept(w) && Named(w) && Enabled(w, TurnDatabase(env)) && Orderly(w, TurnDatabase(env))
    requires Names(w, hash, i) && 0 < k <= |w.database| && Ready(w, hash, i, k)
    ensures var w' := TurnedDatabase(w, env);
            i < |w'.devices| && w'.devices[i] == w.devices[i] && k - 1 <= |w'.database| && Ready(w', hash, i, k - 1)
  {
    var w' := TurnedDatabase(w, env);
    var rq, device := w.database[0], w.devices[i].monitor.data.hash;
    assert rq in w.database;
    if Opens(rq, hash) {
      OpenedFor(w, rq, hash, i);
      OpeningOwns(env, w.store, Registry(w.devices), rq, hash, device);
    } else if OwnedBy(w.store, hash, device) {
      RequestKeepsOwner(env, w.store, Registry(w.devices), rq, hash, device);
    } else {
      var j :| 0 <= j < k && Opens(w.database[j], hash);
      hide HandleStore;
      assert w'.database[j - 1] == w.database[j];
    }
    hide HandleStore;
  }

  lemma OpenedFor(w: World, rq: StoreRequest, hash: string, i: nat)
    requires Named(w) && rq in w.database && Opens(rq, hash) && Names(w, hash, i)
    ensures WellFormed(rq) && rq.args[DeviceHash].text == w.devices[i].monitor.data.hash
  {
    assert SessionNamed(w, rq);
  }

  lemma ReadyExtends(w: World, w': World, hash: string, i: nat, k: nat, k': nat)
    requires i < |w.devices| && i < |w'.devices| && w'.devices[i].monitor.data == w.devices[i].monitor.data
    requires w'.store == w.store && w.database <= w'.database && k <= |w.database| && k <= k' <= |w'.database|
    requires Ready(w, hash, i, k)
    ensures Ready(w', hash, i, k')
  {
    if !OwnedBy(w.store, hash, w.devices[i].monitor.data.hash) {
      var j :| 0 <= j < k && Opens(w.database[j], hash);
      assert Opens(w'.database[j], hash);
    }
  }

  lemma SampleNames(w: World, w': World, k: nat, i: nat)
    requires Named(w) && k < |w.database| && IsSample(w.database[k]) && Extends(w, w') && Names(w', Under(w.database[k]), i)
    ensures Names(w, Under(w.database[k]), i)
  {
    assert w.database[k] in w.database;
    assert SampleNamed(w, w.database[k]);
  }

  /** The queue moves up by one, and what comes in behind holds no sample. */
  lemma TurnShifts(w: World, env: Env)
    requires Proper(w) && Enabled(w, TurnDatabase(env))
    ensures var w' := TurnedDatabase(w, env);
            && w' == Next(w, TurnDatabase(env)) && |w'.database| >= |w.database| - 1 && |w'.devices| >= |w.devices|
            && (forall k | 0 <= k < |w.database| - 1 :: w'.database[k] == w.database[k + 1])
            && (forall k | |w.database| - 1 <= k < |w'.database| :: !w'.database[k].action.AddData?)
            && (forall i | 0 <= i < |w.devices| :: w'.devices[i] == w.devices[i])
            && (forall i | |w.devices| <= i < |w'.devices| :: w'.devices[i].monitor.session == "")
  {
    hide HandleStore;
    EndRequestsProper(w.store, env.sessionOrder);
  }

  lemma DatabaseTurnStaysOrdered(w: World, env: Env)
    requires Kept(w) && Named(w) && Ordered(w) && Proper(w)
    requires Enabled(w, TurnDatabase(env)) && Orderly(w, TurnDatabase(env))
    ensures Ordered(TurnedDatabase(w, env))
  {
    var w' := TurnedDatabase(w, env);
    TurnShifts(w, env);
    hide HandleStore, Names, Next, Enabled, TurnedDatabase, Orderly, Kept, Named, Proper, Ready;
    forall i | 0 <= i < |w'.devices| && w'.devices[i].monitor.session != ""
      ensures Ready(w', w'.devices[i].monitor.session, i, |w'.database|)
    {
      HeldStaysReady(w, env, i);
    }
    forall k, i: nat | 0 <= k < |w'.database| && IsSample(w'.database[k]) && Names(w', Under(w'.database[k]), i)
      ensures Ready(w', Under(w'.database[k]), i, k)
    {
      SampleStaysReady(w, env, k, i);
    }
  }

  lemma HeldStaysReady(w: World, env: Env, i: nat)
    requires Kept(w) && Named(w) && Ordered(w) && Proper(w)
    requires Enabled(w, TurnDatabase(env)) && Orderly(w, TurnDatabase(env))
    requires i < |w.devices| && w.devices[i].monitor.session != ""
    ensures var w' := TurnedDatabase(w, env);
            i < |w'.devices| && w'.devices[i] == w.devices[i] && Ready(w', w.devices[i].monitor.session, i, |w'.database|)
  {
    var w', hash := TurnedDatabase(w, env), w.devices[i].monitor.session;
    TurnShifts(w, env);
    hide HandleStore, Exact, Next, Enabled, TurnedDatabase, Orderly, Kept, OwnedBy, Ready, Proper;
    DatabaseTurnKeepsReady(w, env, hash, i, |w.database|);
    ReadyExtends(w', w', hash, i, |w.database| - 1, |w'.database|);
  }

  lemma SampleStaysReady(w: World, env: Env, k: nat, i: nat)
    requires Kept(w) && Named(w) && Ordered(w) && Proper(w)
    requires Enabled(w, TurnDatabase(env)) && Orderly(w, TurnDatabase(env))
    requires var w' := TurnedDatabase(w, env);
             k < |w'.database| && IsSample(w'.database[k]) && Names(w', Under(w'.database[k]), i)
    ensures var w' := TurnedDatabase(w, env);
            i < |w'.devices| && k <= |w'.database| && Ready(w', Under(w'.database[k]), i, k)
  {
    var e, w' := TurnDatabase(env), TurnedDatabase(w, env);
    TurnShifts(w, env);
    StepExtends(w, e);
    hide HandleStore, Exact, Next, Enabled, TurnedDatabase, Orderly, Kept, OwnedBy, Ready, Proper;
    assert k < |w.database| - 1 && w'.database[k] == w.database[k + 1];
    SampleNames(w, w', k + 1, i);
    DatabaseTurnKeepsReady(w, env, Under(w.database[k + 1]), i, k + 1);
  }

  lemma DeviceTurnStaysOrdered(w: World, i: nat, link: Link)
    requires Named(w) && Ordered(w) && Enabled(w, TurnDevice(i, link)) && Orderly(w, TurnDevice(i, link))
    ensures Ordered(TurnedDevice(w, i, link))
  {
    var e, w' := TurnDevice(i, link), TurnedDevice(w, i, link);
    var m, rq := w.devices[i].monitor, w.devices[i].queue[0];
    var stored := HandleMonitor(link, m, rq).stored;
    StepExtends(w, e);
    StoredByDevice(link, m, rq);
    hide HandleMonitor;
    forall k | 0 <= k < |w'.devices| && w'.devices[k].monitor.session != ""
      ensures Ready(w', w'.devices[k].monitor.session, k, |w'.database|)
    {
      HeldSessions(w, e, k);
      SessionChanges(link, m, rq);
      if k == i && rq.action.SetSession? {
        assert Opens(w'.database[|w.database|], rq.action.info.hash);
      } else {
        ReadyExtends(w, w', w.devices[k].monitor.session, k, |w.database|, |w'.database|);
      }
    }
    forall k, n: nat | 0 <= k < |w'.database| && IsSample(w'.database[k]) && Names(w', Under(w'.database[k]), n)
      ensures Ready(w', Under(w'.database[k]), n, k)
    {
      if k < |w.database| {
        assert w'.database[k] == w.database[k];
        SampleNames(w, w', k, n);
        ReadyExtends(w, w', Under(w.database[k]), n, k, k);
      } else {
        assert w'.database[k] == stored[k - |w.database|];
        assert rq.action.ProcessData? && Under(w'.database[k]) == m.session;
        assert Names(w, m.session, i);
        ReadyExtends(w, w', m.session, i, |w.database|, k);
      }
    }
  }

  lemma StoredByDevice(link: Link, m: Monitor, rq: DeviceRequest)
    ensures var stored := HandleMonitor(link, m, rq).stored;
            && |stored| <= 1
            && (rq.action.SetSession? ==> |stored| == 1 && Opens(stored[0], rq.action.info.hash))
            && (forall next | next in stored && IsSample(next) :: rq.action.ProcessData? && Under(next) == m.session)
  {
  }

  lemma OtherStepsStayOrdered(w: World, e: Event)
    requires Named(w) && Ordered(w) && Proper(w) && Enabled(w, e) && Orderly(w, e) && !e.TurnDatabase? && !e.TurnDevice?
    ensures Ordered(Next(w, e))
  {
    var w' := Next(w, e);
    StepExtends(w, e);
    OtherStepsKeep(w, e);
    hide HandleMonitor, HandleStore, Next, Enabled, Orderly, Proper;
    forall k | 0 <= k < |w'.devices| && w'.devices[k].monitor.session != ""
      ensures Ready(w', w'.devices[k].monitor.session, k, |w'.database|)
    {
      ReadyExtends(w, w', w.devices[k].monitor.session, k, |w.database|, |w'.database|);
    }
    forall k, n: nat | 0 <= k < |w'.database| && IsSample(w'.database[k]) && Names(w', Under(w'.database[k]), n)
      ensures Ready(w', Under(w'.database[k]), n, k)
    {
      assert w'.database[k] in w'.database;
      QueuedStores(w, e, w'.database[k]);
      assert k < |w.database| ==> w'.database[k] == w.database[k];
      if k >= |w.database| {
        NoSampleAdded(w, e, k);
      }
      SampleNames(w, w', k, n);
      ReadyExtends(w, w', Under(w.database[k]), n, k, k);
    }
  }

  lemma NoSampleAdded(w: World, e: Event, k: nat)
    requires Enabled(w, e) && !e.TurnDatabase? && !e.TurnDevice? && |w.database| <= k < |Next(w, e).database|
    ensures !Next(w, e).database[k].action.AddData?
  {
    hide HandleMonitor, HandleStore;
    if e.TurnDispatcher? {
      RouteBringsNoSession(w.dispatcher[0]);
      hide RouteOf;
    }
  }

  // ---- the stored samples ----

  ghost predicate NoEmptyHash(s: Store) {
    forall id | id in s.sessions :: s.sessions[id].hash != ""
  }

  /** The row lies under a session of the device that took the sample, and that device handled the
      sample while this session was the one it had taken last. */
  ghost predicate Attributed(w: World, r: DataRow) {
    && r.session in w.store.sessions
    && exists i: nat :: AttributedTo(w, r, i)
  }

  ghost predicate AttributedTo(w: World, r: DataRow, i: nat)
    requires r.session in w.store.sessions
  {
    var hash := w.store.sessions[r.session].hash;
    && Names(w, hash, i) && TakenUnder(w.log, r.trace, i, hash)
    && OwnedBy(w.store, hash, w.devices[i].monitor.data.hash)
  }

  ghost predicate RowsAttributed(w: World, traces: nat) {
    forall r | r in w.store.rows && r.trace >= traces :: Attributed(w, r)
  }

  /** With references intact no row is under an inserted key: rows are old ones under sessions of
      unchanged hash, or the sample's under a session its hash selects. */
  lemma LinkedRows(env: Env, s: Store, registry: map<string, DeviceState>, rq: StoreRequest, r: DataRow)
    requires Sound(PostgreSQL, s) && Linked(s) && Backend.Answers(env, s) && WellFormed(rq)
    requires r in HandleStore(PostgreSQL, env, s, registry, rq).store.rows
    ensures var s' := HandleStore(PostgreSQL, env, s, registry, rq).store;
            && r.session in s.sessions && r.session in s'.sessions
            && s'.sessions[r.session].hash == s.sessions[r.session].hash
            && (r in s.rows
                || (IsSample(rq) && r.trace == rq.action.data.trace
                    && Matches(PostgreSQL, Under(rq), s.sessions[r.session].hash)))
  {
    var s' := HandleStore(PostgreSQL, env, s, registry, rq).store;
    var first := First(PostgreSQL, env, s, rq);
    var s1 := Run(PostgreSQL, s, first);
    StepStaysLinked(env, s, registry, rq);
    StatementStaysSound(PostgreSQL, s, first);
    StatementStaysLinked(s, first);
    FreshIdIsFresh(PostgreSQL, s1.nextSession, s1.sessions.Keys);
    RequestRows(PostgreSQL, env, s, registry, rq, r);
    hide HandleStore, First, Second, Run, Matches, IsSample;
  }

  lemma StatementKeepsNames(s: Store, st: Statement)
    requires NoEmptyHash(s) && (st.NewSession? ==> st.info.hash != "")
    ensures NoEmptyHash(Run(PostgreSQL, s, st))
  {
    if st.Sample? {
      StoredRows(PostgreSQL, s, st.data, st.hash);
      hide StoreData;
    }
  }

  lemma RequestKeepsNames(env: Env, s: Store, registry: map<string, DeviceState>, rq: StoreRequest)
    requires NoEmptyHash(s) && Backend.Answers(env, s) && WellFormed(rq) && (rq.action.AddSession? ==> rq.action.info.hash != "")
    ensures NoEmptyHash(HandleStore(PostgreSQL, env, s, registry, rq).store)
  {
    RequestRunsStatements(PostgreSQL, env, s, registry, rq);
    var first, second := First(PostgreSQL, env, s, rq), Second(PostgreSQL, env, s, rq);
    assert !first.NewSession? && (second.NewSession? ==> rq.action.AddSession? && second.info == rq.action.info);
    hide HandleStore, First, Second, Run, NoEmptyHash;
    StatementKeepsNames(s, first);
    StatementKeepsNames(Run(PostgreSQL, s, first), second);
  }

  lemma DatabaseTurnAttributes(w: World, env: Env, traces: nat, r: DataRow)
    requires Kept(w) && Named(w) && Ordered(w) && NoEmptyHash(w.store) && RowsAttributed(w, traces)
    requires Enabled(w, TurnDatabase(env)) && Orderly(w, TurnDatabase(env))
    requires r in TurnedDatabase(w, env).store.rows && r.trace >= traces
    ensures Attributed(TurnedDatabase(w, env), r)
  {
    hide HandleStore, LastTaken, TakenUnder, Registry, Sound, Linked, Tidy;
    var w' := TurnedDatabase(w, env);
    var rq, registry := w.database[0], Registry(w.devices);
    assert rq in w.database;
    StepExtends(w, TurnDatabase(env));
    LinkedRows(env, w.store, registry, rq, r);
    var hash := w.store.sessions[r.session].hash;
    var i: nat;
    if r in w.store.rows {
      assert Attributed(w, r);
      i :| AttributedTo(w, r, i);
    } else {
      assert SampleNamed(w, rq);
      i :| TakenUnder(w.log, r.trace, i, Under(rq)) && (Under(rq) == "" || Names(w, Under(rq), i));
      assert Under(rq) == hash;
      assert Ready(w, hash, i, 0);
    }
    var device := w.devices[i].monitor.data.hash;
    if Opens(rq, hash) {
      OpenedFor(w, rq, hash, i);
    }
    RequestKeepsOwner(env, w.store, registry, rq, hash, device);
    assert AttributedTo(w', r, i);
  }

  lemma AttributionExtends(w: World, w': World, r: DataRow)
    requires Extends(w, w') && w'.store == w.store && Attributed(w, r)
    ensures Attributed(w', r)
  {
    var i: nat :| AttributedTo(w, r, i);
    var hash := w.store.sessions[r.session].hash;
    TakenUnderGrows(w.log, w'.log[|w.log|..], r.trace, i, hash);
    assert w.log + w'.log[|w.log|..] == w'.log;
    assert AttributedTo(w', r, i);
  }

  // ---- runs ----

  ghost predicate Owning(w: World, traces: nat) {
    && Kept(w) && Proper(w) && Remembered(w) && Named(w) && Ordered(w) && NoEmptyHash(w.store) && RowsAttributed(w, traces)
  }

  lemma StepKeepsTables(w: World, e: Event)
    requires Kept(w) && Proper(w) && Named(w) && NoEmptyHash(w.store) && Enabled(w, e)
    ensures Kept(Next(w, e)) && NoEmptyHash(Next(w, e).store)
  {
    if e.TurnDatabase? {
      var rq, registry := w.database[0], Registry(w.devices);
      assert rq in w.database;
      StepStaysTidy(PostgreSQL, e.env, w.store, registry, rq);
      StepStaysSound(PostgreSQL, e.env, w.store, registry, rq);
      StepStaysLinked(e.env, w.store, registry, rq);
      assert rq.action.AddSession? ==> SessionNamed(w, rq);
      RequestKeepsNames(e.env, w.store, registry, rq);
    }
    hide HandleStore, HandleMonitor, Tidy, Sound, Linked, NoEmptyHash;
  }

  lemma StepStaysOrdered(w: World, e: Event)
    requires Kept(w) && Named(w) && Ordered(w) && Proper(w) && Enabled(w, e) && Orderly(w, e)
    ensures Ordered(Next(w, e))
  {
    hide HandleStore, HandleMonitor, Ordered, Kept, Named, Proper, Orderly;
    match e
    case TurnDatabase(env) => DatabaseTurnStaysOrdered(w, env);
    case TurnDevice(i, link) => DeviceTurnStaysOrdered(w, i, link);
    case _ => OtherStepsStayOrdered(w, e);
  }

  lemma StepAttributes(w: World, e: Event, traces: nat)
    requires Owning(w, traces) && Enabled(w, e) && Orderly(w, e)
    ensures RowsAttributed(Next(w, e), traces)
  {
    var w' := Next(w, e);
    StepExtends(w, e);
    forall r | r in w'.store.rows && r.trace >= traces ensures Attributed(w', r) {
      if e.TurnDatabase? {
        DatabaseTurnAttributes(w, e.env, traces, r);
      } else {
        OnlyDatabaseTurnsStore(w, e);
        AttributionExtends(w, w', r);
      }
    }
  }

  lemma {:induction false} RunsOwn(w: World, es: seq<Event>, traces: nat)
    requires Owning(w, traces) && Possible(w, es) && OrderlyRun(w, es)
    ensures Owning(After(w, es), traces)
    decreases |es|
  {
    if es != [] {
      var e := es[0];
      StepKeepsTables(w, e);
      StepStaysProper(w, e);
      StepRemembers(w, e);
      StepStaysNamed(w, e);
      StepStaysOrdered(w, e);
      StepAttributes(w, e, traces);
      hide HandleStore, Kept, Proper, Remembered, Named, Ordered, NoEmptyHash, RowsAttributed, Orderly;
      RunsOwn(Next(w, e), es[1..], traces);
    }
  }

  ghost predicate OrderlyRun(w: World, es: seq<Event>)
    requires Possible(w, es)
    decreases |es|
  {
    es == [] || (Orderly(w, es[0]) && OrderlyRun(Next(w, es[0]), es[1..]))
  }

  lemma StartupOwning(store: Store, traces: nat, erase: bool)
    requires Tidy(store) && Sound(PostgreSQL, store) && Linked(store) && NoEmptyHash(store)
    requires forall prior | prior in store.rows :: prior.trace < traces
    ensures Owning(Startup(PostgreSQL, store, traces, erase), traces)
  {
    hide Tidy, Sound, Linked, NoEmptyHash;
  }

  /** In every orderly run from start-up, with any number of devices, drops, reconnects and control
      requests: each row stored in the run lies under the session named by the last SetSession its
      device had handled when it handled the sample, and that session belongs to the device. */
  lemma {:induction false} SamplesAreOwned(store: Store, traces: nat, erase: bool, es: seq<Event>, r: DataRow)
    requires Tidy(store) && Sound(PostgreSQL, store) && Linked(store) && NoEmptyHash(store)
    requires forall prior | prior in store.rows :: prior.trace < traces
    requires Possible(Startup(PostgreSQL, store, traces, erase), es)
    requires OrderlyRun(Startup(PostgreSQL, store, traces, erase), es)
    requires r in After(Startup(PostgreSQL, store, traces, erase), es).store.rows && r.trace >= traces
    ensures var w := After(Startup(PostgreSQL, store, traces, erase), es);
            && r.session in w.store.sessions
            && var session := w.store.sessions[r.session];
               exists i: nat, k: nat ::
                 && k < |w.log| && i < |w.devices|
                 && w.log[k] == SampleTaken(i, r.trace) && LastTaken(w.log[..k], i) == session.hash
                 && session.device in w.store.devices
                 && w.store.devices[session.device].hash == w.devices[i].monitor.data.hash
  {
    var w0 := Startup(PostgreSQL, store, traces, erase);
    StartupOwning(store, traces, erase);
    RunsOwn(w0, es, traces);
    var w := After(w0, es);
    hide After, Possible, OrderlyRun, Startup, Kept, Proper, Remembered, Named, Ordered, NoEmptyHash, Exact, Sound, Linked, LastTaken;
    assert Attributed(w, r);
    var hash := w.store.sessions[r.session].hash;
    var i: nat :| AttributedTo(w, r, i);
    var k :| 0 <= k < |w.log| && w.log[k] == SampleTaken(i, r.trace) && LastTaken(w.log[..k], i) == hash;
  }
}
