/** Samples end up under the session their device had taken last when it handled them. */
module Attribution {
  import opened Protocol
  import opened Like
  import opened Tables
  import opened Samples
  import opened Backend
  import opened MonitorRules
  import opened Routing
  import opened Collector
  import opened Queues
  import opened Relational

  // ---- what the devices did ----

  /** Hash of the last SetSession the device handled, empty before the first. */
  function LastTaken(log: seq<Entry>, device: nat): string {
    if log == [] then ""
    else
      var last := log[|log| - 1];
      if last.SessionTaken? && last.device == device then last.hash else LastTaken(log[..|log| - 1], device)
  }

  /** The device handled that sample while `hash` was the session it had taken last. */
  ghost predicate TakenUnder(log: seq<Entry>, trace: nat, device: nat, hash: string) {
    exists k :: 0 <= k < |log| && log[k] == SampleTaken(device, trace) && LastTaken(log[..k], device) == hash
  }

  lemma TakenUnderGrows(log: seq<Entry>, more: seq<Entry>, trace: nat, device: nat, hash: string)
    requires TakenUnder(log, trace, device, hash)
    ensures TakenUnder(log + more, trace, device, hash)
  {
    var k :| 0 <= k < |log| && log[k] == SampleTaken(device, trace) && LastTaken(log[..k], device) == hash;
    assert (log + more)[..k] == log[..k] && (log + more)[k] == log[k];
  }

  lemma LastTakenSnoc(log: seq<Entry>, e: Entry, device: nat)
    ensures LastTaken(log + [e], device) ==
            if e.SessionTaken? && e.device == device then e.hash else LastTaken(log, device)
  {
    assert (log + [e])[..|log|] == log;
  }

  lemma {:induction false} UnseenDevice(log: seq<Entry>, device: nat)
    requires forall e | e in log :: e.device != device
    ensures LastTaken(log, device) == ""
  {
    if log != [] {
      UnseenDevice(log[..|log| - 1], device);
    }
  }

  /** The session a device holds is the last one it took. */
  ghost predicate Remembered(w: World) {
    && (forall e | e in w.log :: e.device < |w.devices|)
    && (forall i | 0 <= i < |w.devices| :: w.devices[i].monitor.session == LastTaken(w.log, i))
  }

  lemma DeviceTurnRemembers(w: World, i: nat, link: Link, k: nat)
    requires Remembered(w) && Enabled(w, TurnDevice(i, link)) && k < |w.devices|
    ensures var w' := TurnedDevice(w, i, link); w'.devices[k].monitor.session == LastTaken(w'.log, k)
  {
    var rq := w.devices[i].queue[0];
    SessionChanges(link, w.devices[i].monitor, rq);
    hide HandleMonitor;
    if Noted(i, rq.action) != [] {
      LastTakenSnoc(w.log, Noted(i, rq.action)[0], k);
    } else {
      assert w.log + [] == w.log;
    }
  }

  lemma DatabaseTurnRemembers(w: World, env: Env)
    requires Remembered(w) && Enabled(w, TurnDatabase(env))
    ensures Remembered(TurnedDatabase(w, env))
  {
    hide HandleStore, LastTaken;
    var w' := TurnedDatabase(w, env);
    forall k | 0 <= k < |w'.devices| ensures w'.devices[k].monitor.session == LastTaken(w'.log, k) {
      if k >= |w.devices| {
        UnseenDevice(w.log, k);
      }
    }
  }

  lemma StepRemembers(w: World, e: Event)
    requires Remembered(w) && Enabled(w, e)
    ensures Remembered(Next(w, e))
  {
    match e
    case TurnDevice(i, link) =>
      var w' := TurnedDevice(w, i, link);
      forall k | 0 <= k < |w.devices| ensures w'.devices[k].monitor.session == LastTaken(w'.log, k) {
        DeviceTurnRemembers(w, i, link, k);
      }
      hide HandleMonitor, HandleStore, LastTaken;
    case TurnDatabase(env) =>
      DatabaseTurnRemembers(w, env);
      hide HandleMonitor, HandleStore, LastTaken;
    case _ =>
      OtherStepsKeep(w, e);
      hide Next, Enabled, LastTaken;
  }

  lemma OtherStepsKeep(w: World, e: Event)
    requires Enabled(w, e) && !e.TurnDatabase? && !e.TurnDevice?
    ensures var w' := Next(w, e);
            && w'.store == w.store && w'.log == w.log && w.database <= w'.database && |w'.devices| == |w.devices|
            && forall k | 0 <= k < |w.devices| :: w'.devices[k].monitor == w.devices[k].monitor
                 || (w'.devices[k].monitor.session == w.devices[k].monitor.session
                     && w'.devices[k].monitor.data == w.devices[k].monitor.data)
  {
    hide HandleMonitor, HandleStore, RouteOf, Accept;
  }

  lemma SessionChanges(link: Link, m: Monitor, rq: DeviceRequest)
    ensures HandleMonitor(link, m, rq).monitor.session == if rq.action.SetSession? then rq.action.info.hash else m.session
    ensures HandleMonitor(link, m, rq).monitor.data == m.data
  {
  }

  // ---- what the queues hold ----

  predicate IsSample(rq: StoreRequest) {
    rq.action.AddData? && WellFormed(rq)
  }

  function Under(rq: StoreRequest): string
    requires IsSample(rq)
  {
    rq.args[SessionHash].text
  }

  /** Some device handled the sample under the hash the request carries. */
  ghost predicate RightlyUnder(w: World, rq: StoreRequest)
    requires IsSample(rq)
  {
    Exact(w.dialect, Under(rq)) && exists i: nat :: TakenUnder(w.log, rq.action.data.trace, i, Under(rq))
  }

  /** Sessions select exactly their own rows, and queued samples carry the hash they were taken under. */
  ghost predicate Held(w: World) {
    && (forall i | 0 <= i < |w.devices| :: Exact(w.dialect, w.devices[i].monitor.session))
    && (forall i, rq | 0 <= i < |w.devices| && rq in w.devices[i].queue && rq.action.SetSession? ::
          Exact(w.dialect, rq.action.info.hash))
    && (forall rq | rq in w.database && rq.action.AddData? :: IsSample(rq) && RightlyUnder(w, rq))
  }

  /** Arriving session hashes select exactly their own rows; in SQLite all do. */
  ghost predicate ExactArrival(w: World, e: Event) {
    e.Incoming? && e.report.SessionReport? ==> Exact(w.dialect, e.report.info.hash)
  }

  /** What an event leaves in a device's queue was there before, came with the event, or is no
      session. */
  lemma QueuedSessions(w: World, e: Event, i: nat, rq: DeviceRequest)
    requires Enabled(w, e) && i < |Next(w, e).devices| && rq in Next(w, e).devices[i].queue && rq.action.SetSession?
    ensures (i < |w.devices| && rq in w.devices[i].queue)
            || (e.Incoming? && e.device == i && e.report.SessionReport? && rq.action.info == e.report.info)
  {
    hide HandleStore;
    match e
    case TurnDevice(k, link) =>
      RequeuesNoSession(link, w.devices[k].monitor, w.devices[k].queue[0]);
      hide HandleMonitor;
    case TurnDispatcher(_) =>
      RouteBringsNoSession(w.dispatcher[0]);
      hide RouteOf, HandleMonitor;
    case _ =>
      hide HandleMonitor;
  }

  lemma RequeuesNoSession(link: Link, m: Monitor, rq: DeviceRequest)
    ensures forall next | next in HandleMonitor(link, m, rq).requeued :: !next.action.SetSession?
  {
  }

  lemma RouteBringsNoSession(rq: DispatchRequest)
    ensures RouteOf(rq).ToDevice? ==> !RouteOf(rq).device.action.SetSession?
    ensures RouteOf(rq).ToStore? ==> !RouteOf(rq).store.action.AddSession? && !RouteOf(rq).store.action.AddData?
  {
  }

  /** Likewise for the session and sample requests of the database. */
  lemma QueuedStores(w: World, e: Event, rq: StoreRequest)
    requires Proper(w) && Enabled(w, e) && rq in Next(w, e).database && (rq.action.AddSession? || rq.action.AddData?)
    ensures rq in w.database
            || (e.TurnDevice? && rq in HandleMonitor(e.link, w.devices[e.device].monitor, w.devices[e.device].queue[0]).stored)
  {
    hide HandleStore, HandleMonitor;
    match e
    case TurnDatabase(env) => EndRequestsProper(w.store, env.sessionOrder);
    case TurnDispatcher(_) =>
      RouteBringsNoSession(w.dispatcher[0]);
      hide RouteOf;
    case _ =>
  }

  lemma HeldSessions(w: World, e: Event, i: nat)
    requires Enabled(w, e) && i < |Next(w, e).devices|
    ensures var session := Next(w, e).devices[i].monitor.session;
            || session == ""
            || (i < |w.devices| && session == w.devices[i].monitor.session)
            || (i < |w.devices| && w.devices[i].queue != [] && w.devices[i].queue[0].action.SetSession?
                && session == w.devices[i].queue[0].action.info.hash)
  {
    if e.TurnDevice? {
      SessionChanges(e.link, w.devices[e.device].monitor, w.devices[e.device].queue[0]);
    }
    hide HandleStore, HandleMonitor;
  }

  lemma DeviceTurnTakes(w: World, i: nat, link: Link, rq: StoreRequest)
    requires Held(w) && Remembered(w) && Enabled(w, TurnDevice(i, link)) && rq.action.AddData?
    requires rq in HandleMonitor(link, w.devices[i].monitor, w.devices[i].queue[0]).stored
    ensures IsSample(rq) && RightlyUnder(TurnedDevice(w, i, link), rq)
  {
    hide Exact, LastTaken;
    var w', m, taken := TurnedDevice(w, i, link), w.devices[i].monitor, w.devices[i].queue[0];
    assert taken.action.ProcessData? && rq == Sampled(m, taken.action.data);
    hide HandleMonitor;
    assert w'.log[|w.log|] == SampleTaken(i, rq.action.data.trace) && w'.log[..|w.log|] == w.log;
    assert TakenUnder(w'.log, rq.action.data.trace, i, m.session);
  }

  lemma LogGrows(w: World, e: Event)
    requires Enabled(w, e)
    ensures w.log <= Next(w, e).log && Next(w, e).dialect == w.dialect
    ensures !e.TurnDevice? ==> Next(w, e).log == w.log
  {
    hide HandleStore, HandleMonitor, RouteOf, Accept;
  }

  lemma RightlyUnderLonger(w: World, w': World, rq: StoreRequest)
    requires w.log <= w'.log && w'.dialect == w.dialect && IsSample(rq) && RightlyUnder(w, rq)
    ensures RightlyUnder(w', rq)
  {
    var i: nat :| TakenUnder(w.log, rq.action.data.trace, i, Under(rq));
    TakenUnderGrows(w.log, w'.log[|w.log|..], rq.action.data.trace, i, Under(rq));
    assert w.log + w'.log[|w.log|..] == w'.log;
  }

  lemma StepStaysHeld(w: World, e: Event)
    requires Held(w) && Remembered(w) && Proper(w) && Enabled(w, e) && ExactArrival(w, e)
    ensures Held(Next(w, e))
  {
    var w' := Next(w, e);
    LogGrows(w, e);
    hide HandleStore, HandleMonitor, Next, Enabled, Exact, LastTaken, Proper;
    forall rq | rq in w'.database && rq.action.AddData? ensures IsSample(rq) && RightlyUnder(w', rq) {
      QueuedStores(w, e, rq);
      if rq in w.database {
        RightlyUnderLonger(w, w', rq);
      } else {
        DeviceTurnTakes(w, e.device, e.link, rq);
        TurnIsNext(w, e);
      }
    }
    forall i, rq | 0 <= i < |w'.devices| && rq in w'.devices[i].queue && rq.action.SetSession?
      ensures Exact(w'.dialect, rq.action.info.hash)
    {
      QueuedSessions(w, e, i, rq);
    }
    forall i | 0 <= i < |w'.devices| ensures Exact(w'.dialect, w'.devices[i].monitor.session) {
      HeldSessions(w, e, i);
      EmptyIsExact(w.dialect);
    }
  }

  lemma TurnIsNext(w: World, e: Event)
    requires Enabled(w, e) && e.TurnDevice?
    ensures Next(w, e) == TurnedDevice(w, e.device, e.link)
  {
  }

  lemma EmptyIsExact(d: Dialect)
    ensures Exact(d, "")
  {
    ExactIffPlain(d, "");
  }

  // ---- the stored samples ----

  /** The sample was handled while the hash of its session was the one taken last. */
  ghost predicate RowNamed(w: World, r: DataRow)
    requires r.session in w.store.sessions
  {
    exists i: nat :: TakenUnder(w.log, r.trace, i, w.store.sessions[r.session].hash)
  }

  ghost predicate RowsNamed(w: World, traces: nat) {
    forall r | r in w.store.rows && r.trace >= traces && r.session in w.store.sessions :: RowNamed(w, r)
  }

  /** The key under which the statement inserts a session row. */
  function Inserted(d: Dialect, s: Store, st: Statement): Option<nat> {
    if st.NewSession? && InsertSession(d, s, st.info, st.deviceHash, st.now).Some?
    then Some(FreshId(d, s.nextSession, s.sessions.Keys)) else None
  }

  /** The row was there already, or it is the sample's under a session its hash selects. */
  ghost predicate FromSample(d: Dialect, s: Store, st: Statement, r: DataRow) {
    r in s.rows
    || (st.Sample? && r.trace == st.data.trace && r.session in s.sessions
        && Matches(d, st.hash, s.sessions[r.session].hash))
  }

  /** A session row is the inserted one or keeps its hash. */
  ghost predicate SessionsFrom(d: Dialect, s: Store, s': Store, st: Statement) {
    forall id | id in s'.sessions ::
      if Inserted(d, s, st) == Some(id) then s'.sessions[id].hash == st.info.hash
      else id in s.sessions && s'.sessions[id].hash == s.sessions[id].hash
  }

  lemma StatementRows(d: Dialect, s: Store, st: Statement)
    ensures var s' := Run(d, s, st);
            && SessionsFrom(d, s, s', st) && (forall r | r in s'.rows :: FromSample(d, s, st, r))
            && (st.NewSession? ==> s'.rows == s.rows)
            && (Inserted(d, s, st).Some? ==> Inserted(d, s, st).value in s'.sessions)
  {
    match st
    case RemoveDevices(hash) => KeptRows(s.rows, SessionsOf(s, DeviceIds(d, s, hash)));
    case RemoveSessions(hash) => KeptRows(s.rows, SessionIds(d, s, hash));
    case Sample(data, hash) => SampleRowsFrom(d, s, data, hash);
    case _ =>
  }

  lemma SampleRowsFrom(d: Dialect, s: Store, data: Data, hash: string)
    ensures var s' := StoreData(d, s, data, hash);
            s'.sessions == s.sessions && forall r | r in s'.rows :: FromSample(d, s, Sample(data, hash), r)
  {
    ScalarIsMember(d, OpenIds(d, s, hash));
    StoredRows(d, s, data, hash);
    hide StoreData, Matches, Entries;
    var s' := StoreData(d, s, data, hash);
    forall r | r in s'.rows ensures FromSample(d, s, Sample(data, hash), r) {
      var k :| 0 <= k < |s'.rows| && s'.rows[k] == r;
      assert k < |s.rows| ==> s.rows[k] == r;
    }
  }

  /** What a sample under a session after a request was before it. */
  ghost predicate RowSource(d: Dialect, env: Env, s: Store, s': Store, rq: StoreRequest, r: DataRow)
    requires WellFormed(rq) && r.session in s'.sessions
  {
    var s1, second := Run(d, s, First(d, env, s, rq)), Second(d, env, s, rq);
    if Inserted(d, s1, second) == Some(r.session) then r in s1.rows && s'.sessions[r.session].hash == second.info.hash
    else
      && r.session in s.sessions && s'.sessions[r.session].hash == s.sessions[r.session].hash
      && (r in s.rows
          || (IsSample(rq) && r.trace == rq.action.data.trace && Matches(d, Under(rq), s.sessions[r.session].hash)))
  }

  lemma RequestRows(d: Dialect, env: Env, s: Store, registry: map<string, DeviceState>, rq: StoreRequest, r: DataRow)
    requires Backend.Answers(env, s) && WellFormed(rq)
    requires var s' := HandleStore(d, env, s, registry, rq).store; r in s'.rows && r.session in s'.sessions
    ensures RowSource(d, env, s, HandleStore(d, env, s, registry, rq).store, rq, r)
  {
    RequestRunsStatements(d, env, s, registry, rq);
    var first, second := First(d, env, s, rq), Second(d, env, s, rq);
    var s1 := Run(d, s, first);
    StatementRows(d, s, first);
    StatementRows(d, s1, second);
    SecondInserts(d, env, s, rq);
    hide HandleStore, First, Second, Run, Matches, Inserted;
    assert SessionsFrom(d, s, s1, first) && SessionsFrom(d, s1, Run(d, s1, second), second);
    assert FromSample(d, s1, second, r) && FromSample(d, s, first, r);
  }

  /** Only the second statement may insert a session, and only the first may store a sample. */
  lemma SecondInserts(d: Dialect, env: Env, s: Store, rq: StoreRequest)
    requires WellFormed(rq)
    ensures var first, second := First(d, env, s, rq), Second(d, env, s, rq);
            && !first.NewSession? && Inserted(d, s, first).None? && !second.Sample?
            && (second.NewSession? ==> rq.action.AddSession? && second.info == rq.action.info)
            && (first.Sample? ==> IsSample(rq) && first.data == rq.action.data && first.hash == Under(rq))
  {
  }

  // ---- exactly when attribution breaks ----

  /** The event inserts a session under a key that stored samples, taken under another hash, still name. */
  ghost predicate Misnames(w: World, e: Event, traces: nat)
    requires Enabled(w, e)
  {
    e.TurnDatabase? &&
    var rq := w.database[0];
    var s1, second := Run(w.dialect, w.store, First(w.dialect, e.env, w.store, rq)), Second(w.dialect, e.env, w.store, rq);
    exists r :: r in s1.rows && r.trace >= traces && Inserted(w.dialect, s1, second) == Some(r.session)
                && !exists i: nat :: TakenUnder(w.log, r.trace, i, second.info.hash)
  }

  lemma DatabaseTurnNames(w: World, env: Env, traces: nat, r: DataRow)
    requires Held(w) && RowsNamed(w, traces) && Enabled(w, TurnDatabase(env)) && !Misnames(w, TurnDatabase(env), traces)
    requires var s' := TurnedDatabase(w, env).store; r in s'.rows && r.session in s'.sessions && r.trace >= traces
    ensures RowNamed(TurnedDatabase(w, env), r)
  {
    var d, s, rq, w' := w.dialect, w.store, w.database[0], TurnedDatabase(w, env);
    assert rq in w.database;
    RequestRows(d, env, s, Registry(w.devices), rq, r);
    var s1, second := Run(d, s, First(d, env, s, rq)), Second(d, env, s, rq);
    hide HandleStore, First, Second, Run, Inserted, TakenUnder, IsSample;
    if Inserted(d, s1, second) == Some(r.session) {
      assert exists i: nat :: TakenUnder(w.log, r.trace, i, second.info.hash);
    } else if r in s.rows {
      assert RowNamed(w, r);
    } else {
      assert RightlyUnder(w, rq) && Under(rq) == s.sessions[r.session].hash;
    }
  }

  lemma DatabaseTurnMisnames(w: World, env: Env, traces: nat)
    requires Enabled(w, TurnDatabase(env)) && Misnames(w, TurnDatabase(env), traces)
    ensures !RowsNamed(TurnedDatabase(w, env), traces)
  {
    var d, s, rq, w' := w.dialect, w.store, w.database[0], TurnedDatabase(w, env);
    RequestRunsStatements(d, env, s, Registry(w.devices), rq);
    var s1, second := Run(d, s, First(d, env, s, rq)), Second(d, env, s, rq);
    StatementRows(d, s1, second);
    var r :| r in s1.rows && r.trace >= traces && Inserted(d, s1, second) == Some(r.session)
             && !exists i: nat :: TakenUnder(w.log, r.trace, i, second.info.hash);
    assert second.NewSession?;
    hide HandleStore, First, Second, Run, TakenUnder, Inserted;
    assert !RowNamed(w', r);
  }

  lemma OnlyDatabaseTurnsStore(w: World, e: Event)
    requires Enabled(w, e) && !e.TurnDatabase?
    ensures Next(w, e).store == w.store
  {
    hide HandleStore, HandleMonitor;
  }

  /** A step keeps every sample under the session it was taken for if and only if it does not insert a
      session under a key that samples of another still name. */
  lemma StepNamesIff(w: World, e: Event, traces: nat)
    requires Held(w) && RowsNamed(w, traces) && Enabled(w, e)
    ensures RowsNamed(Next(w, e), traces) <==> !Misnames(w, e, traces)
  {
    var w' := Next(w, e);
    if e.TurnDatabase? {
      if Misnames(w, e, traces) {
        DatabaseTurnMisnames(w, e.env, traces);
      } else {
        forall r | r in w'.store.rows && r.trace >= traces && r.session in w'.store.sessions ensures RowNamed(w', r) {
          DatabaseTurnNames(w, e.env, traces, r);
        }
      }
    } else {
      OnlyDatabaseTurnsStore(w, e);
      LogGrows(w, e);
      hide Next, Enabled;
      forall r | r in w'.store.rows && r.trace >= traces && r.session in w'.store.sessions ensures RowNamed(w', r) {
        var hash := w.store.sessions[r.session].hash;
        assert RowNamed(w, r);
        var i: nat :| TakenUnder(w.log, r.trace, i, hash);
        TakenUnderGrows(w.log, w'.log[|w.log|..], r.trace, i, hash);
        assert w.log + w'.log[|w.log|..] == w'.log;
      }
    }
  }

  // ---- runs ----

  ghost predicate ExactRun(w: World, es: seq<Event>)
    requires Possible(w, es)
    decreases |es|
  {
    es == [] || (ExactArrival(w, es[0]) && ExactRun(Next(w, es[0]), es[1..]))
  }

  /** Every sample stays under the session it was taken for, all along the run. */
  ghost predicate NamedThroughout(w: World, es: seq<Event>, traces: nat)
    requires Possible(w, es)
    decreases |es|
  {
    RowsNamed(w, traces) && (es == [] || NamedThroughout(Next(w, es[0]), es[1..], traces))
  }

  ghost predicate NeverMisnames(w: World, es: seq<Event>, traces: nat)
    requires Possible(w, es)
    decreases |es|
  {
    es == [] || (!Misnames(w, es[0], traces) && NeverMisnames(Next(w, es[0]), es[1..], traces))
  }

  /** In either dialect, whatever statements fail: a run keeps every sample under the session it was
      taken for if and only if no step of it inserts a session under a key that samples of another
      still name. */
  lemma {:induction false} RunsNameIff(w: World, es: seq<Event>, traces: nat)
    requires Held(w) && Remembered(w) && Proper(w) && RowsNamed(w, traces) && Possible(w, es) && ExactRun(w, es)
    ensures NamedThroughout(w, es, traces) <==> NeverMisnames(w, es, traces)
    decreases |es|
  {
    if es != [] {
      var e := es[0];
      StepNamesIff(w, e, traces);
      StepStaysHeld(w, e);
      StepRemembers(w, e);
      StepStaysProper(w, e);
      hide Next, Enabled, Held, Remembered, Proper, RowsNamed, Misnames, ExactArrival;
      if RowsNamed(Next(w, e), traces) {
        RunsNameIff(Next(w, e), es[1..], traces);
      }
    }
  }

  /** Samples of the run lie under existing sessions. */
  ghost predicate RowsHeld(s: Store, traces: nat) {
    forall r | r in s.rows && r.trace >= traces :: r.session in s.sessions
  }

  /** The event makes SQLite delete a session row: a RemSession or AddSession whose hash selects one. */
  predicate Orphans(w: World, e: Event)
    requires Enabled(w, e)
  {
    w.dialect.SQLite? && e.TurnDatabase? && First(w.dialect, e.env, w.store, w.database[0]).RemoveSessions?
  }

  lemma StatementKeepsRows(d: Dialect, s: Store, st: Statement, traces: nat)
    requires Sound(d, s) && RowsHeld(s, traces) && (d.SQLite? ==> !st.RemoveSessions?)
    ensures RowsHeld(Run(d, s, st), traces)
    ensures Inserted(d, s, st).Some? ==> Inserted(d, s, st).value !in s.sessions
  {
    StatementRows(d, s, st);
    match st
    case NewSession(info, deviceHash, now) => FreshIdIsFresh(d, s.nextSession, s.sessions.Keys);
    case RemoveDevices(hash) => KeptRows(s.rows, SessionsOf(s, DeviceIds(d, s, hash)));
    case RemoveSessions(hash) => KeptRows(s.rows, SessionIds(d, s, hash));
    case Sample(data, hash) =>
      SampleRowsFrom(d, s, data, hash);
      hide StoreData;
    case _ =>
  }

  lemma StepKeepsRows(w: World, e: Event, traces: nat)
    requires Proper(w) && Sound(w.dialect, w.store) && RowsHeld(w.store, traces) && Enabled(w, e) && !Orphans(w, e)
    ensures Sound(w.dialect, Next(w, e).store) && RowsHeld(Next(w, e).store, traces) && !Misnames(w, e, traces)
  {
    if e.TurnDatabase? {
      var d, s, rq, registry := w.dialect, w.store, w.database[0], Registry(w.devices);
      var first, second := First(d, e.env, s, rq), Second(d, e.env, s, rq);
      RequestRunsStatements(d, e.env, s, registry, rq);
      StepStaysSound(d, e.env, s, registry, rq);
      StatementStaysSound(d, s, first);
      assert !second.RemoveSessions?;
      hide HandleStore, First, Second, Run, Sound, Inserted;
      StatementKeepsRows(d, s, first, traces);
      StatementKeepsRows(d, Run(d, s, first), second, traces);
    } else {
      OnlyDatabaseTurnsStore(w, e);
    }
  }

  ghost predicate Invariant(w: World, traces: nat) {
    && Held(w) && Remembered(w) && Proper(w) && Sound(w.dialect, w.store)
    && RowsNamed(w, traces) && RowsHeld(w.store, traces)
  }

  predicate NoOrphans(w: World, es: seq<Event>)
    requires Possible(w, es)
    decreases |es|
  {
    es == [] || (!Orphans(w, es[0]) && NoOrphans(Next(w, es[0]), es[1..]))
  }

  lemma {:induction false} RunsAttribute(w: World, es: seq<Event>, traces: nat)
    requires Invariant(w, traces) && Possible(w, es) && ExactRun(w, es) && NoOrphans(w, es)
    ensures Invariant(After(w, es), traces) && NeverMisnames(w, es, traces)
    decreases |es|
  {
    if es != [] {
      var e := es[0];
      StepKeepsRows(w, e, traces);
      StepNamesIff(w, e, traces);
      StepStaysHeld(w, e);
      StepRemembers(w, e);
      StepStaysProper(w, e);
      LogGrows(w, e);
      hide Next, Enabled, Held, Remembered, Proper, Sound, RowsNamed, RowsHeld, Misnames, Orphans, ExactArrival;
      RunsAttribute(Next(w, e), es[1..], traces);
    }
  }

  lemma PostgreSQLNeverOrphans(w: World, es: seq<Event>)
    requires Possible(w, es) && w.dialect.PostgreSQL?
    ensures NoOrphans(w, es)
    decreases |es|
  {
    if es != [] {
      LogGrows(w, es[0]);
      hide Next, Enabled;
      PostgreSQLNeverOrphans(Next(w, es[0]), es[1..]);
    }
  }

  /** In every run from start-up, with any number of devices, drops, reconnects and control requests and
      whatever statements fail: each sample stored in the run lies under a session, and that session has
      the hash of the last SetSession its device had handled when it handled the sample. In PostgreSQL
      this needs session hashes free of metacharacters; in SQLite, that no handled request deletes a
      session row. */
  lemma {:induction false} SamplesAreAttributed(d: Dialect, store: Store, traces: nat, erase: bool, es: seq<Event>, r: DataRow)
    requires Sound(d, store) && forall prior | prior in store.rows :: prior.trace < traces
    requires Possible(Startup(d, store, traces, erase), es) && ExactRun(Startup(d, store, traces, erase), es)
    requires d.SQLite? ==> NoOrphans(Startup(d, store, traces, erase), es)
    requires r in After(Startup(d, store, traces, erase), es).store.rows && r.trace >= traces
    ensures var w := After(Startup(d, store, traces, erase), es);
            && r.session in w.store.sessions
            && exists i: nat, k: nat ::
                 k < |w.log| && w.log[k] == SampleTaken(i, r.trace)
                 && LastTaken(w.log[..k], i) == w.store.sessions[r.session].hash
  {
    var w0 := Startup(d, store, traces, erase);
    StartupInvariant(d, store, traces, erase);
    if d.PostgreSQL? {
      PostgreSQLNeverOrphans(w0, es);
    }
    RunsAttribute(w0, es, traces);
    var w := After(w0, es);
    hide After, Possible, ExactRun, NoOrphans, Startup, Held, Remembered, Proper, Sound, LastTaken;
    assert RowNamed(w, r);
    var hash := w.store.sessions[r.session].hash;
    var i: nat :| TakenUnder(w.log, r.trace, i, hash);
    var k :| 0 <= k < |w.log| && w.log[k] == SampleTaken(i, r.trace) && LastTaken(w.log[..k], i) == hash;
  }

  lemma StartupInvariant(d: Dialect, store: Store, traces: nat, erase: bool)
    requires Sound(d, store) && forall prior | prior in store.rows :: prior.trace < traces
    ensures Invariant(Startup(d, store, traces, erase), traces)
  {
    hide Sound;
  }
}
