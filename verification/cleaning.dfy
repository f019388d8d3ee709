/** Cleaning at start-up: sessions left open by an earlier run are closed, new ones are not. */
module Cleaning {
  import opened Protocol
  import opened Like
  import opened Tables
  import opened Samples
  import opened Backend
  import opened MonitorRules
  import opened Routing
  import opened Collector
  import opened Queues
  import opened Relational
  import opened Closing
  import RegistryRuns

  // ---- the rows present at the clean ----

  /** Every session row of `s'` that was inserted before `s` is a row of `s`, and still ended if it
      had ended. */
  ghost predicate Persists(s: Store, s': Store) {
    && s.births <= s'.births
    && forall id' | id' in s'.sessions && s'.sessions[id'].serial < s.births ::
         exists id :: id in s.sessions && SameRow(s.sessions[id], s'.sessions[id'])
  }

  predicate SameRow(row: SessionRow, row': SessionRow) {
    row.serial == row'.serial && row.hash == row'.hash && (row.ended != 0 ==> row'.ended != 0)
  }

  lemma StatementPersists(d: Dialect, s: Store, st: Statement)
    requires st.End? ==> st.now > 0
    ensures Persists(s, Run(d, s, st))
  {
    var s' := Run(d, s, st);
    if st.Sample? {
      StoredRows(d, s, st.data, st.hash);
    }
    forall id' | id' in s'.sessions && s'.sessions[id'].serial < s.births
      ensures exists id :: id in s.sessions && SameRow(s.sessions[id], s'.sessions[id'])
    {
      assert id' in s.sessions && SameRow(s.sessions[id'], s'.sessions[id']);
    }
  }

  lemma PersistsTransitive(a: Store, b: Store, c: Store)
    requires Persists(a, b) && Persists(b, c)
    ensures Persists(a, c)
  {
    forall k | k in c.sessions && c.sessions[k].serial < a.births
      ensures exists id :: id in a.sessions && SameRow(a.sessions[id], c.sessions[k])
    {
      var j :| j in b.sessions && SameRow(b.sessions[j], c.sessions[k]);
      var i :| i in a.sessions && SameRow(a.sessions[i], b.sessions[j]);
      assert SameRow(a.sessions[i], c.sessions[k]);
    }
  }

  lemma RequestPersists(d: Dialect, env: Env, s: Store, registry: map<string, DeviceState>, rq: StoreRequest)
    requires Backend.Answers(env, s) && WellFormed(rq) && env.now > 0
    ensures Persists(s, HandleStore(d, env, s, registry, rq).store)
  {
    RequestRunsStatements(d, env, s, registry, rq);
    var first, second := First(d, env, s, rq), Second(d, env, s, rq);
    assert (first.End? ==> first.now > 0) && !second.End?;
    hide HandleStore, First, Second, Run, Persists;
    StatementPersists(d, s, first);
    StatementPersists(d, Run(d, s, first), second);
    PersistsTransitive(s, Run(d, s, first), Run(d, Run(d, s, first), second));
  }

  /** Every row with a serial below `serials` has ended, or its end is among the next `left`
      database requests. */
  ghost predicate WillEnd(w: World, serials: nat, left: nat) {
    && left <= |w.database| && serials <= w.store.births && Tidy(w.store)
    && forall id | id in w.store.sessions && w.store.sessions[id].serial < serials && w.store.sessions[id].ended == 0 ::
         exists k :: 0 <= k < left && Ends(w.database[k], w.store.sessions[id].hash)
  }

  lemma DatabaseTurnCleans(w: World, env: Env, serials: nat, left: nat)
    requires WillEnd(w, serials, left) && Enabled(w, TurnDatabase(env)) && env.update && env.now > 0
    requires forall id | id in w.store.sessions :: Matches(w.dialect, w.store.sessions[id].hash, w.store.sessions[id].hash)
    ensures WillEnd(TurnedDatabase(w, env), serials, if left == 0 then 0 else left - 1)
  {
    var rq := w.database[0];
    var s := w.store;
    var s' := HandleStore(w.dialect, env, s, Registry(w.devices), rq).store;
    RequestPersists(w.dialect, env, s, Registry(w.devices), rq);
    StepStaysTidy(w.dialect, env, s, Registry(w.devices), rq);
    var w' := TurnedDatabase(w, env);
    forall id' | id' in s'.sessions && s'.sessions[id'].serial < serials && s'.sessions[id'].ended == 0
      ensures exists k :: 0 <= k < left - 1 && Ends(w'.database[k], s'.sessions[id'].hash)
    {
      var hash := s'.sessions[id'].hash;
      var id :| id in s.sessions && SameRow(s.sessions[id], s'.sessions[id']);
      var k :| 0 <= k < left && Ends(w.database[k], hash);
      if k == 0 {
        RequestCloses(w.dialect, env, s, Registry(w.devices), rq, hash);
        assert false;
      }
      hide HandleStore;
      assert w'.database[k - 1] == w.database[k];
    }
    hide HandleStore;
  }

  // ---- runs ----

  /** Updates succeed with the clock past zero, and every stored session hash matches itself. */
  ghost predicate Steady(w: World, e: Event)
    requires Enabled(w, e)
  {
    e.TurnDatabase? ==>
      && e.env.update && e.env.now > 0
      && forall id | id in w.store.sessions :: Matches(w.dialect, w.store.sessions[id].hash, w.store.sessions[id].hash)
  }

  ghost predicate SteadyRun(w: World, es: seq<Event>)
    requires Possible(w, es)
    decreases |es|
  {
    es == [] || (Steady(w, es[0]) && SteadyRun(Next(w, es[0]), es[1..]))
  }

  function DatabaseTurns(es: seq<Event>): nat {
    if es == [] then 0 else (if es[0].TurnDatabase? then 1 else 0) + DatabaseTurns(es[1..])
  }

  lemma OtherStepsOnlyQueue(w: World, e: Event)
    requires Enabled(w, e) && !e.TurnDatabase?
    ensures Next(w, e).store == w.store && w.database <= Next(w, e).database
  {
    hide HandleStore, HandleMonitor;
  }

  lemma StepStaysCleaning(w: World, e: Event, serials: nat, left: nat)
    requires WillEnd(w, serials, left) && Enabled(w, e) && Steady(w, e)
    ensures WillEnd(Next(w, e), serials, if e.TurnDatabase? && left > 0 then left - 1 else left)
  {
    if e.TurnDatabase? {
      DatabaseTurnCleans(w, e.env, serials, left);
    } else {
      OtherStepsOnlyQueue(w, e);
      hide Next;
      forall id | id in w.store.sessions && w.store.sessions[id].serial < serials && w.store.sessions[id].ended == 0
        ensures exists k :: 0 <= k < left && Ends(Next(w, e).database[k], w.store.sessions[id].hash)
      {
        var k :| 0 <= k < left && Ends(w.database[k], w.store.sessions[id].hash);
        assert Next(w, e).database[k] == w.database[k];
      }
    }
  }

  lemma {:induction false} RunsStayCleaning(w: World, es: seq<Event>, serials: nat, left: nat)
    requires WillEnd(w, serials, left) && Possible(w, es) && SteadyRun(w, es)
    ensures WillEnd(After(w, es), serials, if DatabaseTurns(es) < left then left - DatabaseTurns(es) else 0)
    decreases |es|
  {
    hide HandleStore, WillEnd, Next, Enabled, Steady;
    if es != [] {
      StepStaysCleaning(w, es[0], serials, left);
      RunsStayCleaning(Next(w, es[0]), es[1..], serials, if es[0].TurnDatabase? && left > 0 then left - 1 else left);
    }
  }

  lemma {:induction false} EndRequestsCover(s: Store, order: seq<nat>, id: nat)
    requires forall i | 0 <= i < |order| :: order[i] in s.sessions
    requires id in order && s.sessions[id].ended == 0
    ensures exists k :: 0 <= k < |EndRequests(s, order)| && Ends(EndRequests(s, order)[k], s.sessions[id].hash)
  {
    var shorter := order[..|order| - 1];
    var requests := EndRequests(s, order);
    if order[|order| - 1] == id {
      assert Ends(requests[|requests| - 1], s.sessions[id].hash);
    } else {
      assert id in shorter;
      EndRequestsCover(s, shorter, id);
      var k :| 0 <= k < |EndRequests(s, shorter)| && Ends(EndRequests(s, shorter)[k], s.sessions[id].hash);
      assert Ends(requests[k], s.sessions[id].hash);
    }
  }

  lemma CleanWillEnd(w: World, env: Env)
    requires Tidy(w.store) && Enabled(w, TurnDatabase(env)) && w.database[0].action.CleanSessions? && env.select
    requires Sound(w.dialect, w.store)
    ensures var w' := TurnedDatabase(w, env);
            w'.store == w.store && WillEnd(w', w.store.births, |w'.database|)
  {
    var w' := TurnedDatabase(w, env);
    var requests := EndRequests(w.store, env.sessionOrder);
    if w.store.created {
      assert w'.database == w.database[1..] + requests;
      forall id | id in w.store.sessions && w.store.sessions[id].ended == 0
        ensures exists k :: 0 <= k < |w'.database| && Ends(w'.database[k], w.store.sessions[id].hash)
      {
        EndRequestsCover(w.store, env.sessionOrder, id);
        var k :| 0 <= k < |requests| && Ends(requests[k], w.store.sessions[id].hash);
        assert w'.database[|w.database| - 1 + k] == requests[k];
      }
    }
  }

  /** Once CleanSessions and everything queued by then has been handled, each session row that was
      there at the clean and still is has ended, whatever else interleaves. */
  lemma {:induction false} CleaningEndsOldSessions(w: World, env: Env, es: seq<Event>)
    requires Tidy(w.store) && Sound(w.dialect, w.store)
    requires Enabled(w, TurnDatabase(env)) && w.database[0].action.CleanSessions? && env.select
    requires Possible(TurnedDatabase(w, env), es) && SteadyRun(TurnedDatabase(w, env), es)
    requires DatabaseTurns(es) >= |TurnedDatabase(w, env).database|
    ensures forall id | id in After(TurnedDatabase(w, env), es).store.sessions
                        && After(TurnedDatabase(w, env), es).store.sessions[id].serial < w.store.births ::
              After(TurnedDatabase(w, env), es).store.sessions[id].ended != 0
  {
    var w1 := TurnedDatabase(w, env);
    CleanWillEnd(w, env);
    RunsStayCleaning(w1, es, w.store.births, |w1.database|);
    hide HandleStore;
  }

  // ---- from start-up ----

  /** Requests that change no table. */
  predicate Idle(rq: StoreRequest) {
    rq.action.CheckDatabase? || rq.action.LoadDevices? || rq.action.CleanSessions?
  }

  lemma StepShifts(w: World, e: Event, heads: seq<StoreRequest>)
    requires Enabled(w, e) && heads <= w.database && (e.TurnDatabase? ==> heads != [] && Idle(heads[0]))
    ensures Next(w, e).store == w.store
    ensures (if e.TurnDatabase? then heads[1..] else heads) <= Next(w, e).database
  {
    if e.TurnDatabase? {
      IdleEffect(w.dialect, e.env, w.store, Registry(w.devices), w.database[0]);
      hide HandleStore;
    } else {
      OtherStepsOnlyQueue(w, e);
      hide Next;
    }
  }

  lemma IdleEffect(d: Dialect, env: Env, s: Store, registry: map<string, DeviceState>, rq: StoreRequest)
    requires Backend.Answers(env, s) && WellFormed(rq) && Idle(rq)
    ensures HandleStore(d, env, s, registry, rq).store == s
  {
    hide NewDevices, EndRequests, Lists;
  }

  lemma {:induction false} RunShifts(w: World, es: seq<Event>, heads: seq<StoreRequest>)
    requires Possible(w, es) && heads <= w.database && DatabaseTurns(es) <= |heads|
    requires forall k | 0 <= k < DatabaseTurns(es) :: Idle(heads[k])
    ensures After(w, es).store == w.store && heads[DatabaseTurns(es)..] <= After(w, es).database
    decreases |es|
  {
    hide Next, Enabled, Idle;
    if es != [] {
      StepShifts(w, es[0], heads);
      RunShifts(Next(w, es[0]), es[1..], if es[0].TurnDatabase? then heads[1..] else heads);
    }
  }

  /** In every run the second database turn after start-up loads the devices, so that the registry knows
      every device row - as long as the query succeeds. */
  lemma StartupLoads(d: Dialect, store: Store, traces: nat, erase: bool, es: seq<Event>, env: Env)
    requires store.created && Possible(Startup(d, store, traces, erase), es) && DatabaseTurns(es) == 1
    requires Enabled(After(Startup(d, store, traces, erase), es), TurnDatabase(env)) && env.select
    ensures var w' := TurnedDatabase(After(Startup(d, store, traces, erase), es), env);
            forall id | id in store.devices :: Find(w'.devices, store.devices[id].hash).Some?
  {
    var w0 := Startup(d, store, traces, erase);
    RunShifts(w0, es, w0.database);
    RegistryRuns.RegistryOnlyGrows(w0, es);
    hide HandleStore, After, Possible;
    RegistryRuns.LoadingCompletesTheRegistry(After(w0, es), env);
  }

  /** And the third cleans: once it and everything queued by then has been handled, no session row that was
      in the tables at start-up is still open, whatever else happened. */
  lemma StartupCleans(d: Dialect, store: Store, traces: nat, erase: bool, before: seq<Event>, env: Env, es: seq<Event>)
    requires Tidy(store) && Sound(d, store)
    requires Possible(Startup(d, store, traces, erase), before) && DatabaseTurns(before) == 2
    requires Enabled(After(Startup(d, store, traces, erase), before), TurnDatabase(env)) && env.select
    requires var w1 := TurnedDatabase(After(Startup(d, store, traces, erase), before), env);
             Possible(w1, es) && SteadyRun(w1, es) && DatabaseTurns(es) >= |w1.database|
    ensures var s' := After(TurnedDatabase(After(Startup(d, store, traces, erase), before), env), es).store;
            forall id | id in s'.sessions && s'.sessions[id].serial < store.births :: s'.sessions[id].ended != 0
  {
    var w0 := Startup(d, store, traces, erase);
    RunShifts(w0, before, w0.database);
    SameDialect(w0, before);
    hide HandleStore, After, Possible, SteadyRun, Tidy, Sound, Startup;
    CleaningEndsOldSessions(After(w0, before), env, es);
  }

  /** When start-up was asked to erase, the fourth empties the tables, if it can drop and create them. */
  lemma StartupErases(d: Dialect, store: Store, traces: nat, es: seq<Event>, env: Env)
    requires Possible(Startup(d, store, traces, true), es) && DatabaseTurns(es) == 3
    requires Enabled(After(Startup(d, store, traces, true), es), TurnDatabase(env)) && env.open && env.drop && env.create
    ensures var s' := TurnedDatabase(After(Startup(d, store, traces, true), es), env).store;
            s'.created && s'.devices == map[] && s'.sessions == map[] && s'.rows == []
  {
    var w0 := Startup(d, store, traces, true);
    RunShifts(w0, es, w0.database);
    SameDialect(w0, es);
    hide After, Possible, Lists;
  }

  lemma {:induction false} SameDialect(w: World, es: seq<Event>)
    requires Possible(w, es)
    ensures After(w, es).dialect == w.dialect
    decreases |es|
  {
    hide HandleStore, HandleMonitor;
    if es != [] {
      SameDialect(Next(w, es[0]), es[1..]);
    }
  }

  // ---- the sessions of this run ----

  /** Rows with the hash inserted since `serials` are open and nothing queued will end them. */
  ghost predicate Spared(w: World, serials: nat, hash: string) {
    && OpenSince(w.store, serials, hash)
    && (forall rq | rq in w.database :: !rq.action.CleanSessions? && !Touches(w.dialect, rq, hash))
  }

  predicate Touches(d: Dialect, rq: StoreRequest, hash: string) {
    rq.action.EndSession? && SessionHash in rq.args && rq.args[SessionHash].Text?
    && Matches(d, rq.args[SessionHash].text, hash)
  }

  /** The event disconnects a device whose session the pattern would match. */
  predicate Leaves(w: World, e: Event, hash: string)
    requires Enabled(w, e)
  {
    match e
    case Drop(i) => Matches(w.dialect, w.devices[i].monitor.session, hash)
    case TurnDevice(i, link) =>
      w.devices[i].queue[0].action.Connect? && !w.devices[i].monitor.connected && !link.connects
      && Matches(w.dialect, w.devices[i].monitor.session, hash)
    case _ => false
  }

  predicate StayingRun(w: World, es: seq<Event>, hash: string)
    requires Possible(w, es)
    decreases |es|
  {
    es == [] || (!Leaves(w, es[0], hash) && StayingRun(Next(w, es[0]), es[1..], hash))
  }

  ghost predicate OpenSince(s: Store, serials: nat, hash: string) {
    && serials <= s.births
    && forall id | id in s.sessions && s.sessions[id].serial >= serials && s.sessions[id].hash == hash :: s.sessions[id].ended == 0
  }

  lemma StatementSpares(d: Dialect, s: Store, st: Statement, serials: nat, hash: string)
    requires OpenSince(s, serials, hash) && (st.End? ==> !Matches(d, st.hash, hash))
    ensures OpenSince(Run(d, s, st), serials, hash)
  {
    if st.Sample? {
      StoredRows(d, s, st.data, st.hash);
      hide StoreData;
    }
  }

  lemma RequestSpares(d: Dialect, env: Env, s: Store, registry: map<string, DeviceState>, rq: StoreRequest,
                      serials: nat, hash: string)
    requires Backend.Answers(env, s) && WellFormed(rq) && !Touches(d, rq, hash) && OpenSince(s, serials, hash)
    ensures OpenSince(HandleStore(d, env, s, registry, rq).store, serials, hash)
  {
    RequestRunsStatements(d, env, s, registry, rq);
    var first, second := First(d, env, s, rq), Second(d, env, s, rq);
    assert (first.End? ==> !Matches(d, first.hash, hash)) && !second.End?;
    hide HandleStore, First, Second, Run, OpenSince, Matches;
    StatementSpares(d, s, first, serials, hash);
    StatementSpares(d, Run(d, s, first), second, serials, hash);
  }

  /** A device asks for no end but that of its own session, on a failed connection. */
  lemma StoredEnds(link: Link, m: Monitor, rq: DeviceRequest)
    ensures forall next | next in HandleMonitor(link, m, rq).stored ::
              && !next.action.CleanSessions?
              && (next.action.EndSession? ==> rq.action.Connect? && !m.connected && !link.connects && next == Ended(m.session))
  {
  }

  lemma StepStaysSpared(w: World, e: Event, serials: nat, hash: string)
    requires Spared(w, serials, hash) && Proper(w) && Enabled(w, e) && !Leaves(w, e, hash)
    ensures Spared(Next(w, e), serials, hash)
  {
    hide HandleStore, OpenSince;
    match e
    case TurnDatabase(env) =>
      assert w.database[0] in w.database;
      RequestSpares(w.dialect, env, w.store, Registry(w.devices), w.database[0], serials, hash);
    case TurnDevice(i, link) =>
      StoredEnds(link, w.devices[i].monitor, w.devices[i].queue[0]);
      hide HandleMonitor, Touches, Matches;
    case _ =>
      hide HandleMonitor;
  }

  lemma {:induction false} RunsStaySpared(w: World, es: seq<Event>, serials: nat, hash: string)
    requires Spared(w, serials, hash) && Proper(w) && Possible(w, es) && StayingRun(w, es, hash)
    ensures Spared(After(w, es), serials, hash)
    decreases |es|
  {
    hide HandleStore, Spared, Next, Enabled, Leaves, Proper;
    if es != [] {
      StepStaysSpared(w, es[0], serials, hash);
      StepStaysProper(w, es[0]);
      RunsStaySpared(Next(w, es[0]), es[1..], serials, hash);
    }
  }

  lemma {:induction false} EndRequestsNameOpenRows(d: Dialect, s: Store, order: seq<nat>, hash: string)
    requires forall i | 0 <= i < |order| :: order[i] in s.sessions
    requires forall id | id in s.sessions && s.sessions[id].ended == 0 :: !Matches(d, s.sessions[id].hash, hash)
    ensures forall rq | rq in EndRequests(s, order) :: !Touches(d, rq, hash)
  {
    if order != [] {
      EndRequestsNameOpenRows(d, s, order[..|order| - 1], hash);
    }
  }

  /** A session added after the clean under a hash that was not open at the clean stays open as long
      as its own device does not lose or fail a connection: the clean never ends it. */
  lemma {:induction false} CleaningSparesNewSessions(w: World, env: Env, es: seq<Event>, hash: string)
    requires Proper(w) && Sound(w.dialect, w.store)
    requires Enabled(w, TurnDatabase(env)) && w.database[0].action.CleanSessions?
    requires forall rq | rq in w.database[1..] :: !rq.action.CleanSessions? && !Touches(w.dialect, rq, hash)
    requires forall id | id in w.store.sessions && w.store.sessions[id].ended == 0 ::
               !Matches(w.dialect, w.store.sessions[id].hash, hash)
    requires Possible(TurnedDatabase(w, env), es) && StayingRun(TurnedDatabase(w, env), es, hash)
    ensures forall id | id in After(TurnedDatabase(w, env), es).store.sessions
                        && After(TurnedDatabase(w, env), es).store.sessions[id].serial >= w.store.births
                        && After(TurnedDatabase(w, env), es).store.sessions[id].hash == hash ::
              After(TurnedDatabase(w, env), es).store.sessions[id].ended == 0
  {
    var w1 := TurnedDatabase(w, env);
    EndRequestsProper(w.store, env.sessionOrder);
    EndRequestsNameOpenRows(w.dialect, w.store, env.sessionOrder, hash);
    assert w1.store == w.store;
    StepStaysProper(w, TurnDatabase(env));
    assert Spared(w1, w.store.births, hash);
    RunsStaySpared(w1, es, w.store.births, hash);
    hide HandleStore;
  }
}
