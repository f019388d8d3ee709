/** A lost connection closes the session its device held. */
module Closing {
  import opened Protocol
  import opened Like
  import opened Tables
  import opened Samples
  import opened Backend
  import opened MonitorRules
  import opened Routing
  import opened Collector
  import opened Queues
  import opened Relational

  ghost predicate Closed(s: Store, hash: string) {
    forall id | id in s.sessions && s.sessions[id].hash == hash :: s.sessions[id].ended != 0
  }

  /** Without tables there are no sessions. */
  predicate Tidy(s: Store) {
    s.created || s.sessions == map[]
  }

  predicate Ends(rq: StoreRequest, hash: string) {
    rq.action.EndSession? && SessionHash in rq.args && rq.args[SessionHash] == Text(hash)
  }

  predicate Opens(rq: StoreRequest, hash: string) {
    rq.action.AddSession? && rq.action.info.hash == hash
  }

  predicate AfterOne(rq: StoreRequest, hash: string, closed: bool) {
    if Ends(rq, hash) then true else if Opens(rq, hash) then false else closed
  }

  /** Whether the rows with the hash will be closed once the queue has been handled. */
  predicate Settles(queue: seq<StoreRequest>, hash: string, closed: bool)
    decreases |queue|
  {
    if queue == [] then closed else Settles(queue[1..], hash, AfterOne(queue[0], hash, closed))
  }

  ghost predicate WillClose(w: World, hash: string) {
    Tidy(w.store) && Settles(w.database, hash, Closed(w.store, hash))
  }

  lemma {:induction false} SettlesAdd(a: seq<StoreRequest>, b: seq<StoreRequest>, hash: string, closed: bool)
    ensures Settles(a + b, hash, closed) == Settles(b, hash, Settles(a, hash, closed))
    decreases |a|
  {
    if a == [] {
      assert a + b == b;
    } else {
      assert (a + b)[1..] == a[1..] + b;
      SettlesAdd(a[1..], b, hash, AfterOne(a[0], hash, closed));
    }
  }

  lemma {:induction false} SettlesMonotone(queue: seq<StoreRequest>, hash: string)
    ensures Settles(queue, hash, false) ==> Settles(queue, hash, true)
    decreases |queue|
  {
    if queue != [] {
      SettlesMonotone(queue[1..], hash);
    }
  }

  lemma {:induction false} NoOpeningKeeps(queue: seq<StoreRequest>, hash: string)
    requires forall rq | rq in queue :: !Opens(rq, hash)
    ensures Settles(queue, hash, true)
    decreases |queue|
  {
    if queue != [] {
      NoOpeningKeeps(queue[1..], hash);
    }
  }

  lemma StatementKeepsClosed(d: Dialect, s: Store, st: Statement, hash: string)
    requires Closed(s, hash) && (st.NewSession? ==> st.info.hash != hash) && (st.End? ==> st.now > 0)
    ensures Closed(Run(d, s, st), hash)
  {
    match st
    case Sample(data, h) =>
      StoredRows(d, s, data, h);
      hide StoreData;
    case _ =>
  }

  lemma StepStaysTidy(d: Dialect, env: Env, s: Store, registry: map<string, DeviceState>, rq: StoreRequest)
    requires Tidy(s) && Backend.Answers(env, s) && WellFormed(rq)
    ensures Tidy(HandleStore(d, env, s, registry, rq).store)
  {
    RequestRunsStatements(d, env, s, registry, rq);
    hide HandleStore;
    match rq.action
    case AddData(data) =>
      StoredRows(d, s, data, rq.args[SessionHash].text);
      hide StoreData;
    case _ =>
  }

  /** While updates succeed, handling a request leaves the rows as `AfterOne` foresees, or better. */
  lemma RequestCloses(d: Dialect, env: Env, s: Store, registry: map<string, DeviceState>, rq: StoreRequest, hash: string)
    requires Tidy(s) && Backend.Answers(env, s) && WellFormed(rq) && Matches(d, hash, hash)
    requires env.update && env.now > 0 && AfterOne(rq, hash, Closed(s, hash))
    ensures Closed(HandleStore(d, env, s, registry, rq).store, hash)
  {
    RequestRunsStatements(d, env, s, registry, rq);
    var first, second := First(d, env, s, rq), Second(d, env, s, rq);
    if Ends(rq, hash) {
      assert Closed(Run(d, s, first), hash) && second.Nothing?;
    } else {
      assert (second.NewSession? ==> second.info.hash != hash) && !second.End? && !first.NewSession?;
      assert first.End? ==> first.now > 0;
      hide HandleStore, First, Second, Run, Closed;
      StatementKeepsClosed(d, s, first, hash);
      StatementKeepsClosed(d, Run(d, s, first), second, hash);
    }
  }

  /** Updates succeed with the clock past zero, and no device takes a session of that hash. */
  predicate Undisturbed(w: World, e: Event, hash: string)
    requires Enabled(w, e)
  {
    && (e.TurnDatabase? ==> e.env.update && e.env.now > 0)
    && (e.TurnDevice? ==> var a := w.devices[e.device].queue[0].action; a.SetSession? ==> a.info.hash != hash)
  }

  predicate UndisturbedRun(w: World, es: seq<Event>, hash: string)
    requires Possible(w, es)
    decreases |es|
  {
    es == [] || (Undisturbed(w, es[0], hash) && UndisturbedRun(Next(w, es[0]), es[1..], hash))
  }

  lemma DatabaseTurnCloses(w: World, env: Env, hash: string)
    requires WillClose(w, hash) && Proper(w) && Enabled(w, TurnDatabase(env)) && env.update && env.now > 0
    requires Matches(w.dialect, hash, hash)
    ensures WillClose(TurnedDatabase(w, env), hash)
  {
    hide HandleStore, Closed, Tidy;
    var rq := w.database[0];
    var effect := HandleStore(w.dialect, env, w.store, Registry(w.devices), rq);
    StepStaysTidy(w.dialect, env, w.store, Registry(w.devices), rq);
    EndRequestsProper(w.store, env.sessionOrder);
    NoOpeningKeeps(effect.requeued, hash);
    SettlesAdd(w.database[1..], effect.requeued, hash, Closed(effect.store, hash));
    SettlesMonotone(w.database[1..], hash);
    if AfterOne(rq, hash, Closed(w.store, hash)) {
      RequestCloses(w.dialect, env, w.store, Registry(w.devices), rq, hash);
    }
  }

  lemma MoreRequestsKeep(w: World, more: seq<StoreRequest>, hash: string)
    requires WillClose(w, hash) && forall rq | rq in more :: !Opens(rq, hash)
    ensures Settles(w.database + more, hash, Closed(w.store, hash))
  {
    SettlesAdd(w.database, more, hash, Closed(w.store, hash));
    NoOpeningKeeps(more, hash);
  }

  lemma StepStaysClosing(w: World, e: Event, hash: string)
    requires WillClose(w, hash) && Proper(w) && Enabled(w, e) && Undisturbed(w, e, hash)
    requires Matches(w.dialect, hash, hash)
    ensures WillClose(Next(w, e), hash) && Next(w, e).dialect == w.dialect
  {
    hide HandleStore, Closed, Tidy, Settles;
    match e
    case TurnDatabase(env) => DatabaseTurnCloses(w, env, hash);
    case TurnDispatcher(_) =>
      var route := RouteOf(w.dispatcher[0]);
      if route.ToStore? {
        MoreRequestsKeep(w, [route.store], hash);
      }
    case TurnDevice(i, link) =>
      MoreRequestsKeep(w, HandleMonitor(link, w.devices[i].monitor, w.devices[i].queue[0]).stored, hash);
    case Drop(i) => MoreRequestsKeep(w, EndOf(w.devices[i].monitor), hash);
    case _ =>
  }

  lemma {:induction false} RunsStayClosing(w: World, es: seq<Event>, hash: string)
    requires WillClose(w, hash) && Proper(w) && Possible(w, es) && UndisturbedRun(w, es, hash)
    requires Matches(w.dialect, hash, hash)
    ensures WillClose(After(w, es), hash)
    decreases |es|
  {
    hide HandleStore, WillClose, Next, Enabled, Undisturbed, Proper;
    if es != [] {
      StepStaysClosing(w, es[0], hash);
      StepStaysProper(w, es[0]);
      RunsStayClosing(Next(w, es[0]), es[1..], hash);
    }
  }

  lemma DropWillClose(w: World, i: nat)
    requires Tidy(w.store) && Enabled(w, Drop(i)) && w.devices[i].monitor.session != ""
    ensures WillClose(Next(w, Drop(i)), w.devices[i].monitor.session)
  {
    var hash := w.devices[i].monitor.session;
    SettlesAdd(w.database, [Ended(hash)], hash, Closed(w.store, hash));
  }

  /** From any state: after a connection is lost and the database queue has drained, every row with
      the session hash the device held has ended - whatever happened in between, short of some
      device taking a session of that hash again. */
  lemma {:induction false} DropClosesTheSession(w: World, i: nat, es: seq<Event>)
    requires Proper(w) && Tidy(w.store) && Enabled(w, Drop(i)) && w.devices[i].monitor.session != ""
    requires Matches(w.dialect, w.devices[i].monitor.session, w.devices[i].monitor.session)
    requires Possible(Next(w, Drop(i)), es) && UndisturbedRun(Next(w, Drop(i)), es, w.devices[i].monitor.session)
    requires After(Next(w, Drop(i)), es).database == []
    ensures Closed(After(Next(w, Drop(i)), es).store, w.devices[i].monitor.session)
  {
    DropWillClose(w, i);
    StepStaysProper(w, Drop(i));
    RunsStayClosing(Next(w, Drop(i)), es, w.devices[i].monitor.session);
  }
}
