/** The order in which the queues are served does not show in the tables. */
module Interleaving {
  import opened Protocol
  import opened Like
  import opened Tables
  import opened Samples
  import opened Backend
  import opened MonitorRules
  import opened Collector

  /** The tables up to start timestamps. */
  function Timeless(s: Store): Store {
    s.(sessions := map id | id in s.sessions :: s.sessions[id].(started := 0))
  }

  /** Requests of the monitor, and the StartStream a session leads to. */
  predicate FromMonitor(a: DeviceAction) {
    a.SetSession? || a.ProcessData? || a.MonitorStatus? || a.StartStream?
  }

  /** What the device will send on to the database for its queue. */
  function Forwarded(hash: string, session: string, queue: seq<DeviceRequest>): seq<StoreRequest>
    decreases |queue|
  {
    if queue == [] then []
    else match queue[0].action
      case SetSession(info) =>
        [Request(None, AddSession(info), map[DeviceHash := Text(hash)])] + Forwarded(hash, info.hash, queue[1..])
      case ProcessData(data) =>
        [Request(None, AddData(data), map[SessionHash := Text(session)])] + Forwarded(hash, session, queue[1..])
      case _ => Forwarded(hash, session, queue[1..])
  }

  function SessionAfter(session: string, queue: seq<DeviceRequest>): string
    decreases |queue|
  {
    if queue == [] then session
    else SessionAfter(if queue[0].action.SetSession? then queue[0].action.info.hash else session, queue[1..])
  }

  predicate Forwards(a: StoreAction) {
    a.AddSession? || a.AddData?
  }

  /** One forwarded request on the tables, at time zero. */
  function Play(d: Dialect, s: Store, rq: StoreRequest): Store {
    if !WellFormed(rq) || !s.created then s
    else match rq.action
      case AddSession(info) =>
        var s1 := if SessionIds(d, s, info.hash) != {} then DeleteSession(d, s, info.hash) else s;
        (match InsertSession(d, s1, info, rq.args[DeviceHash].text, 0) case None => s1 case Some(s2) => s2)
      case AddData(data) => StoreData(d, s, data, rq.args[SessionHash].text)
      case _ => s
  }

  function PlayAll(d: Dialect, s: Store, queue: seq<StoreRequest>): Store
    decreases |queue|
  {
    if queue == [] then s else PlayAll(d, Play(d, s, queue[0]), queue[1..])
  }

  function Head(hash: string, session: string, rq: DeviceRequest): seq<StoreRequest> {
    match rq.action
    case SetSession(info) => [Request(None, AddSession(info), map[DeviceHash := Text(hash)])]
    case ProcessData(data) => [Request(None, AddData(data), map[SessionHash := Text(session)])]
    case _ => []
  }

  lemma ForwardedHead(hash: string, session: string, queue: seq<DeviceRequest>)
    requires queue != []
    ensures Forwarded(hash, session, queue)
         == Head(hash, session, queue[0])
            + Forwarded(hash, if queue[0].action.SetSession? then queue[0].action.info.hash else session, queue[1..])
  {
  }

  lemma {:induction false} ForwardedAdd(hash: string, session: string, a: seq<DeviceRequest>, b: seq<DeviceRequest>)
    ensures Forwarded(hash, session, a + b) == Forwarded(hash, session, a) + Forwarded(hash, SessionAfter(session, a), b)
    ensures SessionAfter(session, a + b) == SessionAfter(SessionAfter(session, a), b)
    decreases |a|
  {
    if a == [] {
      assert a + b == b;
    } else {
      var next := if a[0].action.SetSession? then a[0].action.info.hash else session;
      assert (a + b)[0] == a[0] && (a + b)[1..] == a[1..] + b;
      ForwardedAdd(hash, next, a[1..], b);
      ForwardedHead(hash, session, a);
      ForwardedHead(hash, session, a + b);
      hide Forwarded;
    }
  }

  lemma {:induction false} PlayAllAdd(d: Dialect, s: Store, a: seq<StoreRequest>, b: seq<StoreRequest>)
    ensures PlayAll(d, s, a + b) == PlayAll(d, PlayAll(d, s, a), b)
    decreases |a|
  {
    if a == [] {
      assert a + b == b;
    } else {
      assert (a + b)[0] == a[0] && (a + b)[1..] == a[1..] + b;
      PlayAllAdd(d, Play(d, s, a[0]), a[1..], b);
    }
  }

  // ---- timestamps do not matter ----

  lemma TimelessSelects(d: Dialect, s: Store, hash: string)
    ensures SessionIds(d, Timeless(s), hash) == SessionIds(d, s, hash)
    ensures OpenIds(d, Timeless(s), hash) == OpenIds(d, s, hash)
    ensures DeviceIds(d, Timeless(s), hash) == DeviceIds(d, s, hash)
    ensures Timeless(s).sessions.Keys == s.sessions.Keys
  {
  }

  lemma TimelessDrops(d: Dialect, s: Store, hash: string)
    ensures Timeless(DeleteSession(d, s, hash)) == DeleteSession(d, Timeless(s), hash)
  {
    TimelessSelects(d, s, hash);
    assert Timeless(DeleteSession(d, s, hash)).sessions == DeleteSession(d, Timeless(s), hash).sessions;
  }

  lemma TimelessInserts(d: Dialect, s: Store, info: SessionInfo, deviceHash: string, now: nat)
    ensures var a := InsertSession(d, s, info, deviceHash, now);
            var b := InsertSession(d, Timeless(s), info, deviceHash, 0);
            a.Some? == b.Some? && (a.Some? ==> Timeless(a.value) == b.value)
  {
    TimelessSelects(d, s, deviceHash);
    var a := InsertSession(d, s, info, deviceHash, now);
    var b := InsertSession(d, Timeless(s), info, deviceHash, 0);
    if a.Some? {
      assert Timeless(a.value).sessions == b.value.sessions;
    }
  }

  lemma TimelessSamples(d: Dialect, s: Store, data: Data, hash: string)
    ensures Timeless(StoreData(d, s, data, hash)) == StoreData(d, Timeless(s), data, hash)
  {
    TimelessSelects(d, s, hash);
    ExecutionAppends(d, s, data, hash, Entries(data));
    ExecutionAppends(d, Timeless(s), data, hash, Entries(data));
    hide Execute;
  }

  /** Handling a forwarded request while statements succeed is playing it, up to timestamps. */
  lemma HandlingIsPlaying(d: Dialect, env: Env, s: Store, registry: map<string, DeviceState>, rq: StoreRequest)
    requires Backend.Answers(env, s) && WellFormed(rq) && Healthy(env) && Forwards(rq.action)
    ensures var effect := HandleStore(d, env, s, registry, rq);
            && Timeless(effect.store) == Play(d, Timeless(s), rq)
            && effect.requeued == [] && effect.dispatched == [] && effect.written == [] && effect.loaded == []
  {
    assert Timeless(s).created == s.created;
    hide StoreData, InsertSession, DeleteSession, Timeless, Lists;
    match rq.action
    case AddSession(info) =>
      var hash := rq.args[DeviceHash].text;
      TimelessSelects(d, s, info.hash);
      TimelessDrops(d, s, info.hash);
      TimelessInserts(d, s, info, hash, env.now);
      TimelessInserts(d, DeleteSession(d, s, info.hash), info, hash, env.now);
    case AddData(data) => TimelessSamples(d, s, data, rq.args[SessionHash].text);
  }

  // ---- runs of one device ----

  /** Messages of device `i`, turns of its queue and of the database, whose statements succeed, and
      ticks of any lane timer. */
  predicate OneDevice(e: Event, i: nat) {
    match e
    case Incoming(k, _) => k == i
    case TurnDevice(k, _) => k == i
    case TurnDatabase(env) => Healthy(env)
    case LaneTick(_, _, _) => true
    case _ => false
  }

  /** The messages that arrive, in order. */
  function Arrivals(es: seq<Event>): seq<DeviceRequest> {
    if es == [] then []
    else (if es[0].Incoming? then [RequestOf(es[0].report)] else []) + Arrivals(es[1..])
  }

  predicate Fed(w: World, i: nat) {
    && i < |w.devices|
    && (forall k | 0 <= k < |w.devices[i].queue| :: FromMonitor(w.devices[i].queue[k].action))
    && (forall k | 0 <= k < |w.database| :: Forwards(w.database[k].action) && WellFormed(w.database[k]))
  }

  /** What is still to be played: the queued database requests, then those the device will send. */
  function Remaining(w: World, i: nat): seq<StoreRequest>
    requires i < |w.devices|
  {
    w.database + Forwarded(w.devices[i].monitor.data.hash, w.devices[i].monitor.session, w.devices[i].queue)
  }

  /** The tables once everything pending has been played. */
  function Outlook(w: World, i: nat): Store
    requires i < |w.devices|
  {
    PlayAll(w.dialect, Timeless(w.store), Remaining(w, i))
  }

  /** The session the device will hold once its queue has been handled. */
  function Upcoming(w: World, i: nat): string
    requires i < |w.devices|
  {
    SessionAfter(w.devices[i].monitor.session, w.devices[i].queue)
  }

  lemma DatabaseTurnKeepsOutlook(w: World, i: nat, env: Env)
    requires Fed(w, i) && Enabled(w, TurnDatabase(env)) && Healthy(env)
    ensures var w' := TurnedDatabase(w, env);
            && Fed(w', i) && w'.devices == w.devices && w'.dialect == w.dialect
            && Outlook(w', i) == Outlook(w, i) && Upcoming(w', i) == Upcoming(w, i)
  {
    var rq := w.database[0];
    HandlingIsPlaying(w.dialect, env, w.store, Registry(w.devices), rq);
    hide HandleStore, Play, Timeless;
    var w' := TurnedDatabase(w, env);
    assert w'.database == w.database[1..];
    assert w'.devices == w.devices;
    assert Remaining(w, i) == [rq] + Remaining(w', i);
    assert Remaining(w, i)[1..] == Remaining(w', i);
  }

  /** A device sends on what its queue foretold, and adds only StartStream to it. */
  lemma DeviceForwards(link: Link, m: Monitor, rq: DeviceRequest)
    requires FromMonitor(rq.action)
    ensures var outcome := HandleMonitor(link, m, rq);
            && outcome.stored == Forwarded(m.data.hash, m.session, [rq])
            && outcome.monitor.data == m.data && outcome.monitor.session == SessionAfter(m.session, [rq])
            && (outcome.requeued == [] || outcome.requeued == [Protocol.Internal(StartStream)])
            && (forall k | 0 <= k < |outcome.stored| :: Forwards(outcome.stored[k].action) && WellFormed(outcome.stored[k]))
            && !outcome.fault
  {
    assert [rq][1..] == [];
  }

  lemma DeviceTurnKeepsOutlook(w: World, i: nat, link: Link)
    requires Fed(w, i) && Enabled(w, TurnDevice(i, link))
    ensures var w' := TurnedDevice(w, i, link);
            && Fed(w', i) && w'.dialect == w.dialect
            && w'.devices[i].monitor.data == w.devices[i].monitor.data
            && Outlook(w', i) == Outlook(w, i) && Upcoming(w', i) == Upcoming(w, i)
  {
    var w', m, queue := TurnedDevice(w, i, link), w.devices[i].monitor, w.devices[i].queue;
    assert FromMonitor(queue[0].action);
    DeviceForwards(link, m, queue[0]);
    var outcome := HandleMonitor(link, m, queue[0]);
    hide HandleMonitor, HandleStore, Play, PlayAll, Timeless, FromMonitor, Forwards, WellFormed, Fed;
    ForwardingShifts(m.data.hash, m.session, queue, outcome.requeued);
    assert Remaining(w', i) == w.database + (Forwarded(m.data.hash, m.session, [queue[0]])
                                             + Forwarded(m.data.hash, outcome.monitor.session, queue[1..] + outcome.requeued));
    assert Remaining(w', i) == Remaining(w, i);
    assert Fed(w', i) by {
      FedAfterTurn(w, i, link);
    }
  }

  lemma FedAfterTurn(w: World, i: nat, link: Link)
    requires Fed(w, i) && Enabled(w, TurnDevice(i, link))
    ensures Fed(TurnedDevice(w, i, link), i)
  {
    DeviceForwards(link, w.devices[i].monitor, w.devices[i].queue[0]);
    hide HandleMonitor, WellFormed;
  }

  /** Taking the head off the queue and adding a StartStream moves one forwarding to the front. */
  lemma ForwardingShifts(hash: string, session: string, queue: seq<DeviceRequest>, requeued: seq<DeviceRequest>)
    requires queue != [] && (requeued == [] || requeued == [Protocol.Internal(StartStream)])
    ensures var next := SessionAfter(session, [queue[0]]);
            && Forwarded(hash, session, queue)
               == Forwarded(hash, session, [queue[0]]) + Forwarded(hash, next, queue[1..] + requeued)
            && SessionAfter(session, queue) == SessionAfter(next, queue[1..] + requeued)
  {
    var next := SessionAfter(session, [queue[0]]);
    ForwardedAdd(hash, session, [queue[0]], queue[1..]);
    assert [queue[0]] + queue[1..] == queue;
    ForwardedAdd(hash, next, queue[1..], requeued);
    assert requeued != [] ==> requeued[1..] == [];
    assert Forwarded(hash, SessionAfter(next, queue[1..]), requeued) == [];
  }

  lemma ArrivalExtendsOutlook(w: World, i: nat, report: Report)
    requires Fed(w, i) && Enabled(w, Incoming(i, report))
    ensures var w' := TakeReport(w, i, report);
            && Fed(w', i) && w'.dialect == w.dialect
            && w'.devices[i].monitor == w.devices[i].monitor
            && Outlook(w', i) == PlayAll(w.dialect, Outlook(w, i),
                                         Forwarded(w.devices[i].monitor.data.hash, Upcoming(w, i), [RequestOf(report)]))
            && Upcoming(w', i) == SessionAfter(Upcoming(w, i), [RequestOf(report)])
  {
    hide Play, Timeless;
    var w' := TakeReport(w, i, report);
    var m, queue, rq := w.devices[i].monitor, w.devices[i].queue, RequestOf(report);
    ForwardedAdd(m.data.hash, m.session, queue, [rq]);
    var more := Forwarded(m.data.hash, Upcoming(w, i), [rq]);
    assert Remaining(w', i) == Remaining(w, i) + more;
    PlayAllAdd(w.dialect, Timeless(w.store), Remaining(w, i), more);
  }

  lemma TickKeepsOutlook(w: World, i: nat, e: Event)
    requires Fed(w, i) && Enabled(w, e) && e.LaneTick?
    ensures var w' := Next(w, e);
            && Fed(w', i) && w'.dialect == w.dialect && w'.devices == w.devices
            && Outlook(w', i) == Outlook(w, i) && Upcoming(w', i) == Upcoming(w, i)
  {
    hide Play, PlayAll, Timeless, FromMonitor, Forwards, WellFormed;
  }

  lemma {:induction false} RunsFollowTheOutlook(w: World, i: nat, es: seq<Event>)
    requires Fed(w, i) && Possible(w, es) && forall e | e in es :: OneDevice(e, i)
    ensures var w' := After(w, es);
            && Fed(w', i)
            && Outlook(w', i) == PlayAll(w.dialect, Outlook(w, i),
                                         Forwarded(w.devices[i].monitor.data.hash, Upcoming(w, i), Arrivals(es)))
    decreases |es|
  {
    hide HandleStore, HandleMonitor, Fed, Play, Timeless, Outlook, Upcoming;
    if es != [] {
      var e := es[0];
      assert e in es;
      var w1 := Next(w, e);
      assert !e.Incoming? ==> Arrivals(es) == Arrivals(es[1..]);
      match e {
        case TurnDatabase(env) => DatabaseTurnKeepsOutlook(w, i, env);
        case TurnDevice(_, link) => DeviceTurnKeepsOutlook(w, i, link);
        case Incoming(_, report) =>
          ArrivalExtendsOutlook(w, i, report);
          var hash, rq := w.devices[i].monitor.data.hash, RequestOf(report);
          ForwardedAdd(hash, Upcoming(w, i), [rq], Arrivals(es[1..]));
          PlayAllAdd(w.dialect, Outlook(w, i), Forwarded(hash, Upcoming(w, i), [rq]),
                     Forwarded(hash, Upcoming(w1, i), Arrivals(es[1..])));
        case LaneTick(k, _, lane) => TickKeepsOutlook(w, i, e);
      }
      RunsFollowTheOutlook(w1, i, es[1..]);
    }
  }

  /** Starting with the queues of the device and of the database empty, a run that drains them again
      leaves exactly the tables that result from forwarding and storing each message in the order of
      arrival, up to start timestamps. */
  lemma {:induction false} DrainedRunIsSequential(w: World, i: nat, es: seq<Event>)
    requires i < |w.devices| && w.devices[i].queue == [] && w.database == []
    requires Possible(w, es) && forall e | e in es :: OneDevice(e, i)
    requires i < |After(w, es).devices| && After(w, es).devices[i].queue == [] && After(w, es).database == []
    ensures Timeless(After(w, es).store) ==
            PlayAll(w.dialect, Timeless(w.store),
                    Forwarded(w.devices[i].monitor.data.hash, w.devices[i].monitor.session, Arrivals(es)))
  {
    RunsFollowTheOutlook(w, i, es);
  }

  /** So any two interleavings of the same messages drain to the same tables. */
  lemma {:induction false} InterleavingsAgree(w: World, i: nat, es: seq<Event>, fs: seq<Event>)
    requires i < |w.devices| && w.devices[i].queue == [] && w.database == []
    requires Possible(w, es) && (forall e | e in es :: OneDevice(e, i))
    requires Possible(w, fs) && (forall e | e in fs :: OneDevice(e, i))
    requires Arrivals(es) == Arrivals(fs)
    requires i < |After(w, es).devices| && After(w, es).devices[i].queue == [] && After(w, es).database == []
    requires i < |After(w, fs).devices| && After(w, fs).devices[i].queue == [] && After(w, fs).database == []
    ensures Timeless(After(w, es).store) == Timeless(After(w, fs).store)
  {
    DrainedRunIsSequential(w, i, es);
    DrainedRunIsSequential(w, i, fs);
  }
}
