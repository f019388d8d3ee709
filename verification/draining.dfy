/** With no new input, every order of handling the pending requests comes to an end. */
module Draining {
  import opened Protocol
  import opened Like
  import opened Tables
  import opened Backend
  import opened MonitorRules
  import opened Routing
  import opened Collector
  import opened Queues
  import opened Conservation

  predicate Busy(w: World) {
    w.phase.Running? && (w.dispatcher != [] || w.database != [] || exists i :: 0 <= i < |w.devices| && w.devices[i].queue != [])
  }

  // ---- the measure: pending CleanSessions first, then the weighted work ----

  function StoreCost(a: StoreAction): nat {
    match a
    case CleanSessions => 0
    case InsertDevice(_) => 3
    case InitTables => 2
    case ListDevices => 2
    case ListSessions(_) => 2
    case DeleteDevice(_) => 2
    case RemSession(_) => 2
    case _ => 1
  }

  function DeviceCost(a: DeviceAction): nat {
    match a
    case Connect => 3
    case SendDescriptor => 2
    case Disconnect => 2
    case SetSession(_) => 3
    case StartDevice => 3
    case StopDevice => 3
    case ProcessData(_) => 2
    case _ => 1
  }

  function DispatchCost(a: DispatchAction): nat {
    match a
    case SendStatus => 1
    case Quit => 1
    case QuitCollector => 2
    case _ => 4
  }

  function Cleans(queue: seq<StoreRequest>): nat {
    if queue == [] then 0 else (if queue[0].action.CleanSessions? then 1 else 0) + Cleans(queue[1..])
  }

  function StoreWork(queue: seq<StoreRequest>): nat {
    if queue == [] then 0 else StoreCost(queue[0].action) + StoreWork(queue[1..])
  }

  function DispatchWork(queue: seq<DispatchRequest>): nat {
    if queue == [] then 0 else DispatchCost(queue[0].action) + DispatchWork(queue[1..])
  }

  function QueueWork(queue: seq<DeviceRequest>): nat {
    if queue == [] then 0 else DeviceCost(queue[0].action) + QueueWork(queue[1..])
  }

  function DeviceWork(devices: seq<Device>): nat {
    if devices == [] then 0 else QueueWork(devices[0].queue) + DeviceWork(devices[1..])
  }

  function Work(w: World): nat {
    DispatchWork(w.dispatcher) + StoreWork(w.database) + DeviceWork(w.devices) + if w.phase.Running? then 1 else 0
  }

  lemma {:induction false} CleansAdd(a: seq<StoreRequest>, b: seq<StoreRequest>)
    ensures Cleans(a + b) == Cleans(a) + Cleans(b)
    ensures StoreWork(a + b) == StoreWork(a) + StoreWork(b)
  {
    if a == [] {
      assert a + b == b;
    } else {
      assert (a + b)[1..] == a[1..] + b;
      CleansAdd(a[1..], b);
    }
  }

  lemma {:induction false} DispatchWorkAdd(a: seq<DispatchRequest>, b: seq<DispatchRequest>)
    ensures DispatchWork(a + b) == DispatchWork(a) + DispatchWork(b)
  {
    if a == [] {
      assert a + b == b;
    } else {
      assert (a + b)[1..] == a[1..] + b;
      DispatchWorkAdd(a[1..], b);
    }
  }

  lemma {:induction false} QueueWorkAdd(a: seq<DeviceRequest>, b: seq<DeviceRequest>)
    ensures QueueWork(a + b) == QueueWork(a) + QueueWork(b)
  {
    if a == [] {
      assert a + b == b;
    } else {
      assert (a + b)[1..] == a[1..] + b;
      QueueWorkAdd(a[1..], b);
    }
  }

  lemma {:induction false} DeviceWorkUpdate(devices: seq<Device>, i: nat, device: Device)
    requires i < |devices|
    ensures DeviceWork(devices[i := device]) + QueueWork(devices[i].queue)
         == DeviceWork(devices) + QueueWork(device.queue)
  {
    var updated := devices[i := device];
    if i == 0 {
      assert updated[1..] == devices[1..];
    } else {
      assert updated[1..] == devices[1..][i - 1 := device];
      DeviceWorkUpdate(devices[1..], i - 1, device);
    }
  }

  lemma {:induction false} DeviceWorkEnrol(devices: seq<Device>, loaded: seq<DeviceData>)
    ensures DeviceWork(devices + Enrol(loaded)) == DeviceWork(devices)
    decreases |devices| + |loaded|
  {
    var all := devices + Enrol(loaded);
    if devices == [] {
      if loaded != [] {
        assert all[1..] == [] + Enrol(loaded[1..]);
        DeviceWorkEnrol([], loaded[1..]);
      }
    } else {
      assert all[1..] == devices[1..] + Enrol(loaded);
      DeviceWorkEnrol(devices[1..], loaded);
    }
  }

  // ---- every turn makes the measure smaller ----

  ghost predicate Smaller(w': World, w: World) {
    Cleans(w'.database) < Cleans(w.database)
    || (Cleans(w'.database) == Cleans(w.database) && Work(w') < Work(w))
  }

  lemma {:induction false} EndRequestsAreNoCleans(s: Store, order: seq<nat>)
    requires forall i | 0 <= i < |order| :: order[i] in s.sessions
    ensures Cleans(EndRequests(s, order)) == 0
  {
    if order != [] {
      var last := s.sessions[order[|order| - 1]];
      EndRequestsAreNoCleans(s, order[..|order| - 1]);
      CleansAdd(EndRequests(s, order[..|order| - 1]), if last.ended == 0 then [Ended(last.hash)] else []);
    }
  }

  lemma DatabaseTurnShrinks(w: World, env: Env)
    requires Proper(w) && Enabled(w, TurnDatabase(env))
    ensures Smaller(TurnedDatabase(w, env), w)
  {
    hide HandleStore;
    var rq := w.database[0];
    assert rq in w.database;
    var effect := HandleStore(w.dialect, env, w.store, Registry(w.devices), rq);
    EffectCosts(w.dialect, env, w.store, Registry(w.devices), rq);
    CleansAdd(w.database[1..], effect.requeued);
    DispatchWorkAdd(w.dispatcher, effect.dispatched);
    DeviceWorkEnrol(w.devices, effect.loaded);
    hide StoreCost, DispatchCost, DeviceCost, DispatchWork, DeviceWork, StoreProper, AnswersOnce;
  }

  lemma EffectCosts(d: Dialect, env: Env, s: Store, registry: map<string, DeviceState>, rq: StoreRequest)
    requires Backend.Answers(env, s) && StoreProper(rq)
    ensures var effect := HandleStore(d, env, s, registry, rq);
            && Cleans(effect.requeued) == 0
            && (!rq.action.CleanSessions? ==>
                  StoreWork(effect.requeued) + DispatchWork(effect.dispatched) < StoreCost(rq.action))
  {
    hide HandleStore;
    var effect := HandleStore(d, env, s, registry, rq);
    ShortQueues(effect.requeued, effect.dispatched, []);
    if rq.action.CleanSessions? {
      EndRequestsAreNoCleans(s, env.sessionOrder);
    }
  }

  lemma OutcomeCosts(link: Link, m: Monitor, rq: DeviceRequest)
    ensures var outcome := HandleMonitor(link, m, rq);
            && Cleans(outcome.stored) == 0
            && StoreWork(outcome.stored) + DispatchWork(outcome.dispatched) + QueueWork(outcome.requeued)
               < DeviceCost(rq.action)
  {
    var outcome := HandleMonitor(link, m, rq);
    ShortQueues(outcome.stored, outcome.dispatched, outcome.requeued);
    hide Cleans, StoreWork, DispatchWork, QueueWork, Reply;
  }

  lemma ShortQueues(stored: seq<StoreRequest>, dispatched: seq<DispatchRequest>, requeued: seq<DeviceRequest>)
    ensures |stored| <= 1 ==>
              && Cleans(stored) == (if stored == [] then 0 else if stored[0].action.CleanSessions? then 1 else 0)
              && StoreWork(stored) == if stored == [] then 0 else StoreCost(stored[0].action)
    ensures |dispatched| <= 1 ==> DispatchWork(dispatched) == if dispatched == [] then 0 else DispatchCost(dispatched[0].action)
    ensures |requeued| <= 1 ==> QueueWork(requeued) == if requeued == [] then 0 else DeviceCost(requeued[0].action)
  {
    assert |stored| == 1 ==> stored[1..] == [];
    assert |dispatched| == 1 ==> dispatched[1..] == [];
    assert |requeued| == 1 ==> requeued[1..] == [];
  }

  lemma DeviceTurnShrinks(w: World, i: nat, link: Link)
    requires Enabled(w, TurnDevice(i, link))
    ensures Smaller(TurnedDevice(w, i, link), w)
  {
    hide HandleMonitor;
    var device := w.devices[i];
    var outcome := HandleMonitor(link, device.monitor, device.queue[0]);
    OutcomeCosts(link, device.monitor, device.queue[0]);
    CleansAdd(w.database, outcome.stored);
    DispatchWorkAdd(w.dispatcher, outcome.dispatched);
    QueueWorkAdd(device.queue[1..], outcome.requeued);
    DeviceWorkUpdate(w.devices, i, Device(outcome.monitor, device.queue[1..] + outcome.requeued));
  }

  lemma RouteCosts(rq: DispatchRequest)
    ensures match RouteOf(rq)
            case ToStore(next) => !next.action.CleanSessions? && StoreCost(next.action) < DispatchCost(rq.action)
            case ToDevice(_, next) => DeviceCost(next.action) < DispatchCost(rq.action) && 1 < DispatchCost(rq.action)
            case Back(next) => DispatchCost(next.action) < DispatchCost(rq.action)
            case _ => true
  {
  }

  lemma DispatcherTurnShrinks(w: World, written: bool)
    requires Enabled(w, TurnDispatcher(written))
    ensures Smaller(TurnedDispatcher(w, written), w)
  {
    hide RouteOf, StoreCost, DeviceCost, HandleStore, HandleMonitor;
    var rq := w.dispatcher[0];
    RouteCosts(rq);
    match RouteOf(rq)
    case ToStore(next) => CleansAdd(w.database, [next]);
    case ToDevice(hash, next) =>
      match Find(w.devices, hash) {
        case None => DispatchWorkAdd(w.dispatcher[1..], [Routing.Unknown(rq.client)]);
        case Some(i) =>
          QueueWorkAdd(w.devices[i].queue, [next]);
          DeviceWorkUpdate(w.devices, i, Deliver(w.devices, i, next)[i]);
      }
    case Back(next) => DispatchWorkAdd(w.dispatcher[1..], [next]);
    case _ =>
  }

  lemma TurnShrinks(w: World, e: Event)
    requires Proper(w) && Enabled(w, e) && IsTurn(e)
    ensures Smaller(Next(w, e), w)
  {
    match e
    case TurnDatabase(env) => DatabaseTurnShrinks(w, env);
    case TurnDispatcher(written) => DispatcherTurnShrinks(w, written);
    case TurnDevice(i, link) => DeviceTurnShrinks(w, i, link);
  }

  // ---- every schedule drains ----

  lemma {:induction false} ListingExists(ids: set<nat>) returns (order: seq<nat>)
    ensures Lists(order, ids)
  {
    if ids == {} {
      order := [];
    } else {
      var id :| id in ids;
      var rest := ListingExists(ids - {id});
      order := rest + [id];
      forall other | other in ids ensures other in order {
        if other != id {
          assert other in ids - {id};
        }
      }
    }
  }

  /** Pending work can always be taken up: the collector never gets stuck. */
  lemma NeverStuck(w: World) returns (e: Event)
    requires Proper(w) && Busy(w)
    ensures IsTurn(e) && Enabled(w, e)
  {
    if w.dispatcher != [] {
      e := TurnDispatcher(true);
    } else if w.database != [] {
      var devices := ListingExists(w.store.devices.Keys);
      var sessions := ListingExists(w.store.sessions.Keys);
      e := TurnDatabase(Env(1, true, true, true, true, true, true, true, true, devices, sessions));
      assert w.database[0] in w.database;
    } else {
      var i :| 0 <= i < |w.devices| && w.devices[i].queue != [];
      e := TurnDevice(i, Link(true, true));
    }
  }

  /** Turns taken from `schedule` as long as there is work, and where they lead. */
  ghost predicate Follows(w: World, schedule: nat -> Event, n: nat, es: seq<Event>)
  {
    && |es| == n && Possible(w, es)
    && forall k | 0 <= k < n :: es[k] == schedule(k) && IsTurn(es[k])
  }

  /** A schedule that, whenever work is pending, names an enabled turn of the event loop. */
  ghost predicate Serves(w: World, schedule: nat -> Event) {
    forall n: nat, es | Follows(w, schedule, n, es) && Busy(After(w, es)) ::
      IsTurn(schedule(n)) && Enabled(After(w, es), schedule(n))
  }

  /** Whatever the order of turns and whatever the outside answers, the pending requests run out,
      or the collector exits. */
  lemma {:induction false} DrainsFrom(w: World, schedule: nat -> Event, es: seq<Event>) returns (run: seq<Event>)
    requires Proper(w) && Serves(w, schedule) && Follows(w, schedule, |es|, es)
    ensures Follows(w, schedule, |run|, run) && !Busy(After(w, run))
    decreases Cleans(After(w, es).database), Work(After(w, es))
  {
    var now := After(w, es);
    if !Busy(now) {
      run := es;
    } else {
      var e := schedule(|es|);
      assert IsTurn(e) && Enabled(now, e);
      RunsStayProper(w, es);
      AfterStep(w, es, e);
      TurnShrinks(now, e);
      run := DrainsFrom(w, schedule, es + [e]);
    }
  }

  lemma {:induction false} EveryScheduleDrains(w: World, schedule: nat -> Event) returns (run: seq<Event>)
    requires Proper(w) && Serves(w, schedule)
    ensures Follows(w, schedule, |run|, run) && !Busy(After(w, run))
  {
    run := DrainsFrom(w, schedule, []);
  }

  lemma NothingPending(w: World, o: Origin)
    requires w.phase.Running? && !Busy(w)
    ensures Pending(w, o) == 0
  {
    NoQueuedDevices(w.devices, o);
  }

  lemma {:induction false} NoQueuedDevices(devices: seq<Device>, o: Origin)
    requires forall i | 0 <= i < |devices| :: devices[i].queue == []
    ensures CountDevices(devices, o) == 0
  {
    if devices != [] {
      assert devices[0].queue == [];
      forall i | 0 <= i < |devices[1..]| ensures devices[1..][i].queue == [] {
        assert devices[1..][i] == devices[i + 1];
      }
      NoQueuedDevices(devices[1..], o);
    }
  }

  /** Once the queues have drained, every accepted control request has had its one answer, written or
      lost in the write, unless the collector exited or called through a missing connection. */
  lemma {:induction false} EveryRequestIsAnswered(w: World, schedule: nat -> Event, o: Origin) returns (run: seq<Event>)
    requires Proper(w) && Conserved(w) && Serves(w, schedule) && Owed(w, o)
    ensures Follows(w, schedule, |run|, run) && !Busy(After(w, run))
    ensures After(w, run).phase.Running? ==> CountAnswers(After(w, run).sent, o) + CountAnswers(After(w, run).lost, o) == 1
  {
    run := EveryScheduleDrains(w, schedule);
    if After(w, run).phase.Running? {
      RunsConserve(w, run);
      NothingPending(After(w, run), o);
      forall e | e in run ensures IsTurn(e) {
        var k :| 0 <= k < |run| && run[k] == e;
      }
      TurnsAskNothing(w, run);
      assert Balance(After(w, run), o) == 1;
    }
  }

  lemma {:induction false} TurnsAskNothing(w: World, es: seq<Event>)
    requires Possible(w, es) && forall e | e in es :: IsTurn(e)
    ensures After(w, es).asked == w.asked
    decreases |es|
  {
    hide HandleStore, HandleMonitor;
    if es != [] {
      assert es[0] in es;
      TurnsAskNothing(Next(w, es[0]), es[1..]);
    }
  }
}
