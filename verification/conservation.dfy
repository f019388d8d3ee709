/** No control request is lost or answered twice. */
module Conservation {
  import opened Protocol
  import opened Like
  import opened Tables
  import opened Backend
  import opened MonitorRules
  import opened Routing
  import opened Collector
  import opened Queues

  // ---- counting the requests of one control request ----

  predicate Carries<A>(rq: Request<A>, o: Origin) {
    rq.client == Some(o)
  }

  function Count<A>(queue: seq<Request<A>>, o: Origin): nat {
    if queue == [] then 0
    else (if Carries(queue[0], o) then 1 else 0) + Count(queue[1..], o)
  }

  /** A QuitCollector request is dropped by its handler, so it does not wait for an answer. */
  predicate Waits(rq: DispatchRequest, o: Origin) {
    Carries(rq, o) && !rq.action.QuitCollector?
  }

  function CountDispatch(queue: seq<DispatchRequest>, o: Origin): nat {
    if queue == [] then 0
    else (if Waits(queue[0], o) then 1 else 0) + CountDispatch(queue[1..], o)
  }

  function CountDevices(devices: seq<Device>, o: Origin): nat {
    if devices == [] then 0
    else Count(devices[0].queue, o) + CountDevices(devices[1..], o)
  }

  predicate Answers(sent: Sent, o: Origin) {
    sent.origin == o && sent.message.StatusMessage?
  }

  function CountAnswers(sent: seq<Sent>, o: Origin): nat {
    if sent == [] then 0
    else (if Answers(sent[0], o) then 1 else 0) + CountAnswers(sent[1..], o)
  }

  /** Requests in the queues that still carry the control request `o`. */
  function Pending(w: World, o: Origin): nat {
    CountDispatch(w.dispatcher, o) + Count(w.database, o) + CountDevices(w.devices, o)
  }

  /** Waiting requests and answers together, those whose write failed included. */
  function Balance(w: World, o: Origin): nat {
    Pending(w, o) + CountAnswers(w.sent, o) + CountAnswers(w.lost, o)
  }

  /** `o` names an accepted control request that is owed an answer. */
  predicate Owed(w: World, o: Origin) {
    o.ticket < |w.asked| && w.asked[o.ticket].0 == o.client && !w.asked[o.ticket].1.command.AskQuit?
  }

  ghost predicate Conserved(w: World) {
    forall o :: Balance(w, o) == if Owed(w, o) then 1 else 0
  }

  // ---- counting is additive ----

  lemma {:induction false} CountAdd<A>(a: seq<Request<A>>, b: seq<Request<A>>, o: Origin)
    ensures Count(a + b, o) == Count(a, o) + Count(b, o)
  {
    if a == [] {
      assert a + b == b;
    } else {
      assert (a + b)[1..] == a[1..] + b;
      CountAdd(a[1..], b, o);
    }
  }

  lemma {:induction false} CountDispatchAdd(a: seq<DispatchRequest>, b: seq<DispatchRequest>, o: Origin)
    ensures CountDispatch(a + b, o) == CountDispatch(a, o) + CountDispatch(b, o)
  {
    if a == [] {
      assert a + b == b;
    } else {
      assert (a + b)[1..] == a[1..] + b;
      CountDispatchAdd(a[1..], b, o);
    }
  }

  lemma {:induction false} CountAnswersAdd(a: seq<Sent>, b: seq<Sent>, o: Origin)
    ensures CountAnswers(a + b, o) == CountAnswers(a, o) + CountAnswers(b, o)
  {
    if a == [] {
      assert a + b == b;
    } else {
      assert (a + b)[1..] == a[1..] + b;
      CountAnswersAdd(a[1..], b, o);
    }
  }

  lemma {:induction false} CountDevicesUpdate(devices: seq<Device>, i: nat, device: Device, o: Origin)
    requires i < |devices|
    ensures CountDevices(devices[i := device], o) + Count(devices[i].queue, o)
         == CountDevices(devices, o) + Count(device.queue, o)
  {
    var updated := devices[i := device];
    if i == 0 {
      assert updated[1..] == devices[1..];
    } else {
      assert updated[1..] == devices[1..][i - 1 := device];
      CountDevicesUpdate(devices[1..], i - 1, device, o);
    }
  }

  lemma {:induction false} CountDevicesEnrol(devices: seq<Device>, loaded: seq<DeviceData>, o: Origin)
    ensures CountDevices(devices + Enrol(loaded), o) == CountDevices(devices, o)
    decreases |devices| + |loaded|
  {
    var all := devices + Enrol(loaded);
    if devices == [] {
      if loaded != [] {
        assert all[1..] == [] + Enrol(loaded[1..]);
        CountDevicesEnrol([], loaded[1..], o);
      }
    } else {
      assert all[1..] == devices[1..] + Enrol(loaded);
      CountDevicesEnrol(devices[1..], loaded, o);
    }
  }

  // ---- one event ----

  lemma {:induction false} CountInternal<A>(queue: seq<Request<A>>, o: Origin)
    requires forall rq | rq in queue :: rq.client.None?
    ensures Count(queue, o) == 0
  {
    if queue != [] {
      CountInternal(queue[1..], o);
    }
  }

  /** Handling a database request hands its client on to exactly one status. */
  lemma EffectHandsOn(d: Dialect, env: Env, s: Store, registry: map<string, DeviceState>, rq: StoreRequest, o: Origin)
    requires Backend.Answers(env, s) && StoreProper(rq)
    ensures var effect := HandleStore(d, env, s, registry, rq);
            && Count(effect.requeued, o) == 0 && CountAnswers(effect.written, o) == 0
            && CountDispatch(effect.dispatched, o) == if Carries(rq, o) then 1 else 0
  {
    hide HandleStore;
    var effect := HandleStore(d, env, s, registry, rq);
    EndRequestsProper(s, env.sessionOrder);
    CountInternal(effect.requeued, o);
    assert !StoreSilent(rq.action) ==> effect.dispatched[1..] == [];
  }

  lemma OutcomeHandsOn(link: Link, m: Monitor, rq: DeviceRequest, o: Origin)
    requires DeviceProper(rq) && !HandleMonitor(link, m, rq).fault
    ensures var outcome := HandleMonitor(link, m, rq);
            && Count(outcome.stored, o) == 0
            && Count(outcome.requeued, o) + CountDispatch(outcome.dispatched, o) == if Carries(rq, o) then 1 else 0
  {
    hide HandleMonitor;
    var outcome := HandleMonitor(link, m, rq);
    CountInternal(outcome.stored, o);
    if outcome.requeued == [Request(rq.client, SendDescriptor, rq.args)] && outcome.dispatched == [] {
      assert outcome.requeued[1..] == [];
    } else {
      CountInternal(outcome.requeued, o);
      assert !DeviceSilent(rq.action) ==> outcome.dispatched[1..] == [];
    }
  }

  lemma AppliedCounts(w: World, i: nat, outcome: Outcome, queue: seq<DeviceRequest>, o: Origin)
    requires i < |w.devices|
    ensures Pending(Applied(w, i, outcome, queue), o) + Count(w.devices[i].queue, o)
         == Pending(w, o) + Count(queue, o) + Count(outcome.requeued, o)
            + CountDispatch(outcome.dispatched, o) + Count(outcome.stored, o)
  {
    CountDispatchAdd(w.dispatcher, outcome.dispatched, o);
    CountAdd(w.database, outcome.stored, o);
    CountAdd(queue, outcome.requeued, o);
    CountDevicesUpdate(w.devices, i, Device(outcome.monitor, queue + outcome.requeued), o);
  }

  lemma DeliverCounts(devices: seq<Device>, i: nat, rq: DeviceRequest, o: Origin)
    requires i < |devices|
    ensures CountDevices(Deliver(devices, i, rq), o) == CountDevices(devices, o) + if Carries(rq, o) then 1 else 0
  {
    CountDevicesUpdate(devices, i, Deliver(devices, i, rq)[i], o);
    CountAdd(devices[i].queue, [rq], o);
  }

  /** A turn of the event loop moves the waiting requests on without losing or doubling one. */
  lemma TurnConserves(w: World, e: Event, o: Origin)
    requires Proper(w) && Enabled(w, e) && IsTurn(e) && !Next(w, e).phase.Crashed?
    ensures Balance(Next(w, e), o) == Balance(w, o)
    ensures Next(w, e).asked == w.asked
  {
    hide HandleMonitor, HandleStore, RouteOf, Balance, Proper;
    match e
    case TurnDatabase(env) => DatabaseTurnConserves(w, env, o);
    case TurnDispatcher(written) => DispatcherTurnConserves(w, written, o);
    case TurnDevice(i, link) => DeviceTurnConserves(w, i, link, o);
  }

  lemma DeviceTurnConserves(w: World, i: nat, link: Link, o: Origin)
    requires Proper(w) && Enabled(w, TurnDevice(i, link)) && !TurnedDevice(w, i, link).phase.Crashed?
    ensures Balance(TurnedDevice(w, i, link), o) == Balance(w, o)
  {
    var device := w.devices[i];
    assert device.queue[0] in device.queue;
    OutcomeHandsOn(link, device.monitor, device.queue[0], o);
    hide HandleMonitor, HandleStore, Count, CountDispatch, CountDevices, DeviceProper;
    AppliedCounts(w, i, HandleMonitor(link, device.monitor, device.queue[0]), device.queue[1..], o);
    QueueSplit(device.queue, o);
  }

  lemma QueueSplit<A>(queue: seq<Request<A>>, o: Origin)
    requires queue != []
    ensures Count(queue, o) == (if Carries(queue[0], o) then 1 else 0) + Count(queue[1..], o)
  {
  }

  lemma DatabaseTurnConserves(w: World, env: Env, o: Origin)
    requires Proper(w) && Enabled(w, TurnDatabase(env))
    ensures Balance(TurnedDatabase(w, env), o) == Balance(w, o)
  {
    hide HandleStore;
    var rq := w.database[0];
    assert rq in w.database;
    var effect := HandleStore(w.dialect, env, w.store, Registry(w.devices), rq);
    EffectHandsOn(w.dialect, env, w.store, Registry(w.devices), rq, o);
    CountAdd(w.database[1..], effect.requeued, o);
    CountDispatchAdd(w.dispatcher, effect.dispatched, o);
    CountAnswersAdd(w.sent, effect.written, o);
    CountDevicesEnrol(w.devices, effect.loaded, o);
  }

  /** Routing hands the client on to exactly one request or one status. */
  lemma RouteHandsOn(rq: DispatchRequest, o: Origin)
    requires DispatchProper(rq)
    ensures match RouteOf(rq)
            case ToStore(next) => Carries(next, o) == Waits(rq, o)
            case ToDevice(_, next) => Carries(next, o) == Waits(rq, o) && Waits(Routing.Unknown(rq.client), o) == Waits(rq, o)
            case Back(next) => !Waits(next, o) && !Waits(rq, o)
            case ToClient(message) => Answers(message, o) == Waits(rq, o)
            case _ => !Waits(rq, o)
  {
  }

  lemma DispatcherTurnConserves(w: World, written: bool, o: Origin)
    requires Proper(w) && Enabled(w, TurnDispatcher(written))
    ensures Balance(TurnedDispatcher(w, written), o) == Balance(w, o)
  {
    var rq := w.dispatcher[0];
    assert rq in w.dispatcher;
    RouteHandsOn(rq, o);
    hide RouteOf, DispatchProper, Waits, Carries, Answers;
    match RouteOf(rq)
    case ToStore(next) => CountAdd(w.database, [next], o);
    case ToDevice(hash, next) =>
      match Find(w.devices, hash) {
        case None => CountDispatchAdd(w.dispatcher[1..], [Routing.Unknown(rq.client)], o);
        case Some(i) => DeliverCounts(w.devices, i, next, o);
      }
    case Back(next) => CountDispatchAdd(w.dispatcher[1..], [next], o);
    case ToClient(message) =>
      CountAnswersAdd(w.sent, [message], o);
      CountAnswersAdd(w.lost, [message], o);
    case Nowhere =>
    case Exit =>
  }

  /** Any event: an accepted control request adds one owed answer, nothing else changes the balance. */
  lemma StepConserves(w: World, e: Event)
    requires Proper(w) && Conserved(w) && Enabled(w, e) && !Next(w, e).phase.Crashed?
    ensures Conserved(Next(w, e))
  {
    hide Balance, HandleStore, HandleMonitor;
    var w' := Next(w, e);
    forall o ensures Balance(w', o) == if Owed(w', o) then 1 else 0 {
      if IsTurn(e) {
        TurnConserves(w, e, o);
        assert Owed(w', o) == Owed(w, o);
      } else {
        InputConserves(w, e, o);
      }
    }
  }

  lemma InputConserves(w: World, e: Event, o: Origin)
    requires Enabled(w, e) && !IsTurn(e)
    ensures Balance(Next(w, e), o) - (if Owed(Next(w, e), o) then 1 else 0)
         == Balance(w, o) - if Owed(w, o) then 1 else 0
  {
    match e
    case Control(client, rq, written) =>
      var origin := Origin(client, |w.asked|);
      CountDispatchAdd(w.dispatcher, [Accept(origin, rq, written)], o);
      CountAnswersAdd(w.sent, [Sent(origin, SetSessionMessage)], o);
    case Incoming(i, report) => DeliverCounts(w.devices, i, RequestOf(report), o);
    case Drop(i) =>
      var outcome := Dropped(w.devices[i].monitor);
      CountInternal(outcome.stored, o);
      AppliedCounts(w, i, outcome, w.devices[i].queue, o);
    case LaneTick(_, _, _) =>
  }

  lemma {:induction false} RunsConserve(w: World, es: seq<Event>)
    requires Proper(w) && Conserved(w) && Possible(w, es) && !After(w, es).phase.Crashed?
    ensures Conserved(After(w, es))
    decreases |es|
  {
    if es != [] {
      CrashIsFinal(Next(w, es[0]), es[1..]);
      StepStaysProper(w, es[0]);
      StepConserves(w, es[0]);
      RunsConserve(Next(w, es[0]), es[1..]);
    }
  }

  lemma CrashIsFinal(w: World, es: seq<Event>)
    requires Possible(w, es)
    ensures w.phase.Crashed? ==> After(w, es) == w
  {
  }

  /** In every run from start-up that makes no call through a missing connection, each accepted
      control request other than QuitCollector sits in exactly one queue or has had its one status
      written, or tried to be written; and every status answers an accepted request. */
  lemma {:induction false} EveryRequestOnce(dialect: Dialect, store: Store, traces: nat, erase: bool, es: seq<Event>, o: Origin)
    requires Possible(Startup(dialect, store, traces, erase), es)
    requires !After(Startup(dialect, store, traces, erase), es).phase.Crashed?
    ensures var w := After(Startup(dialect, store, traces, erase), es);
            && (Owed(w, o) ==> Balance(w, o) == 1)
            && (CountAnswers(w.sent, o) > 0 ==>
                  Owed(w, o) && Pending(w, o) == 0 && CountAnswers(w.sent, o) == 1 && CountAnswers(w.lost, o) == 0)
            && (CountAnswers(w.lost, o) > 0 ==>
                  Owed(w, o) && Pending(w, o) == 0 && CountAnswers(w.lost, o) == 1 && CountAnswers(w.sent, o) == 0)
  {
    var w0 := Startup(dialect, store, traces, erase);
    forall other ensures Balance(w0, other) == 0 {
      CountInternal(w0.database, other);
    }
    assert Conserved(w0);
    RunsConserve(w0, es);
  }
}
