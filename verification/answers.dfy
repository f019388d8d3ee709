/** What the client is finally told, in every run (source/Dispatcher.cpp, source/PQDatabase.cpp). */
module Answers {
  import opened Protocol
  import opened Like
  import opened Tables
  import opened Backend
  import opened MonitorRules
  import opened Routing
  import opened Collector
  import opened Queues
  import opened Conservation
  import opened Relational
  import opened Replies
  import Delivery

  // ---- a status on its way to the client ----

  /** The status message that renders an answer: its request id, if any, its status as a kind, its reason. */
  predicate Renders(m: Message, args: Args, status: Value, why: Why) {
    && m.StatusMessage? && m.reason == Because(why)
    && m.requestId == (if RequestId in args then args[RequestId] else Text(""))
    && m.what == (if status == Okay then WhatOkay else if status == Busy then WhatBusy else WhatError)
  }

  /** The turn that handles an answer writes exactly this message, to the client of the answer; if the
      write fails it is lost. */
  lemma AnswerIsWritten(w: World, written: bool, o: Origin, args: Args, status: Value, why: Why)
    requires Enabled(w, TurnDispatcher(written)) && Says(w.dispatcher[0], Some(o), args, status, why)
    ensures var w' := Next(w, TurnDispatcher(written));
            exists m :: Renders(m, args, status, why)
                        && w' == w.(dispatcher := w.dispatcher[1..],
                                    sent := if written then w.sent + [Sent(o, m)] else w.sent,
                                    lost := if written then w.lost else w.lost + [Sent(o, m)])
  {
    hide HandleStore, HandleMonitor;
    var route := RouteOf(w.dispatcher[0]);
    assert route.ToClient? && route.sent.origin == o && Renders(route.sent.message, args, status, why);
    hide RouteOf;
  }

  /** Nothing in the queue carries the request. */
  ghost predicate Uninvolved<A>(queue: seq<Request<A>>, o: Origin) {
    forall k | 0 <= k < |queue| :: queue[k].client != Some(o)
  }

  ghost predicate AllUninvolved(devices: seq<Device>, o: Origin) {
    forall i | 0 <= i < |devices| :: Uninvolved(devices[i].queue, o)
  }

  ghost predicate OnlySays(queue: seq<DispatchRequest>, o: Origin, args: Args, status: Value, why: Why) {
    forall k | 0 <= k < |queue| && queue[k].client == Some(o) ::
      queue[k].action.QuitCollector? || Says(queue[k], Some(o), args, status, why)
  }

  ghost predicate OnlyRenders(sent: seq<Sent>, o: Origin, args: Args, status: Value, why: Why) {
    forall k | 0 <= k < |sent| && Conservation.Answers(sent[k], o) :: Renders(sent[k].message, args, status, why)
  }

  /** Whatever waits for the client or was written to it is this answer. */
  ghost predicate Settled(w: World, o: Origin, args: Args, status: Value, why: Why) {
    && o.ticket < |w.asked|
    && OnlySays(w.dispatcher, o, args, status, why) && Uninvolved(w.database, o) && AllUninvolved(w.devices, o)
    && OnlyRenders(w.sent, o, args, status, why) && OnlyRenders(w.lost, o, args, status, why)
  }

  lemma UninvolvedMore<A>(queue: seq<Request<A>>, more: seq<Request<A>>, o: Origin)
    requires Uninvolved(queue, o) && Uninvolved(more, o)
    ensures Uninvolved(queue + more, o)
  {
  }

  lemma UninvolvedRest<A>(queue: seq<Request<A>>, o: Origin)
    requires Uninvolved(queue, o) && queue != []
    ensures Uninvolved(queue[1..], o)
  {
  }

  lemma SaysMore(queue: seq<DispatchRequest>, more: seq<DispatchRequest>, o: Origin, args: Args, status: Value, why: Why)
    requires OnlySays(queue, o, args, status, why) && OnlySays(more, o, args, status, why)
    ensures OnlySays(queue + more, o, args, status, why)
  {
    hide Says;
  }

  lemma HeadSays(queue: seq<DispatchRequest>, o: Origin, args: Args, status: Value, why: Why)
    requires OnlySays(queue, o, args, status, why) && queue != []
    ensures queue[0].client == Some(o) ==> queue[0].action.QuitCollector? || Says(queue[0], Some(o), args, status, why)
  {
    hide Says;
  }

  lemma SaysRest(queue: seq<DispatchRequest>, o: Origin, args: Args, status: Value, why: Why)
    requires OnlySays(queue, o, args, status, why) && queue != []
    ensures OnlySays(queue[1..], o, args, status, why)
  {
    hide Says;
  }

  lemma RendersMore(sent: seq<Sent>, more: seq<Sent>, o: Origin, args: Args, status: Value, why: Why)
    requires OnlyRenders(sent, o, args, status, why) && OnlyRenders(more, o, args, status, why)
    ensures OnlyRenders(sent + more, o, args, status, why)
  {
    hide Renders;
  }

  // ---- every event leaves it at that ----

  /** What a handled request may add: an answer of another request, requests of others, no status. */
  lemma EffectUninvolved(d: Dialect, env: Env, s: Store, registry: map<string, DeviceState>, rq: StoreRequest, o: Origin)
    requires Backend.Answers(env, s) && StoreProper(rq) && rq.client != Some(o)
    ensures var effect := HandleStore(d, env, s, registry, rq);
            && Uninvolved(effect.requeued, o) && Uninvolved(effect.dispatched, o)
            && forall m | m in effect.written :: !Conservation.Answers(m, o)
  {
    hide HandleStore;
    EndRequestsProper(s, env.sessionOrder);
  }

  lemma Silently(dispatched: seq<DispatchRequest>, written: seq<Sent>, o: Origin, args: Args, status: Value, why: Why)
    requires Uninvolved(dispatched, o) && forall m | m in written :: !Conservation.Answers(m, o)
    ensures OnlySays(dispatched, o, args, status, why) && OnlyRenders(written, o, args, status, why)
  {
  }

  lemma Enrolled(devices: seq<Device>, loaded: seq<DeviceData>, o: Origin)
    requires AllUninvolved(devices, o)
    ensures AllUninvolved(devices + Enrol(loaded), o)
  {
    forall i | 0 <= i < |devices + Enrol(loaded)| ensures Uninvolved((devices + Enrol(loaded))[i].queue, o) {
      assert i < |devices| ==> (devices + Enrol(loaded))[i] == devices[i];
    }
  }

  lemma DatabaseTurnSettled(w: World, env: Env, o: Origin, args: Args, status: Value, why: Why)
    requires Settled(w, o, args, status, why) && Proper(w) && Enabled(w, TurnDatabase(env))
    ensures Settled(TurnedDatabase(w, env), o, args, status, why)
  {
    var rq := w.database[0];
    assert rq in w.database;
    hide HandleStore, Registry, AllUninvolved, OnlySays, OnlyRenders, Lists;
    var effect := HandleStore(w.dialect, env, w.store, Registry(w.devices), rq);
    EffectUninvolved(w.dialect, env, w.store, Registry(w.devices), rq, o);
    Silently(effect.dispatched, effect.written, o, args, status, why);
    Enrolled(w.devices, effect.loaded, o);
    hide Uninvolved, Enrol, Proper, StoreProper;
    UninvolvedRest(w.database, o);
    UninvolvedMore(w.database[1..], effect.requeued, o);
    SaysMore(w.dispatcher, effect.dispatched, o, args, status, why);
    RendersMore(w.sent, effect.written, o, args, status, why);
  }

  lemma DeviceHandsOn(link: Link, m: Monitor, rq: DeviceRequest)
    requires DeviceProper(rq)
    ensures var outcome := HandleMonitor(link, m, rq);
            && (forall next | next in outcome.requeued :: next.client == rq.client || next.client.None?)
            && (forall next | next in outcome.dispatched :: next.client == rq.client)
            && (forall next | next in outcome.stored :: next.client.None?)
  {
  }

  lemma DeviceTurnSettled(w: World, i: nat, link: Link, o: Origin, args: Args, status: Value, why: Why)
    requires Settled(w, o, args, status, why) && Proper(w) && Enabled(w, TurnDevice(i, link))
    ensures Settled(TurnedDevice(w, i, link), o, args, status, why)
  {
    var device := w.devices[i];
    var outcome := HandleMonitor(link, device.monitor, device.queue[0]);
    assert device.queue[0] in device.queue && Uninvolved(device.queue, o);
    DeviceHandsOn(link, device.monitor, device.queue[0]);
    hide HandleMonitor, HandleStore, OnlySays, OnlyRenders, DeviceProper;
    assert Uninvolved(outcome.requeued, o) && Uninvolved(outcome.stored, o) && Uninvolved(outcome.dispatched, o);
    Silently(outcome.dispatched, [], o, args, status, why);
    hide Uninvolved, Proper;
    UninvolvedRest(device.queue, o);
    UninvolvedMore(device.queue[1..], outcome.requeued, o);
    UninvolvedMore(w.database, outcome.stored, o);
    SaysMore(w.dispatcher, outcome.dispatched, o, args, status, why);
  }

  lemma RoutedClient(rq: DispatchRequest)
    ensures var route := RouteOf(rq);
            && (route.ToStore? ==> route.store.client == rq.client && !rq.action.SendStatus? && !rq.action.QuitCollector?)
            && (route.ToDevice? ==> route.device.client == rq.client && !rq.action.SendStatus? && !rq.action.QuitCollector?)
            && (route.Back? ==> route.again.client.None?)
            && (route.ToClient? ==> rq.action.SendStatus? && rq.client == Some(route.sent.origin))
            && (rq.action.QuitCollector? ==> route.Back?)
            && Routing.Unknown(rq.client).client == rq.client
  {
  }

  lemma RoutedAnswer(rq: DispatchRequest, o: Origin, args: Args, status: Value, why: Why)
    requires Says(rq, Some(o), args, status, why)
    ensures rq.action.SendStatus? && RouteOf(rq).ToClient? && RouteOf(rq).sent.origin == o && Renders(RouteOf(rq).sent.message, args, status, why)
  {
  }

  lemma DispatcherTurnSettled(w: World, written: bool, o: Origin, args: Args, status: Value, why: Why)
    requires Settled(w, o, args, status, why) && Enabled(w, TurnDispatcher(written))
    ensures Settled(TurnedDispatcher(w, written), o, args, status, why)
  {
    hide RouteOf, Says, Renders, Routing.Unknown, AllUninvolved, Uninvolved, OnlySays, OnlyRenders, TurnedDispatcher, HandleStore, HandleMonitor;
    var rq := w.dispatcher[0];
    HeadSays(w.dispatcher, o, args, status, why);
    hide Settled;
    RouteSettled(rq, o, args, status, why);
    SaysRest(w.dispatcher, o, args, status, why);
    var route := RouteOf(rq);
    if route.ToDevice? {
      RoutedToDevice(w, written, route.hash, route.device, o, args, status, why);
    } else if route.ToClient? {
      RoutedToClient(w, written, route.sent, o, args, status, why);
    } else {
      RoutedInside(w, written, o, args, status, why);
    }
  }

  lemma RoutedToClient(w: World, written: bool, message: Sent, o: Origin, args: Args, status: Value, why: Why)
    requires Settled(w, o, args, status, why) && Enabled(w, TurnDispatcher(written))
    requires RouteOf(w.dispatcher[0]) == ToClient(message) && OnlyRenders([message], o, args, status, why)
    requires OnlySays(w.dispatcher[1..], o, args, status, why)
    ensures Settled(TurnedDispatcher(w, written), o, args, status, why)
  {
    hide RouteOf, AllUninvolved, Uninvolved, OnlySays, OnlyRenders, HandleStore, HandleMonitor;
    RendersMore(w.sent, [message], o, args, status, why);
    RendersMore(w.lost, [message], o, args, status, why);
  }

  lemma RoutedInside(w: World, written: bool, o: Origin, args: Args, status: Value, why: Why)
    requires Settled(w, o, args, status, why) && Enabled(w, TurnDispatcher(written))
    requires var route := RouteOf(w.dispatcher[0]);
             && !route.ToDevice? && !route.ToClient?
             && (route.ToStore? ==> Uninvolved([route.store], o))
             && (route.Back? ==> OnlySays([route.again], o, args, status, why))
    requires OnlySays(w.dispatcher[1..], o, args, status, why)
    ensures Settled(TurnedDispatcher(w, written), o, args, status, why)
  {
    hide RouteOf, AllUninvolved, Uninvolved, OnlySays, OnlyRenders, HandleStore, HandleMonitor;
    var route := RouteOf(w.dispatcher[0]);
    if route.ToStore? {
      UninvolvedMore(w.database, [route.store], o);
    } else if route.Back? {
      SaysMore(w.dispatcher[1..], [route.again], o, args, status, why);
    }
  }

  lemma RoutedToDevice(w: World, written: bool, hash: string, next: DeviceRequest, o: Origin, args: Args, status: Value, why: Why)
    requires Settled(w, o, args, status, why) && Enabled(w, TurnDispatcher(written))
    requires RouteOf(w.dispatcher[0]) == ToDevice(hash, next) && Uninvolved([next], o)
    requires OnlySays([Routing.Unknown(w.dispatcher[0].client)], o, args, status, why)
    requires OnlySays(w.dispatcher[1..], o, args, status, why)
    ensures Settled(TurnedDispatcher(w, written), o, args, status, why)
  {
    hide RouteOf, Says, Renders, Routing.Unknown, AllUninvolved, Uninvolved, OnlySays, OnlyRenders, HandleStore, HandleMonitor;
    match Find(w.devices, hash)
    case None => SaysMore(w.dispatcher[1..], [Routing.Unknown(w.dispatcher[0].client)], o, args, status, why);
    case Some(i) => Delivered(w.devices, i, next, o);
  }

  lemma RouteSettled(rq: DispatchRequest, o: Origin, args: Args, status: Value, why: Why)
    requires rq.client == Some(o) ==> rq.action.QuitCollector? || Says(rq, Some(o), args, status, why)
    ensures RouteOf(rq).ToStore? ==> Uninvolved([RouteOf(rq).store], o)
    ensures RouteOf(rq).ToDevice? ==> Uninvolved([RouteOf(rq).device], o)
    ensures RouteOf(rq).ToDevice? ==> OnlySays([Routing.Unknown(rq.client)], o, args, status, why)
    ensures RouteOf(rq).Back? ==> OnlySays([RouteOf(rq).again], o, args, status, why)
    ensures RouteOf(rq).ToClient? ==> OnlyRenders([RouteOf(rq).sent], o, args, status, why)
  {
    hide RouteOf, Says, Renders, Routing.Unknown;
    RoutedClient(rq);
    match RouteOf(rq)
    case ToStore(_) => NotAnAnswer(rq, o, args, status, why);
    case ToDevice(_, _) => NotAnAnswer(rq, o, args, status, why);
    case ToClient(_) =>
      if rq.client == Some(o) {
        RoutedAnswer(rq, o, args, status, why);
      }
    case _ =>
  }

  lemma NotAnAnswer(rq: DispatchRequest, o: Origin, args: Args, status: Value, why: Why)
    requires !rq.action.SendStatus?
    ensures !Says(rq, Some(o), args, status, why)
  {
  }

  lemma Delivered(devices: seq<Device>, i: nat, rq: DeviceRequest, o: Origin)
    requires AllUninvolved(devices, o) && i < |devices| && Uninvolved([rq], o)
    ensures AllUninvolved(Deliver(devices, i, rq), o)
  {
    assert Uninvolved(devices[i].queue, o);
    UninvolvedMore(devices[i].queue, [rq], o);
    hide Uninvolved;
  }

  lemma ControlSettled(w: World, client: nat, rq: ControlRequest, written: bool, o: Origin, args: Args, status: Value, why: Why)
    requires Settled(w, o, args, status, why)
    ensures Settled(TakeControl(w, client, rq, written), o, args, status, why)
  {
    hide Says, Renders, AllUninvolved, Uninvolved, OnlySays, OnlyRenders, Accept;
    var origin := Origin(client, |w.asked|);
    OfAnother(origin, rq, written, o, args, status, why);
    SaysMore(w.dispatcher, [Accept(origin, rq, written)], o, args, status, why);
    RendersMore(w.sent, [Sent(origin, SetSessionMessage)], o, args, status, why);
  }

  lemma AcceptedFor(origin: Origin, rq: ControlRequest, written: bool)
    ensures Accept(origin, rq, written).client == Some(origin)
  {
  }

  lemma OfAnother(origin: Origin, rq: ControlRequest, written: bool, o: Origin, args: Args, status: Value, why: Why)
    requires origin != o
    ensures OnlySays([Accept(origin, rq, written)], o, args, status, why)
    ensures OnlyRenders([Sent(origin, SetSessionMessage)], o, args, status, why)
  {
    hide Accept, Says, Renders;
    AcceptedFor(origin, rq, written);
  }

  lemma ReportUninvolved(report: Report, o: Origin)
    ensures Uninvolved([RequestOf(report)], o)
  {
  }

  lemma ArrivalSettled(w: World, i: nat, report: Report, o: Origin, args: Args, status: Value, why: Why)
    requires Settled(w, o, args, status, why) && i < |w.devices|
    ensures Settled(TakeReport(w, i, report), o, args, status, why)
  {
    hide Says, Renders, AllUninvolved, Uninvolved, OnlySays, OnlyRenders, RequestOf;
    ReportUninvolved(report, o);
    Delivered(w.devices, i, RequestOf(report), o);
  }

  lemma DropSettled(w: World, i: nat, o: Origin, args: Args, status: Value, why: Why)
    requires Settled(w, o, args, status, why) && Enabled(w, Drop(i))
    ensures Settled(Next(w, Drop(i)), o, args, status, why)
  {
    hide Says, Renders, AllUninvolved, Uninvolved, OnlySays, OnlyRenders, Next, Enabled;
    DroppedUninvolved(w, i, o);
  }

  lemma TickSettled(w: World, phase: Phase, o: Origin, args: Args, status: Value, why: Why)
    requires Settled(w, o, args, status, why)
    ensures Settled(w.(phase := phase), o, args, status, why)
  {
    hide AllUninvolved, Uninvolved, OnlySays, OnlyRenders;
  }

  lemma InputSettled(w: World, e: Event, o: Origin, args: Args, status: Value, why: Why)
    requires Settled(w, o, args, status, why) && Enabled(w, e) && !IsTurn(e)
    ensures Settled(Next(w, e), o, args, status, why)
  {
    hide Settled, HandleStore, HandleMonitor, RequestOf, Accept, Dropped, RouteOf;
    match e
    case Control(client, rq, written) => ControlSettled(w, client, rq, written, o, args, status, why);
    case Incoming(i, report) => ArrivalSettled(w, i, report, o, args, status, why);
    case Drop(i) => DropSettled(w, i, o, args, status, why);
    case LaneTick(_, _, _) => TickSettled(w, Next(w, e).phase, o, args, status, why);
  }

  lemma DroppedUninvolved(w: World, i: nat, o: Origin)
    requires AllUninvolved(w.devices, o) && Uninvolved(w.database, o) && Enabled(w, Drop(i))
    ensures var w' := Next(w, Drop(i));
            && AllUninvolved(w'.devices, o) && Uninvolved(w'.database, o)
            && w'.dispatcher == w.dispatcher && w'.sent == w.sent && w'.lost == w.lost && w'.asked == w.asked
  {
    hide HandleStore, HandleMonitor;
    assert Uninvolved(w.devices[i].queue, o);
    assert w.devices[i].queue + [] == w.devices[i].queue;
  }

  lemma StepSettled(w: World, e: Event, o: Origin, args: Args, status: Value, why: Why)
    requires Settled(w, o, args, status, why) && Proper(w) && Enabled(w, e)
    ensures Settled(Next(w, e), o, args, status, why)
  {
    hide Settled, Proper;
    match e
    case TurnDatabase(env) => DatabaseTurnSettled(w, env, o, args, status, why);
    case TurnDevice(i, link) => DeviceTurnSettled(w, i, link, o, args, status, why);
    case TurnDispatcher(written) => DispatcherTurnSettled(w, written, o, args, status, why);
    case _ => InputSettled(w, e, o, args, status, why);
  }

  /** Once an answer is all there is for a request, no run tells its client anything else. */
  lemma {:induction false} RunsStaySettled(w: World, es: seq<Event>, o: Origin, args: Args, status: Value, why: Why)
    requires Settled(w, o, args, status, why) && Proper(w) && Possible(w, es)
    ensures Settled(After(w, es), o, args, status, why)
    decreases |es|
  {
    hide Settled, Proper, Next, Enabled;
    if es != [] {
      StepSettled(w, es[0], o, args, status, why);
      StepStaysProper(w, es[0]);
      RunsStaySettled(Next(w, es[0]), es[1..], o, args, status, why);
    }
  }

  // ---- the answer of a handler settles a request ----

  lemma {:induction false} Uncounted<A>(queue: seq<Request<A>>, o: Origin)
    requires Count(queue, o) == 0
    ensures Uninvolved(queue, o)
  {
    if queue != [] {
      Uncounted(queue[1..], o);
    }
  }

  lemma {:induction false} UncountedDispatch(queue: seq<DispatchRequest>, o: Origin)
    requires CountDispatch(queue, o) == 0
    ensures forall rq | rq in queue && rq.client == Some(o) :: rq.action.QuitCollector?
  {
    if queue != [] {
      UncountedDispatch(queue[1..], o);
    }
  }

  lemma {:induction false} UncountedDevices(devices: seq<Device>, o: Origin)
    requires CountDevices(devices, o) == 0
    ensures AllUninvolved(devices, o)
  {
    if devices != [] {
      Uncounted(devices[0].queue, o);
      UncountedDevices(devices[1..], o);
      assert forall i | 1 <= i < |devices| :: devices[i] == devices[1..][i - 1];
    }
  }

  /** A waiting database request is all there is of its control request. */
  lemma Alone(w: World, o: Origin)
    requires Conserved(w) && w.database != [] && w.database[0].client == Some(o)
    ensures o.ticket < |w.asked| && Uninvolved(w.database[1..], o) && AllUninvolved(w.devices, o)
    ensures forall rq | rq in w.dispatcher && rq.client == Some(o) :: rq.action.QuitCollector?
    ensures forall m | m in w.sent || m in w.lost :: !Conservation.Answers(m, o)
  {
    assert Count(w.database, o) == 1 + Count(w.database[1..], o);
    assert Balance(w, o) <= 1;
    Uncounted(w.database[1..], o);
    UncountedDispatch(w.dispatcher, o);
    UncountedDevices(w.devices, o);
    Delivery.NotAnswered(w.sent, o);
    Delivery.NotAnswered(w.lost, o);
    hide Count, CountDispatch, CountDevices, CountAnswers, AllUninvolved, Uninvolved;
  }

  /** In a state where every request is owed one answer, handling a client's database request leaves the
      answer of its handler as all there is for it. */
  lemma HandlingSettles(w: World, env: Env, o: Origin, status: Value, why: Why)
    requires Proper(w) && Conserved(w) && Enabled(w, TurnDatabase(env)) && w.database[0].client == Some(o)
    requires var effect := HandleStore(w.dialect, env, w.store, Registry(w.devices), w.database[0]);
             |effect.dispatched| == 1 && Says(effect.dispatched[0], Some(o), w.database[0].args, status, why)
    ensures Settled(TurnedDatabase(w, env), o, w.database[0].args, status, why)
  {
    hide HandleStore, Says, Renders, Balance, Conserved, AllUninvolved, Uninvolved, OnlySays, OnlyRenders, Registry;
    var rq := w.database[0];
    var effect := HandleStore(w.dialect, env, w.store, Registry(w.devices), rq);
    assert rq in w.database;
    Alone(w, o);
    EffectSettles(w.dialect, env, w.store, Registry(w.devices), rq, o, status, why);
    Enrolled(w.devices, effect.loaded, o);
    QuietFor(w.dispatcher, o, rq.args, status, why);
    NothingSent(w.sent, o, rq.args, status, why);
    NothingSent(w.lost, o, rq.args, status, why);
    hide Proper, Enrol, StoreProper;
    UninvolvedMore(w.database[1..], effect.requeued, o);
    SaysMore(w.dispatcher, effect.dispatched, o, rq.args, status, why);
    RendersMore(w.sent, effect.written, o, rq.args, status, why);
  }

  lemma EffectSettles(d: Dialect, env: Env, s: Store, registry: map<string, DeviceState>, rq: StoreRequest, o: Origin, status: Value, why: Why)
    requires Backend.Answers(env, s) && StoreProper(rq) && rq.client == Some(o)
    requires var effect := HandleStore(d, env, s, registry, rq);
             |effect.dispatched| == 1 && Says(effect.dispatched[0], Some(o), rq.args, status, why)
    ensures Uninvolved(HandleStore(d, env, s, registry, rq).requeued, o)
    ensures OnlySays(HandleStore(d, env, s, registry, rq).dispatched, o, rq.args, status, why)
    ensures OnlyRenders(HandleStore(d, env, s, registry, rq).written, o, rq.args, status, why)
  {
    hide HandleStore, Says, Renders, Uninvolved, OnlySays, OnlyRenders;
    var effect := HandleStore(d, env, s, registry, rq);
    RequeuesInternal(d, env, s, registry, rq, o);
    OneAnswer(effect.dispatched, o, rq.args, status, why);
    WritesNoStatus(d, env, s, registry, rq, o);
    NothingSent(effect.written, o, rq.args, status, why);
  }

  lemma RequeuesInternal(d: Dialect, env: Env, s: Store, registry: map<string, DeviceState>, rq: StoreRequest, o: Origin)
    requires Backend.Answers(env, s) && WellFormed(rq)
    ensures Uninvolved(HandleStore(d, env, s, registry, rq).requeued, o)
  {
    hide HandleStore, EndRequests;
    EndRequestsProper(s, env.sessionOrder);
  }

  lemma WritesNoStatus(d: Dialect, env: Env, s: Store, registry: map<string, DeviceState>, rq: StoreRequest, o: Origin)
    requires Backend.Answers(env, s) && WellFormed(rq)
    ensures forall m | m in HandleStore(d, env, s, registry, rq).written :: !Conservation.Answers(m, o)
  {
    hide HandleStore;
  }

  lemma OneAnswer(dispatched: seq<DispatchRequest>, o: Origin, args: Args, status: Value, why: Why)
    requires |dispatched| == 1 && Says(dispatched[0], Some(o), args, status, why)
    ensures OnlySays(dispatched, o, args, status, why)
  {
    hide Says;
  }

  lemma QuietFor(dispatcher: seq<DispatchRequest>, o: Origin, args: Args, status: Value, why: Why)
    requires forall rq | rq in dispatcher && rq.client == Some(o) :: rq.action.QuitCollector?
    ensures OnlySays(dispatcher, o, args, status, why)
  {
    hide Says;
    assert forall k | 0 <= k < |dispatcher| :: dispatcher[k] in dispatcher;
  }

  lemma NothingSent(sent: seq<Sent>, o: Origin, args: Args, status: Value, why: Why)
    requires forall m | m in sent :: !Conservation.Answers(m, o)
    ensures OnlyRenders(sent, o, args, status, why)
  {
    hide Renders;
    assert forall k | 0 <= k < |sent| :: sent[k] in sent;
  }

  /** ... so that is what every run tells the client: no other status ever reaches it. */
  lemma AnswerIsTold(w: World, env: Env, es: seq<Event>, o: Origin, status: Value, why: Why)
    requires Proper(w) && Conserved(w) && Enabled(w, TurnDatabase(env)) && w.database[0].client == Some(o)
    requires var effect := HandleStore(w.dialect, env, w.store, Registry(w.devices), w.database[0]);
             |effect.dispatched| == 1 && Says(effect.dispatched[0], Some(o), w.database[0].args, status, why)
    requires Possible(TurnedDatabase(w, env), es)
    ensures forall m | m in After(TurnedDatabase(w, env), es).sent && Conservation.Answers(m, o) ::
              Renders(m.message, w.database[0].args, status, why)
  {
    hide HandleStore, Next, Proper, Conserved, Says, Renders, Settled, TurnedDatabase, After, Possible, Registry, Lists;
    var w1, args := TurnedDatabase(w, env), w.database[0].args;
    HandlingSettles(w, env, o, status, why);
    StepStaysProper(w, TurnDatabase(env));
    DatabaseTurnIsNext(w, env);
    RunsStaySettled(w1, es, o, args, status, why);
    SentIsRendered(After(w1, es), o, args, status, why);
  }

  lemma DatabaseTurnIsNext(w: World, env: Env)
    requires Enabled(w, TurnDatabase(env))
    ensures Next(w, TurnDatabase(env)) == TurnedDatabase(w, env)
  {
  }

  lemma SentIsRendered(w: World, o: Origin, args: Args, status: Value, why: Why)
    requires Settled(w, o, args, status, why)
    ensures forall m | m in w.sent && Conservation.Answers(m, o) :: Renders(m.message, args, status, why)
  {
    hide Renders, Conservation.Answers;
    forall m | m in w.sent && Conservation.Answers(m, o) ensures Renders(m.message, args, status, why) {
      var k :| 0 <= k < |w.sent| && w.sent[k] == m;
    }
  }

  // ---- the truth, as the client reads it ----

  /** A status message that says yes or no, under the request id of the request. */
  predicate Reads(m: Message, args: Args, yes: bool) {
    && m.StatusMessage? && m.what == (if yes then WhatOkay else WhatError)
    && m.requestId == if RequestId in args then args[RequestId] else Text("")
  }

  /** RemoveDevice: whenever in a run its client reads a status, it is OK if and only if such a device
      existed when the request was handled, and the check and the delete succeeded - and then no such
      device was left - and an error otherwise, which left the tables as they were. */
  lemma RemoveDeviceIsTold(w: World, env: Env, es: seq<Event>, o: Origin)
    requires Proper(w) && Conserved(w) && Enabled(w, TurnDatabase(env)) && w.database[0].client == Some(o)
    requires w.database[0].action.DeleteDevice? && Exact(w.dialect, w.database[0].action.hash)
    requires Possible(TurnedDatabase(w, env), es)
    ensures var hash, s' := w.database[0].action.hash, TurnedDatabase(w, env).store;
            var yes := env.select && w.store.created && HasDevice(w.store, hash) && env.delete;
            && (if yes then !HasDevice(s', hash) else s' == w.store)
            && forall m | m in After(TurnedDatabase(w, env), es).sent && Conservation.Answers(m, o) ::
                 Reads(m.message, w.database[0].args, yes)
  {
    hide HandleStore, Exact, HasDevice, After, Possible, Proper, Conserved, Reads, Registry, Lists, Next, Says;
    var rq, registry := w.database[0], Registry(w.devices);
    RemoveDeviceTellsTheTruth(w.dialect, env, w.store, registry, rq);
    var why := SaysWhy(w.dialect, env, w.store, registry, rq, o);
    ReadsAs(w, env, es, o, why);
  }

  /** RemoveSession likewise. */
  lemma RemoveSessionIsTold(w: World, env: Env, es: seq<Event>, o: Origin)
    requires Proper(w) && Conserved(w) && Enabled(w, TurnDatabase(env)) && w.database[0].client == Some(o)
    requires w.database[0].action.RemSession? && Exact(w.dialect, w.database[0].action.hash)
    requires Possible(TurnedDatabase(w, env), es)
    ensures var hash, s' := w.database[0].action.hash, TurnedDatabase(w, env).store;
            var yes := env.select && w.store.created && HasSession(w.store, hash) && env.delete;
            && (if yes then !HasSession(s', hash) else s' == w.store)
            && forall m | m in After(TurnedDatabase(w, env), es).sent && Conservation.Answers(m, o) ::
                 Reads(m.message, w.database[0].args, yes)
  {
    hide HandleStore, Exact, HasSession, After, Possible, Proper, Conserved, Reads, Registry, Lists, Next, Says;
    var rq, registry := w.database[0], Registry(w.devices);
    RemSessionTellsTheTruth(w.dialect, env, w.store, registry, rq);
    var why := SaysWhy(w.dialect, env, w.store, registry, rq, o);
    ReadsAs(w, env, es, o, why);
  }

  /** AddDevice: it reads OK if and only if the check and the insert succeeded, the device was new or the
      request enforced, and - in PostgreSQL - an enforced removal succeeded. Unless SQLite failed to remove
      an old row, the one row with the hash is the requested device then. */
  lemma AddDeviceIsTold(w: World, env: Env, es: seq<Event>, o: Origin)
    requires Proper(w) && Conserved(w) && Sound(w.dialect, w.store)
    requires Enabled(w, TurnDatabase(env)) && w.database[0].client == Some(o)
    requires w.database[0].action.InsertDevice? && Exact(w.dialect, w.database[0].action.device.hash)
    requires Possible(TurnedDatabase(w, env), es)
    ensures var device, args := w.database[0].action.device, w.database[0].args;
            var known := HasDevice(w.store, device.hash);
            var yes := && env.select && w.store.created && env.insert && (Forced in args || !known)
                       && (Forced in args && w.dialect.PostgreSQL? ==> env.delete);
            && (yes && (Forced in args && known ==> env.delete) ==> OnlyRow(TurnedDatabase(w, env).store, device))
            && forall m | m in After(TurnedDatabase(w, env), es).sent && Conservation.Answers(m, o) ::
                 Reads(m.message, args, yes)
  {
    hide HandleStore, Exact, HasDevice, OnlyRow, Sound, After, Possible, Conserved, Reads, Registry, Lists, Next, Says;
    var rq, registry := w.database[0], Registry(w.devices);
    assert rq in w.database;
    AddDeviceOkayIff(w.dialect, env, w.store, registry, rq);
    var why := SaysWhy(w.dialect, env, w.store, registry, rq, o);
    ReadsAs(w, env, es, o, why);
    if SaysOkay(HandleStore(w.dialect, env, w.store, registry, rq)) {
      AddDeviceTellsTheTruthIff(w.dialect, env, w.store, registry, rq);
    }
  }

  lemma AddDeviceOkayIff(d: Dialect, env: Env, s: Store, registry: map<string, DeviceState>, rq: StoreRequest)
    requires Backend.Answers(env, s) && rq.action.InsertDevice? && Exact(d, rq.action.device.hash)
    requires Forced in rq.args ==> rq.args[Forced] == True
    ensures SaysOkay(HandleStore(d, env, s, registry, rq)) <==>
            && env.select && s.created && env.insert && (Forced in rq.args || !HasDevice(s, rq.action.device.hash))
            && (Forced in rq.args && d.PostgreSQL? ==> env.delete)
  {
    var hash := rq.action.device.hash;
    assert forall id | id in s.devices :: Matches(d, hash, s.devices[id].hash) <==> s.devices[id].hash == hash;
    if HasDevice(s, hash) {
      var id :| id in s.devices && s.devices[id].hash == hash;
      assert id in DeviceIds(d, s, hash);
    }
    hide DeleteDevices, InsertDeviceRow, Lists, Exact;
  }

  /** The three answers say Okay or Error and give a reason. */
  lemma SaysWhy(d: Dialect, env: Env, s: Store, registry: map<string, DeviceState>, rq: StoreRequest, o: Origin) returns (why: Why)
    requires Backend.Answers(env, s) && rq.client == Some(o)
    requires rq.action.DeleteDevice? || rq.action.RemSession? || rq.action.InsertDevice?
    ensures var effect := HandleStore(d, env, s, registry, rq);
            |effect.dispatched| == 1
            && Says(effect.dispatched[0], Some(o), rq.args, if SaysOkay(effect) then Okay else Error, why)
  {
    hide DeleteDevices, DeleteSession, InsertDeviceRow, DeviceIds, SessionIds, Lists;
    why := HandleStore(d, env, s, registry, rq).dispatched[0].args[Reason].why;
  }

  lemma ReadsAs(w: World, env: Env, es: seq<Event>, o: Origin, why: Why)
    requires Proper(w) && Conserved(w) && Enabled(w, TurnDatabase(env)) && w.database[0].client == Some(o)
    requires !StoreSilent(w.database[0].action)
    requires var effect := HandleStore(w.dialect, env, w.store, Registry(w.devices), w.database[0]);
             Says(effect.dispatched[0], Some(o), w.database[0].args, if SaysOkay(effect) then Okay else Error, why)
    requires Possible(TurnedDatabase(w, env), es)
    ensures forall m | m in After(TurnedDatabase(w, env), es).sent && Conservation.Answers(m, o) ::
              Reads(m.message, w.database[0].args, SaysOkay(HandleStore(w.dialect, env, w.store, Registry(w.devices), w.database[0])))
  {
    hide HandleStore, After, Possible, Proper, Conserved, Says, SaysOkay, Registry, Lists, Next, TurnedDatabase, Renders, Reads;
    var yes := SaysOkay(HandleStore(w.dialect, env, w.store, Registry(w.devices), w.database[0]));
    AnswerIsTold(w, env, es, o, if yes then Okay else Error, why);
    forall m | m in After(TurnedDatabase(w, env), es).sent && Conservation.Answers(m, o)
      ensures Reads(m.message, w.database[0].args, yes)
    {
      RenderedReads(m.message, w.database[0].args, yes, why);
    }
  }

  lemma RenderedReads(m: Message, args: Args, yes: bool, why: Why)
    requires Renders(m, args, if yes then Okay else Error, why)
    ensures Reads(m, args, yes)
  {
  }
}
