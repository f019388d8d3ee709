/** What every queued request looks like, in every run. */
module Queues {
  import opened Protocol
  import opened Like
  import opened Tables
  import opened Backend
  import opened MonitorRules
  import opened Routing
  import opened Collector

  predicate StoreProper(rq: StoreRequest) {
    && WellFormed(rq)
    && (StoreSilent(rq.action) ==> rq.client.None?)
    && (Forced in rq.args ==> rq.args[Forced] == True)
  }

  predicate DeviceProper(rq: DeviceRequest) {
    DeviceSilent(rq.action) ==> rq.client.None?
  }

  predicate DispatchProper(rq: DispatchRequest) {
    && (rq.action.Quit? ==> rq.client.None?)
    && (rq.action.SendStatus? ==> Status in rq.args)
    && (Forced in rq.args ==> rq.args[Forced] == True)
  }

  /** Silent requests have no client, a status always says which, the database handlers find the
      arguments they insist on, and Forced is absent or True. */
  ghost predicate Proper(w: World) {
    && (forall rq | rq in w.dispatcher :: DispatchProper(rq))
    && (forall rq | rq in w.database :: StoreProper(rq))
    && (forall i, rq | 0 <= i < |w.devices| && rq in w.devices[i].queue :: DeviceProper(rq))
  }

  lemma {:induction false} EndRequestsProper(s: Store, order: seq<nat>)
    requires forall i | 0 <= i < |order| :: order[i] in s.sessions
    ensures forall rq | rq in EndRequests(s, order) ::
              rq.action.EndSession? && rq.client.None? && StoreProper(rq)
  {
    if order != [] {
      EndRequestsProper(s, order[..|order| - 1]);
    }
  }

  lemma EffectProper(d: Dialect, env: Env, s: Store, registry: map<string, DeviceState>, rq: StoreRequest)
    requires Backend.Answers(env, s) && StoreProper(rq)
    ensures var effect := HandleStore(d, env, s, registry, rq);
            && (forall next | next in effect.requeued :: StoreProper(next))
            && (forall next | next in effect.dispatched :: DispatchProper(next))
  {
    hide HandleStore;
    EndRequestsProper(s, env.sessionOrder);
  }

  lemma OutcomeProper(link: Link, m: Monitor, rq: DeviceRequest)
    requires DeviceProper(rq)
    ensures var outcome := HandleMonitor(link, m, rq);
            && (forall next | next in outcome.requeued :: DeviceProper(next))
            && (forall next | next in outcome.dispatched :: DispatchProper(next))
            && (forall next | next in outcome.stored :: StoreProper(next))
  {
  }

  lemma AppliedProper(w: World, i: nat, outcome: Outcome, queue: seq<DeviceRequest>)
    requires Proper(w) && i < |w.devices|
    requires forall rq | rq in queue + outcome.requeued :: DeviceProper(rq)
    requires forall rq | rq in outcome.dispatched :: DispatchProper(rq)
    requires forall rq | rq in outcome.stored :: StoreProper(rq)
    ensures Proper(Applied(w, i, outcome, queue))
  {
  }

  lemma DatabaseTurnProper(w: World, env: Env)
    requires Proper(w) && Enabled(w, TurnDatabase(env))
    ensures Proper(TurnedDatabase(w, env))
  {
    assert w.database[0] in w.database;
    EffectProper(w.dialect, env, w.store, Registry(w.devices), w.database[0]);
    hide HandleStore;
    var w' := TurnedDatabase(w, env);
    forall i, rq | 0 <= i < |w'.devices| && rq in w'.devices[i].queue ensures DeviceProper(rq) {
      assert i < |w.devices| ==> w'.devices[i] == w.devices[i];
    }
  }

  lemma RouteProper(rq: DispatchRequest)
    requires DispatchProper(rq)
    ensures match RouteOf(rq)
            case ToStore(next) => StoreProper(next)
            case ToDevice(_, next) => DeviceProper(next)
            case Back(next) => DispatchProper(next)
            case _ => true
    ensures DispatchProper(Routing.Unknown(rq.client))
  {
  }

  lemma DispatcherTurnProper(w: World, written: bool)
    requires Proper(w) && Enabled(w, TurnDispatcher(written))
    ensures Proper(TurnedDispatcher(w, written))
  {
    assert w.dispatcher[0] in w.dispatcher;
    RouteProper(w.dispatcher[0]);
    hide RouteOf, DispatchProper, DeviceProper, StoreProper, Routing.Unknown;
  }

  lemma StepStaysProper(w: World, e: Event)
    requires Proper(w) && Enabled(w, e)
    ensures Proper(Next(w, e))
  {
    hide HandleStore, HandleMonitor, RouteOf, DispatchProper, DeviceProper, StoreProper, WellFormed;
    match e
    case TurnDatabase(env) => DatabaseTurnProper(w, env);
    case TurnDispatcher(written) => DispatcherTurnProper(w, written);
    case TurnDevice(i, link) =>
      var device := w.devices[i];
      assert device.queue[0] in device.queue;
      OutcomeProper(link, device.monitor, device.queue[0]);
      AppliedProper(w, i, HandleMonitor(link, device.monitor, device.queue[0]), device.queue[1..]);
    case Drop(i) =>
      DroppedProper(w.devices[i].monitor);
      AppliedProper(w, i, Dropped(w.devices[i].monitor), w.devices[i].queue);
    case Control(client, rq, written) =>
      AcceptProper(Origin(client, |w.asked|), rq, written);
    case Incoming(i, report) =>
      ReportProper(report);
    case LaneTick(_, _, _) =>
  }

  lemma DroppedProper(m: Monitor)
    ensures forall rq | rq in EndOf(m) :: StoreProper(rq)
  {
  }

  lemma AcceptProper(o: Origin, rq: ControlRequest, written: bool)
    ensures DispatchProper(Accept(o, rq, written))
  {
  }

  lemma ReportProper(report: Report)
    ensures DeviceProper(RequestOf(report))
  {
  }

  lemma {:induction false} RunsStayProper(w: World, es: seq<Event>)
    requires Proper(w) && Possible(w, es)
    ensures Proper(After(w, es))
    decreases |es|
  {
    if es != [] {
      StepStaysProper(w, es[0]);
      RunsStayProper(Next(w, es[0]), es[1..]);
    }
  }
}
