/** What one control client is sent, in which order, and under which request id. */
module Delivery {
  import opened Protocol
  import opened Like
  import opened Tables
  import opened Backend
  import opened MonitorRules
  import opened Routing
  import opened Collector
  import opened Queues
  import opened Conservation
  import opened ControlApp

  // ---- request ids ----

  type Asked = seq<(nat, ControlRequest)>

  predicate Accepted(asked: Asked, o: Origin) {
    o.ticket < |asked| && asked[o.ticket].0 == o.client
  }

  /** The id is that of the accepted request; only an answer about an unknown device has none. */
  predicate Labelled(asked: Asked, o: Origin, args: Args) {
    && Accepted(asked, o)
    && if RequestId in args then args[RequestId] == Text(asked[o.ticket].1.id)
       else !asked[o.ticket].1.command.AskSession?
  }

  predicate Tagged<A>(asked: Asked, rq: Request<A>) {
    rq.client.Some? ==> Labelled(asked, rq.client.value, rq.args)
  }

  /** Only the answer to a session request enters the dispatcher as a status. */
  predicate DispatchTagged(asked: Asked, rq: DispatchRequest) {
    && Tagged(asked, rq)
    && (rq.client.Some? && !rq.action.SendStatus? ==> !asked[rq.client.value.ticket].1.command.AskSession?)
  }

  predicate SentTagged(asked: Asked, sent: Sent) {
    && Accepted(asked, sent.origin)
    && (sent.message.StatusMessage? ==>
          || sent.message.requestId == Text(asked[sent.origin.ticket].1.id)
          || (sent.message.requestId == Text("") && !asked[sent.origin.ticket].1.command.AskSession?))
  }

  ghost predicate QueueTagged(asked: Asked, queue: seq<DeviceRequest>) {
    forall rq | rq in queue :: Tagged(asked, rq)
  }

  ghost predicate AllTagged(w: World) {
    && (forall rq | rq in w.dispatcher :: DispatchTagged(w.asked, rq))
    && (forall rq | rq in w.database :: Tagged(w.asked, rq))
    && (forall i | 0 <= i < |w.devices| :: QueueTagged(w.asked, w.devices[i].queue))
    && (forall m | m in w.sent :: SentTagged(w.asked, m))
  }

  lemma DatabaseTurnTags(w: World, env: Env)
    requires AllTagged(w) && Proper(w) && Enabled(w, TurnDatabase(env))
    ensures AllTagged(TurnedDatabase(w, env))
  {
    hide HandleStore;
    var w', rq := TurnedDatabase(w, env), w.database[0];
    assert rq in w.database;
    EndRequestsProper(w.store, env.sessionOrder);
    var effect := HandleStore(w.dialect, env, w.store, Registry(w.devices), rq);
    assert forall next | next in effect.requeued :: next.client.None?;
    forall next | next in effect.dispatched ensures DispatchTagged(w.asked, next) {
      assert AnswersOnce(effect, rq) && next == effect.dispatched[0];
    }
    forall i | 0 <= i < |w'.devices| ensures QueueTagged(w.asked, w'.devices[i].queue) {
      assert i < |w.devices| ==> w'.devices[i] == w.devices[i];
    }
    hide Labelled, AnswersOnce;
  }

  lemma OutcomeTags(asked: Asked, link: Link, m: Monitor, rq: DeviceRequest)
    requires Tagged(asked, rq) && DeviceProper(rq) && !HandleMonitor(link, m, rq).fault
    ensures var outcome := HandleMonitor(link, m, rq);
            && (forall next | next in outcome.requeued :: Tagged(asked, next))
            && (forall next | next in outcome.dispatched :: DispatchTagged(asked, next))
            && (forall next | next in outcome.stored :: Tagged(asked, next))
  {
    hide HandleMonitor;
  }

  lemma AppliedTags(w: World, i: nat, outcome: Outcome, queue: seq<DeviceRequest>)
    requires AllTagged(w) && i < |w.devices|
    requires forall rq | rq in queue :: rq in w.devices[i].queue
    requires forall rq | rq in outcome.requeued :: Tagged(w.asked, rq)
    requires forall rq | rq in outcome.dispatched :: DispatchTagged(w.asked, rq)
    requires forall rq | rq in outcome.stored :: Tagged(w.asked, rq)
    ensures AllTagged(Applied(w, i, outcome, queue))
  {
    hide Tagged, DispatchTagged;
    assert QueueTagged(w.asked, w.devices[i].queue);
    assert QueueTagged(w.asked, queue + outcome.requeued);
  }

  lemma DispatcherTurnTags(w: World, written: bool)
    requires AllTagged(w) && Proper(w) && Enabled(w, TurnDispatcher(written))
    ensures AllTagged(TurnedDispatcher(w, written))
  {
    var rq, w' := w.dispatcher[0], TurnedDispatcher(w, written);
    assert rq in w.dispatcher;
    RouteTags(w.asked, rq);
    var route := RouteOf(rq);
    hide RouteOf, Tagged, DispatchTagged, SentTagged;
    if route.ToDevice? && Find(w.devices, route.hash).Some? {
      DeliveredTags(w, Find(w.devices, route.hash).value, route.device);
    }
  }

  lemma RouteTags(asked: Asked, rq: DispatchRequest)
    requires DispatchTagged(asked, rq) && DispatchProper(rq)
    ensures match RouteOf(rq)
            case ToStore(next) => Tagged(asked, next)
            case ToDevice(_, next) => Tagged(asked, next) && DispatchTagged(asked, Routing.Unknown(rq.client))
            case Back(next) => DispatchTagged(asked, next)
            case ToClient(message) => SentTagged(asked, message)
            case _ => true
  {
  }

  lemma DeliveredTags(w: World, i: nat, rq: DeviceRequest)
    requires AllTagged(w) && i < |w.devices| && Tagged(w.asked, rq)
    ensures forall k | 0 <= k < |w.devices| :: QueueTagged(w.asked, Deliver(w.devices, i, rq)[k].queue)
  {
    hide Tagged;
    assert QueueTagged(w.asked, w.devices[i].queue);
  }

  lemma ControlTags(w: World, client: nat, rq: ControlRequest, written: bool)
    requires AllTagged(w)
    ensures AllTagged(TakeControl(w, client, rq, written))
  {
    var origin := Origin(client, |w.asked|);
    var asked := w.asked + [(client, rq)];
    assert DispatchTagged(asked, Accept(origin, rq, written));
    assert SentTagged(asked, Sent(origin, SetSessionMessage));
    forall d | d in w.dispatcher ensures DispatchTagged(asked, d) {
      LabelsGrow(w.asked, asked, d);
    }
    forall d | d in w.database ensures Tagged(asked, d) {
      LabelsGrow(w.asked, asked, d);
    }
    forall i | 0 <= i < |w.devices| ensures QueueTagged(asked, w.devices[i].queue) {
      assert QueueTagged(w.asked, w.devices[i].queue);
      forall d | d in w.devices[i].queue ensures Tagged(asked, d) {
        LabelsGrow(w.asked, asked, d);
      }
    }
    assert forall m | m in w.sent :: SentTagged(w.asked, m) && SentTagged(asked, m);
    hide Tagged, DispatchTagged, SentTagged, Accept;
  }

  lemma LabelsGrow<A>(asked: Asked, more: Asked, rq: Request<A>)
    requires asked <= more && Tagged(asked, rq)
    ensures Tagged(more, rq)
    ensures rq.client.Some? ==> more[rq.client.value.ticket] == asked[rq.client.value.ticket]
  {
  }

  lemma StepStaysTagged(w: World, e: Event)
    requires AllTagged(w) && Proper(w) && Enabled(w, e) && !Next(w, e).phase.Crashed?
    ensures AllTagged(Next(w, e))
  {
    match e
    case TurnDatabase(env) => DatabaseTurnTags(w, env);
    case TurnDispatcher(written) => DispatcherTurnTags(w, written);
    case TurnDevice(i, link) =>
      hide HandleMonitor, Tagged;
      var device := w.devices[i];
      assert device.queue[0] in device.queue;
      assert QueueTagged(w.asked, device.queue);
      OutcomeTags(w.asked, link, device.monitor, device.queue[0]);
      AppliedTags(w, i, HandleMonitor(link, device.monitor, device.queue[0]), device.queue[1..]);
    case Drop(i) => AppliedTags(w, i, Dropped(w.devices[i].monitor), w.devices[i].queue);
    case Control(client, rq, written) => ControlTags(w, client, rq, written);
    case Incoming(i, report) => DeliveredTags(w, i, RequestOf(report));
    case LaneTick(_, _, _) =>
  }

  // ---- a list goes out ahead of its status ----

  predicate IsList(m: Message) {
    m.DeviceListMessage? || m.SessionListMessage?
  }

  ghost predicate ListsFirst(sent: seq<Sent>) {
    forall j, k | 0 <= j < |sent| && 0 <= k < |sent| && IsList(sent[j].message) && sent[k].message.StatusMessage?
                  && sent[j].origin == sent[k].origin :: j < k
  }

  lemma {:induction false} NotAnswered(sent: seq<Sent>, o: Origin)
    requires CountAnswers(sent, o) == 0
    ensures forall k | 0 <= k < |sent| :: !(sent[k].origin == o && sent[k].message.StatusMessage?)
  {
    if sent != [] {
      NotAnswered(sent[1..], o);
      assert forall k | 1 <= k < |sent| :: sent[k] == sent[1..][k - 1];
    }
  }

  lemma CountedAtHead<A>(queue: seq<Request<A>>, o: Origin)
    requires queue != [] && queue[0].client == Some(o)
    ensures Count(queue, o) >= 1
  {
  }

  lemma DatabaseTurnListsFirst(w: World, env: Env)
    requires ListsFirst(w.sent) && Conserved(w) && Proper(w) && Enabled(w, TurnDatabase(env))
    ensures ListsFirst(TurnedDatabase(w, env).sent)
  {
    hide HandleStore;
    var rq := w.database[0];
    assert rq in w.database;
    var written := HandleStore(w.dialect, env, w.store, Registry(w.devices), rq).written;
    if written != [] {
      var o := written[0].origin;
      assert WritesListOnly(HandleStore(w.dialect, env, w.store, Registry(w.devices), rq), rq);
      CountedAtHead(w.database, o);
      assert Balance(w, o) <= 1;
      NotAnswered(w.sent, o);
    }
  }

  lemma StepListsFirst(w: World, e: Event)
    requires ListsFirst(w.sent) && Conserved(w) && Proper(w) && Enabled(w, e)
    ensures ListsFirst(Next(w, e).sent)
  {
    if e.TurnDatabase? {
      DatabaseTurnListsFirst(w, e.env);
    }
    hide HandleStore, HandleMonitor, Conserved, Proper;
  }

  lemma {:induction false} RunsDeliver(w: World, es: seq<Event>)
    requires AllTagged(w) && ListsFirst(w.sent) && Conserved(w) && Proper(w)
    requires Possible(w, es) && !After(w, es).phase.Crashed?
    ensures AllTagged(After(w, es)) && ListsFirst(After(w, es).sent) && Conserved(After(w, es))
    decreases |es|
  {
    hide HandleStore, HandleMonitor, AllTagged, ListsFirst, Conserved, Proper;
    if es != [] {
      CrashIsFinal(Next(w, es[0]), es[1..]);
      StepStaysProper(w, es[0]);
      StepConserves(w, es[0]);
      StepStaysTagged(w, es[0]);
      StepListsFirst(w, es[0]);
      RunsDeliver(Next(w, es[0]), es[1..]);
    }
  }

  // ---- one client's stream ----

  /** What is written to one client, in order. */
  function Stream(sent: seq<Sent>, client: nat): seq<Sent> {
    if sent == [] then []
    else
      var last := sent[|sent| - 1];
      Stream(sent[..|sent| - 1], client) + if last.origin.client == client then [last] else []
  }

  lemma {:induction false} StreamIsFrom(sent: seq<Sent>, client: nat)
    ensures forall m | m in Stream(sent, client) :: m in sent && m.origin.client == client
  {
    if sent != [] {
      StreamIsFrom(sent[..|sent| - 1], client);
    }
  }

  lemma {:induction false} StreamListsFirst(sent: seq<Sent>, client: nat)
    requires ListsFirst(sent)
    ensures ListsFirst(Stream(sent, client))
  {
    if sent != [] {
      var earlier, last := sent[..|sent| - 1], sent[|sent| - 1];
      assert forall k | 0 <= k < |earlier| :: earlier[k] == sent[k];
      StreamListsFirst(earlier, client);
      StreamIsFrom(earlier, client);
      if last.origin.client == client && IsList(last.message) {
        forall k | 0 <= k < |Stream(earlier, client)|
          ensures !(Stream(earlier, client)[k].message.StatusMessage? && Stream(earlier, client)[k].origin == last.origin)
        {
          assert Stream(earlier, client)[k] in earlier;
          var n :| 0 <= n < |earlier| && earlier[n] == Stream(earlier, client)[k];
          assert sent[n] == earlier[n] && sent[|sent| - 1] == last;
        }
      }
    }
  }

  function Messages(stream: seq<Sent>): seq<Message> {
    seq(|stream|, i requires 0 <= i < |stream| => stream[i].message)
  }

  /** The client asks for sessions under the session id and for nothing else. */
  ghost predicate TellsApart(w: World, client: nat) {
    forall k | 0 <= k < |w.asked| && w.asked[k].0 == client ::
      w.asked[k].1.command.AskSession? <==> w.asked[k].1.id == SESSION_ID
  }

  lemma StartupDelivers(dialect: Dialect, store: Store, traces: nat, erase: bool)
    ensures var w := Startup(dialect, store, traces, erase);
            AllTagged(w) && ListsFirst(w.sent) && Conserved(w) && Proper(w)
  {
    var w := Startup(dialect, store, traces, erase);
    forall o ensures Balance(w, o) == 0 {
      CountInternal(w.database, o);
    }
  }

  /** In every collector run and every run of the control program on what the collector wrote to it:
      a Quit on account of a status follows the handling of the status of one of the client's commands,
      `t`, and by then a list written for that command has been handled. */
  lemma {:induction false} QuitsAfterOwnStatusAndList(
    dialect: Dialect, store: Store, traces: nat, erase: bool, es: seq<Event>, client: nat,
    delivered: seq<Sent>, steps: seq<Step>) returns (k: nat, t: nat)
    requires Possible(Startup(dialect, store, traces, erase), es)
    requires !After(Startup(dialect, store, traces, erase), es).phase.Crashed?
    requires TellsApart(After(Startup(dialect, store, traces, erase), es), client)
    requires delivered <= Stream(After(Startup(dialect, store, traces, erase), es).sent, client)
    requires CanAll(Begin(Messages(delivered)), steps) && Quits(DoAll(Begin(Messages(delivered)), steps))
    ensures k < |delivered| && delivered[k].origin == Origin(client, t) && delivered[k].message.StatusMessage?
    ensures var asked := After(Startup(dialect, store, traces, erase), es).asked;
            t < |asked| && asked[t].0 == client && !asked[t].1.command.AskSession?
    ensures Messages(delivered)[..k + 1] <= Heard(DoAll(Begin(Messages(delivered)), steps).handled)
    ensures forall j | 0 <= j < |delivered| && IsList(delivered[j].message) && delivered[j].origin == Origin(client, t) :: j < k
  {
    var w0 := Startup(dialect, store, traces, erase);
    StartupDelivers(dialect, store, traces, erase);
    RunsDeliver(w0, es);
    var w := After(w0, es);
    hide Startup, After, Possible, Conserved, Proper, DoAll, CanAll, Heard, Stream, Quits;
    k := QuitsAfterCommandStatus(Messages(delivered), steps);
    var stream := Stream(w.sent, client);
    StreamIsFrom(w.sent, client);
    StreamListsFirst(w.sent, client);
    assert delivered[k] == stream[k] && stream[k] in w.sent;
    assert SentTagged(w.asked, delivered[k]);
    t := delivered[k].origin.ticket;
    forall j | 0 <= j < |delivered| && IsList(delivered[j].message) && delivered[j].origin == Origin(client, t) ensures j < k {
      assert stream[j] == delivered[j];
    }
  }
}
