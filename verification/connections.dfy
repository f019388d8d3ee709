/** Device states against the live connection (source/MonitorDevice.cpp, source/Connection.cpp). */
module Connections {
  import opened Protocol
  import opened Like
  import opened Tables
  import opened Backend
  import opened Lanes
  import opened MonitorRules
  import opened Routing
  import opened Collector

  /** Requests a control client can cause directly; all others come from the monitor or from the
      device itself. */
  predicate ControlOrigin(a: DeviceAction) {
    a.Connect? || a.Disconnect? || a.StartDevice? || a.StopDevice?
  }

  predicate OnlyControl(queue: seq<DeviceRequest>) {
    forall k | 0 <= k < |queue| :: ControlOrigin(queue[k].action)
  }

  predicate Streaming(s: DeviceState) {
    s.Connected? || s.SessionSet? || s.Collecting? || s.Idle?
  }

  /** A state past the handshake has a connection; without one the device is Loaded or
      Disconnected, only control requests wait and no lane timer runs. */
  predicate Coherent(device: Device) {
    && (Streaming(device.monitor.state) ==> device.monitor.connected)
    && (!device.monitor.connected ==>
          && (device.monitor.state.Loaded? || device.monitor.state.Disconnected?) && OnlyControl(device.queue)
          && device.monitor.running == {})
  }

  ghost predicate AllCoherent(w: World) {
    forall i | 0 <= i < |w.devices| :: Coherent(w.devices[i])
  }

  /** No lane timer runs but those the device has handles of. */
  predicate NoStrayTimers(m: Monitor) {
    m.running <= Newest(m)
  }

  /** The situations the handlers do not defend against: a connection lost while requests of the device
      itself or of the monitor wait or while lane timers run that nothing stops any more, and a
      Disconnect reaching a device that was never connected. */
  predicate Calm(w: World, e: Event)
    requires Enabled(w, e)
  {
    match e
    case Drop(i) => OnlyControl(w.devices[i].queue) && NoStrayTimers(w.devices[i].monitor)
    case TurnDevice(i, _) =>
      var m := w.devices[i].monitor;
      !(w.devices[i].queue[0].action.Disconnect? && m.state.Loaded? && !m.connected)
    case _ => true
  }

  predicate CalmRun(w: World, es: seq<Event>)
    requires Possible(w, es)
    decreases |es|
  {
    es == [] || (Calm(w, es[0]) && CalmRun(Next(w, es[0]), es[1..]))
  }

  lemma TurnKeepsCoherent(link: Link, device: Device)
    requires device.queue != [] && Coherent(device)
    requires !(device.queue[0].action.Disconnect? && device.monitor.state.Loaded? && !device.monitor.connected)
    ensures var outcome := HandleMonitor(link, device.monitor, device.queue[0]);
            !outcome.fault && Coherent(Device(outcome.monitor, device.queue[1..] + outcome.requeued))
  {
    assert !device.monitor.connected ==> ControlOrigin(device.queue[0].action);
  }

  lemma StepKeepsCoherent(w: World, e: Event)
    requires AllCoherent(w) && Enabled(w, e) && Calm(w, e)
    ensures AllCoherent(Next(w, e)) && !Next(w, e).phase.Crashed?
  {
    match e
    case TurnDevice(i, link) =>
      hide HandleMonitor, HandleStore, Coherent;
      TurnKeepsCoherent(link, w.devices[i]);
    case TurnDatabase(env) => DatabaseKeepsCoherent(w, env);
    case TurnDispatcher(written) => DispatcherKeepsCoherent(w, written);
    case LaneTick(i, timer, _) =>
      hide HandleStore, HandleMonitor;
      assert Coherent(w.devices[i]);
    case _ =>
      hide HandleStore, HandleMonitor;
  }

  lemma DatabaseKeepsCoherent(w: World, env: Env)
    requires AllCoherent(w) && Enabled(w, TurnDatabase(env))
    ensures AllCoherent(TurnedDatabase(w, env)) && TurnedDatabase(w, env).phase == w.phase
  {
    hide HandleStore;
    assert forall k | 0 <= k < |w.devices| :: TurnedDatabase(w, env).devices[k] == w.devices[k];
  }

  lemma DispatcherKeepsCoherent(w: World, written: bool)
    requires AllCoherent(w) && Enabled(w, TurnDispatcher(written))
    ensures AllCoherent(TurnedDispatcher(w, written)) && !TurnedDispatcher(w, written).phase.Crashed?
  {
    var route := RouteOf(w.dispatcher[0]);
    assert route.ToDevice? ==> ControlOrigin(route.device.action);
    hide RouteOf;
  }

  /** In every calm run the states agree with the connections, and no handler and no lane timer ever
      calls through a missing connection. */
  lemma {:induction false} CalmRunsStayCoherent(w: World, es: seq<Event>)
    requires AllCoherent(w) && !w.phase.Crashed? && Possible(w, es) && CalmRun(w, es)
    ensures AllCoherent(After(w, es)) && !After(w, es).phase.Crashed?
    decreases |es|
  {
    if es != [] {
      StepKeepsCoherent(w, es[0]);
      CalmRunsStayCoherent(Next(w, es[0]), es[1..]);
    }
  }

  /** Whatever state the collector is in, it comes down exactly when a request handler calls through a
      missing connection - for SendDescriptor, RequestSession, or Disconnect in any state but
      Disconnected - or a lane timer ticks that has a source to ask for. */
  lemma CrashesExactlyOnMissingConnection(w: World, e: Event)
    requires Enabled(w, e)
    ensures Next(w, e).phase.Crashed? <==>
              match e
              case TurnDevice(i, _) =>
                var a, m := w.devices[i].queue[0].action, w.devices[i].monitor;
                !m.connected && (a.SendDescriptor? || a.RequestSession? || (a.Disconnect? && !m.state.Disconnected?))
              case LaneTick(i, _, lane) =>
                !w.devices[i].monitor.connected && exists source :: source in w.devices[i].monitor.sources && source.lane in {lane, AnyLane}
              case _ => false
  {
    if e.LaneTick? {
      TicksSomething(w.devices[e.device].monitor.sources, e.lane);
    }
    hide HandleStore, HandleMonitor;
  }

  lemma {:induction false} TicksSomething(sources: seq<DataSource>, lane: Lane)
    ensures Ticked(sources, lane) != [] <==> exists source :: source in sources && source.lane in {lane, AnyLane}
  {
    if sources != [] {
      TicksSomething(sources[..|sources| - 1], lane);
      assert sources == sources[..|sources| - 1] + [sources[|sources| - 1]];
    }
  }

  /** Among coherent devices the collector comes down exactly when a Disconnect reaches a loaded
      device without a connection. */
  lemma CrashesExactlyOnLoadedDisconnect(w: World, e: Event)
    requires AllCoherent(w) && Enabled(w, e)
    ensures Next(w, e).phase.Crashed? <==>
              e.TurnDevice? && w.devices[e.device].queue[0].action.Disconnect?
              && w.devices[e.device].monitor.state.Loaded? && !w.devices[e.device].monitor.connected
  {
    if e.TurnDevice? || e.LaneTick? {
      var device := w.devices[e.device];
      assert Coherent(device);
      assert e.TurnDevice? && !device.monitor.connected ==> ControlOrigin(device.queue[0].action);
    }
    hide HandleStore, HandleMonitor;
  }

  /** A drop keeps the device coherent exactly when only control requests wait and no timers run but
      those the device has handles of. */
  lemma DropKeepsCoherentIff(w: World, i: nat)
    requires AllCoherent(w) && Enabled(w, Drop(i))
    ensures AllCoherent(Next(w, Drop(i))) <==> OnlyControl(w.devices[i].queue) && NoStrayTimers(w.devices[i].monitor)
  {
    hide HandleStore, HandleMonitor;
    var w' := Next(w, Drop(i));
    assert w'.devices[i].queue == w.devices[i].queue;
    assert forall k | 0 <= k < |w.devices| && k != i :: w'.devices[k] == w.devices[k];
    if AllCoherent(w') {
      assert Coherent(w'.devices[i]);
    }
  }

  /** Timers go astray exactly when a stream is started while lane timers run. */
  lemma TimersStrayIff(link: Link, m: Monitor, rq: DeviceRequest)
    requires NoStrayTimers(m) && forall t | t in m.running :: t < m.timers
    ensures var m' := HandleMonitor(link, m, rq).monitor;
            && (NoStrayTimers(m') <==> !(rq.action.StartStream? && m.running != {}))
            && forall t | t in m'.running :: t < m'.timers
  {
    hide EndOf, Reply, Started, Sampled, Configured;
  }

  // ---- examples: why each condition is needed ----

  /** The head of the device's queue handled, everything going well. */
  function Turn(device: Device): Outcome
    requires device.queue != []
  {
    HandleMonitor(Link(true, true), device.monitor, device.queue[0])
  }

  function Handled(device: Device): Device
    requires device.queue != []
  {
    Device(Turn(device).monitor, device.queue[1..] + Turn(device).requeued)
  }

  predicate Reaches(w: World, es: seq<Event>, i: nat, device: Device) {
    Possible(w, es) && After(w, es).phase.Running? && i < |After(w, es).devices| && After(w, es).devices[i] == device
  }

  lemma RunTurn(w: World, es: seq<Event>, i: nat, device: Device) returns (run: seq<Event>)
    requires Reaches(w, es, i, device) && device.queue != [] && !Turn(device).fault
    ensures Reaches(w, run, i, Handled(device))
    ensures After(w, run).dispatcher == After(w, es).dispatcher + Turn(device).dispatched
  {
    run := es + [TurnDevice(i, Link(true, true))];
    AfterStep(w, es, TurnDevice(i, Link(true, true)));
    hide After, Possible;
  }

  /** A monitor sends its session and hangs up: the device ends up collecting without a connection, its
      lane timers running, ... */
  lemma HangUpExample(w: World, i: nat, info: SessionInfo) returns (es: seq<Event>)
    requires w.phase.Running? && i < |w.devices| && w.devices[i].queue == [] && w.devices[i].monitor.connected
    ensures Possible(w, es) && After(w, es).phase.Running? && After(w, es).dispatcher == w.dispatcher
    ensures i < |After(w, es).devices| && After(w, es).devices[i].queue == []
    ensures var m := After(w, es).devices[i].monitor;
            && m.state.Collecting? && !m.connected && m.data == w.devices[i].monitor.data
            && m.sources == Configured(info) && m.timers > 0 && m.timers - 1 in m.running
  {
    hide HandleStore;
    var taken := Protocol.Internal(SetSession(info));
    var m := w.devices[i].monitor;
    es := [];
    AfterStep(w, es, Incoming(i, SessionReport(info)));
    es := es + [Incoming(i, SessionReport(info))];
    AfterStep(w, es, Drop(i));
    es := es + [Drop(i)];
    var dropped := Device(Dropped(m).monitor, [taken]);
    assert Reaches(w, es, i, dropped);
    hide After, Possible;
    es := RunTurn(w, es, i, dropped);
    assert Handled(dropped).queue == [Protocol.Internal(StartStream)];
    es := RunTurn(w, es, i, Handled(dropped));
    assert Handled(Handled(dropped)).queue == [];
  }

  /** ... and the next tick of a lane with sources, ... */
  lemma StrandedTickExample(w: World, i: nat, timer: nat, lane: Lane) returns (es: seq<Event>)
    requires w.phase.Running? && i < |w.devices| && !w.devices[i].monitor.connected && timer in w.devices[i].monitor.running
    requires !lane.AnyLane? && Ticked(w.devices[i].monitor.sources, lane) != []
    ensures Possible(w, es) && After(w, es).phase.Crashed?
  {
    es := [LaneTick(i, timer, lane)];
    AfterStep(w, [], es[0]);
  }

  /** ... or the next Disconnect request, calls through the missing connection. */
  lemma StrandedDisconnectExample(w: World, i: nat, rq: ControlRequest) returns (es: seq<Event>)
    requires w.phase.Running? && i < |w.devices| && w.dispatcher == [] && w.devices[i].queue == []
    requires w.devices[i].monitor.state.Collecting? && !w.devices[i].monitor.connected
    requires rq.command == AskDisconnect(w.devices[i].monitor.data.hash)
    requires Find(w.devices, w.devices[i].monitor.data.hash) == Some(i)
    ensures Possible(w, es) && After(w, es).phase.Crashed?
  {
    var next := Request(Some(Origin(0, |w.asked|)), Disconnect, Accept(Origin(0, |w.asked|), rq, true).args);
    es := RequestArrives(w, i, rq, next);
    hide HandleStore, RouteOf, Accept, Possible, After;
    var w1 := After(w, es);
    assert w1.devices[i] == Device(w.devices[i].monitor, [next]);
    hide HandleMonitor;
    AfterStep(w, es, TurnDevice(i, Link(true, true)));
    es := es + [TurnDevice(i, Link(true, true))];
  }

  /** A start request that overtakes the stream a session leads to starts the lanes twice. The first
      timers are out of reach from then on: they outlive a drop with an empty queue, and their next
      tick calls through the missing connection of a device that is properly Disconnected. */
  lemma StrayTimerExample(w: World, i: nat, info: SessionInfo, rq: ControlRequest, lane: Lane) returns (es: seq<Event>)
    requires w.phase.Running? && i < |w.devices| && w.dispatcher == [] && w.devices[i].queue == []
    requires w.devices[i].monitor.connected && w.devices[i].monitor.running == {}
    requires rq.command == AskStart(w.devices[i].monitor.data.hash)
    requires Find(w.devices, w.devices[i].monitor.data.hash) == Some(i)
    requires !lane.AnyLane? && Ticked(Configured(info), lane) != []
    ensures Possible(w, es) && |es| > 0 && After(w, es).phase.Crashed? && es[|es| - 1].LaneTick?
    ensures Possible(w, es[..|es| - 1])
    ensures var before := After(w, es[..|es| - 1]);
            && i < |before.devices| && before.devices[i].queue == [] && before.devices[i].monitor.state.Disconnected?
  {
    hide HandleStore;
    var m := w.devices[i].monitor;
    es := DoubleStart(w, i, info, rq);
    hide HandleMonitor, Configured;
    var twice := After(w, es).devices[i];
    AfterStep(w, es, Drop(i));
    var run := es + [Drop(i)];
    assert After(w, run).devices[i] == Device(Dropped(twice.monitor).monitor, []);
    var tick := LaneTick(i, m.timers, lane);
    AfterStep(w, run, tick);
    es := run + [tick];
    assert es[..|es| - 1] == run;
  }

  lemma DoubleStart(w: World, i: nat, info: SessionInfo, rq: ControlRequest) returns (es: seq<Event>)
    requires w.phase.Running? && i < |w.devices| && w.dispatcher == [] && w.devices[i].queue == []
    requires w.devices[i].monitor.connected && w.devices[i].monitor.running == {}
    requires rq.command == AskStart(w.devices[i].monitor.data.hash)
    requires Find(w.devices, w.devices[i].monitor.data.hash) == Some(i)
    ensures Possible(w, es) && After(w, es).phase.Running?
    ensures i < |After(w, es).devices| && After(w, es).devices[i].queue == []
    ensures var m, t := After(w, es).devices[i].monitor, w.devices[i].monitor.timers;
            m.connected && m.sources == Configured(info) && m.timers == t + 2 && m.running == {t, t + 1}
  {
    var d0 := Device(w.devices[i].monitor, [Protocol.Internal(SetSession(info)), Starting(w, rq)]);
    es := SessionThenStart(w, i, info, rq);
    LanesStartTwice(d0.monitor, info, Starting(w, rq));
    hide After, Possible, Turn, Handled;
    es := RunTurn(w, es, i, d0);
    es := RunTurn(w, es, i, Handled(d0));
    es := RunTurn(w, es, i, Handled(Handled(d0)));
    es := RunTurn(w, es, i, Handled(Handled(Handled(d0))));
  }

  /** The session, the start request and the two StartStream requests they lead to. */
  lemma LanesStartTwice(m: Monitor, info: SessionInfo, start: DeviceRequest)
    requires m.connected && m.running == {} && start.action.StartDevice?
    ensures var stream := Protocol.Internal(StartStream);
            var d0 := Device(m, [Protocol.Internal(SetSession(info)), start]);
            && !Turn(d0).fault && Handled(d0).queue == [start, stream]
            && !Turn(Handled(d0)).fault && Handled(Handled(d0)).queue == [stream, stream]
            && var d3 := Handled(Handled(Handled(d0)));
               && !Turn(Handled(Handled(d0))).fault && d3.queue == [stream] && !Turn(d3).fault
               && Handled(d3).queue == [] && var m' := Handled(d3).monitor;
                  && m'.connected && m'.sources == Configured(info)
                  && m'.timers == m.timers + 2 && m'.running == {m.timers, m.timers + 1}
  {
    hide Configured, Reply;
  }

  /** What the start request becomes in the device's queue. */
  function Starting(w: World, rq: ControlRequest): DeviceRequest {
    Request(Some(Origin(0, |w.asked|)), StartDevice, Accept(Origin(0, |w.asked|), rq, true).args)
  }

  lemma SessionThenStart(w: World, i: nat, info: SessionInfo, rq: ControlRequest) returns (es: seq<Event>)
    requires w.phase.Running? && i < |w.devices| && w.dispatcher == [] && w.devices[i].queue == []
    requires w.devices[i].monitor.connected && rq.command == AskStart(w.devices[i].monitor.data.hash)
    requires Find(w.devices, w.devices[i].monitor.data.hash) == Some(i)
    ensures Reaches(w, es, i, Device(w.devices[i].monitor, [Protocol.Internal(SetSession(info)), Starting(w, rq)]))
  {
    hide HandleStore, HandleMonitor;
    var e := Incoming(i, SessionReport(info));
    var w1 := Next(w, e);
    FindByHash(w.devices, w1.devices, w.devices[i].monitor.data.hash);
    assert w1 == TakeReport(w, i, e.report);
    assert RouteOf(Accept(Origin(0, |w.asked|), rq, true)) == ToDevice(w.devices[i].monitor.data.hash, Starting(w, rq));
    hide Next, RouteOf, Accept, Starting;
    es := RequestArrives(w1, i, rq, Starting(w, rq));
    OneEventMore(w, e, es);
    hide After, Possible;
    es := [e] + es;
  }

  /** A control request arrives in the queue of its device. */
  lemma RequestArrives(w: World, i: nat, rq: ControlRequest, next: DeviceRequest) returns (es: seq<Event>)
    requires w.phase.Running? && i < |w.devices| && w.dispatcher == []
    requires RouteOf(Accept(Origin(0, |w.asked|), rq, true)) == ToDevice(w.devices[i].monitor.data.hash, next)
    requires Find(w.devices, w.devices[i].monitor.data.hash) == Some(i)
    ensures Possible(w, es)
    ensures After(w, es) == w.(asked := After(w, es).asked, devices := Deliver(w.devices, i, next))
  {
    hide HandleStore, HandleMonitor;
    var accepted := Accept(Origin(0, |w.asked|), rq, true);
    assert !rq.command.AskSession?;
    es := [Control(0, rq, true)];
    AfterStep(w, [], es[0]);
    var w1 := After(w, es);
    assert w1 == w.(asked := w1.asked, dispatcher := [accepted]);
    hide After, Possible, RouteOf, Accept;
    AfterStep(w, es, TurnDispatcher(true));
    es := es + [TurnDispatcher(true)];
    assert w1.dispatcher[1..] == [];
  }

  lemma {:induction false} FindByHash(devices: seq<Device>, devices': seq<Device>, hash: string)
    requires |devices| == |devices'|
    requires forall i | 0 <= i < |devices| :: devices[i].monitor.data.hash == devices'[i].monitor.data.hash
    ensures Find(devices, hash) == Find(devices', hash)
  {
    if devices != [] {
      FindByHash(devices[..|devices| - 1], devices'[..|devices| - 1], hash);
    }
  }
}
