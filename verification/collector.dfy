/** The whole collector as a step system: one dispatcher queue, one database queue, a queue per
    device, the registry and the tables. */
module Collector {
  import opened Protocol
  import opened Like
  import opened Tables
  import opened Backend
  import opened Lanes
  import opened MonitorRules
  import opened Routing

  /** A registry entry: the device and its pending requests. */
  datatype Device = Device(monitor: Monitor, queue: seq<DeviceRequest>)

  datatype Phase = Running | Exited | Crashed

  /** What the devices handled so far, in order: SetSession messages and samples. */
  datatype Entry = SessionTaken(device: nat, hash: string) | SampleTaken(device: nat, trace: nat)

  /** `asked`, `owners`, `traces` and `log` only record the run: the accepted control requests by
      ticket, the device each SetSession hash arrived at, the number of samples received, and what
      the devices handled. `sent` is what was written to clients, `lost` the statuses whose write
      failed. */
  datatype World = World(
    dialect: Dialect,
    dispatcher: seq<DispatchRequest>, database: seq<StoreRequest>, devices: seq<Device>, store: Store,
    phase: Phase, sent: seq<Sent>, lost: seq<Sent>,
    asked: seq<(nat, ControlRequest)>, owners: map<string, nat>, traces: nat, log: seq<Entry>)

  datatype Report = SessionReport(info: SessionInfo) | DataReport(data: Data) | StatusReport

  /** External inputs (a control request, a monitor message, a lost connection, a tick of a lane timer)
      and turns of the event loop (one request of one queue). */
  datatype Event =
    | Control(client: nat, request: ControlRequest, written: bool)
    | Incoming(device: nat, report: Report)
    | Drop(device: nat)
    | LaneTick(device: nat, timer: nat, lane: Lane)
    | TurnDispatcher(written: bool)
    | TurnDatabase(env: Env)
    | TurnDevice(device: nat, link: Link)

  predicate IsTurn(e: Event) {
    e.TurnDispatcher? || e.TurnDatabase? || e.TurnDevice?
  }

  /** `getDevice`: the scan keeps the last entry with the hash. */
  function Find(devices: seq<Device>, hash: string): (found: Option<nat>)
    ensures found.Some? ==>
              && found.value < |devices| && devices[found.value].monitor.data.hash == hash
              && forall i | found.value < i < |devices| :: devices[i].monitor.data.hash != hash
    ensures found.None? ==> forall i | 0 <= i < |devices| :: devices[i].monitor.data.hash != hash
  {
    if devices == [] then None
    else if devices[|devices| - 1].monitor.data.hash == hash then Some(|devices| - 1)
    else Find(devices[..|devices| - 1], hash)
  }

  /** State by hash, as `getDevice` finds it. */
  function Registry(devices: seq<Device>): map<string, DeviceState> {
    if devices == [] then map[]
    else
      var last := devices[|devices| - 1].monitor;
      Registry(devices[..|devices| - 1])[last.data.hash := last.state]
  }

  function Enrol(loaded: seq<DeviceData>): seq<Device> {
    seq(|loaded|, i requires 0 <= i < |loaded| => Device(NewMonitor(loaded[i]), []))
  }

  function RequestOf(report: Report): DeviceRequest {
    match report
    case SessionReport(info) => Protocol.Internal(SetSession(info))
    case DataReport(data) => Protocol.Internal(ProcessData(data))
    case StatusReport => Protocol.Internal(MonitorStatus)
  }

  predicate Enabled(w: World, e: Event) {
    && w.phase.Running?
    && match e
       case Control(_, _, _) => true
       case Incoming(i, report) =>
         && i < |w.devices| && w.devices[i].monitor.connected
         && (report.DataReport? ==> report.data.trace == w.traces)
       case Drop(i) => i < |w.devices| && w.devices[i].monitor.connected
       case LaneTick(i, timer, lane) => i < |w.devices| && timer in w.devices[i].monitor.running && !lane.AnyLane?
       case TurnDispatcher(_) => w.dispatcher != []
       case TurnDatabase(env) => w.database != [] && Answers(env, w.store) && WellFormed(w.database[0])
       case TurnDevice(i, _) => i < |w.devices| && w.devices[i].queue != []
  }

  function Deliver(devices: seq<Device>, i: nat, rq: DeviceRequest): seq<Device>
    requires i < |devices|
  {
    devices[i := devices[i].(queue := devices[i].queue + [rq])]
  }

  function TakeControl(w: World, client: nat, rq: ControlRequest, written: bool): World {
    var origin := Origin(client, |w.asked|);
    w.(dispatcher := w.dispatcher + [Accept(origin, rq, written)],
       asked := w.asked + [(client, rq)],
       sent := if rq.command.AskSession? && written then w.sent + [Sent(origin, SetSessionMessage)] else w.sent)
  }

  function TakeReport(w: World, i: nat, report: Report): World
    requires i < |w.devices|
  {
    w.(devices := Deliver(w.devices, i, RequestOf(report)),
       owners := if report.SessionReport? then w.owners[report.info.hash := i] else w.owners,
       traces := if report.DataReport? then w.traces + 1 else w.traces)
  }

  function TurnedDispatcher(w: World, written: bool): World
    requires w.dispatcher != []
  {
    var rq := w.dispatcher[0];
    var w' := w.(dispatcher := w.dispatcher[1..]);
    match RouteOf(rq)
    case ToStore(next) => w'.(database := w.database + [next])
    case ToDevice(hash, next) =>
      (match Find(w.devices, hash)
       case None => w'.(dispatcher := w'.dispatcher + [Routing.Unknown(rq.client)])
       case Some(i) => w'.(devices := Deliver(w.devices, i, next)))
    case Back(next) => w'.(dispatcher := w'.dispatcher + [next])
    case ToClient(message) => if written then w'.(sent := w.sent + [message]) else w'.(lost := w.lost + [message])
    case Nowhere => w'
    case Exit => w'.(phase := Exited)
  }

  function TurnedDatabase(w: World, env: Env): World
    requires w.database != [] && Answers(env, w.store) && WellFormed(w.database[0])
  {
    var effect := HandleStore(w.dialect, env, w.store, Registry(w.devices), w.database[0]);
    w.(database := w.database[1..] + effect.requeued,
       dispatcher := w.dispatcher + effect.dispatched,
       store := effect.store,
       sent := w.sent + effect.written,
       devices := w.devices + Enrol(effect.loaded))
  }

  function Noted(i: nat, action: DeviceAction): seq<Entry> {
    match action
    case SetSession(info) => [SessionTaken(i, info.hash)]
    case ProcessData(data) => [SampleTaken(i, data.trace)]
    case _ => []
  }

  function Applied(w: World, i: nat, outcome: Outcome, queue: seq<DeviceRequest>): World
    requires i < |w.devices|
  {
    w.(devices := w.devices[i := Device(outcome.monitor, queue + outcome.requeued)],
       dispatcher := w.dispatcher + outcome.dispatched,
       database := w.database + outcome.stored,
       phase := if outcome.fault then Crashed else w.phase)
  }

  function TurnedDevice(w: World, i: nat, link: Link): World
    requires i < |w.devices| && w.devices[i].queue != []
  {
    var device := w.devices[i];
    var outcome := HandleMonitor(link, device.monitor, device.queue[0]);
    Applied(w, i, outcome, device.queue[1..]).(log := w.log + Noted(i, device.queue[0].action))
  }

  function Next(w: World, e: Event): World
    requires Enabled(w, e)
  {
    match e
    case Control(client, rq, written) => TakeControl(w, client, rq, written)
    case Incoming(i, report) => TakeReport(w, i, report)
    case Drop(i) => Applied(w, i, Dropped(w.devices[i].monitor), w.devices[i].queue)
    case LaneTick(i, _, lane) => w.(phase := if TickFaults(w.devices[i].monitor, lane) then Crashed else w.phase)
    case TurnDispatcher(written) => TurnedDispatcher(w, written)
    case TurnDatabase(env) => TurnedDatabase(w, env)
    case TurnDevice(i, link) => TurnedDevice(w, i, link)
  }

  /** `es` is a possible run from `w`. */
  predicate Possible(w: World, es: seq<Event>)
    decreases |es|
  {
    es == [] || (Enabled(w, es[0]) && Possible(Next(w, es[0]), es[1..]))
  }

  function After(w: World, es: seq<Event>): World
    requires Possible(w, es)
    decreases |es|
  {
    if es == [] then w else After(Next(w, es[0]), es[1..])
  }

  lemma {:induction false} AfterStep(w: World, es: seq<Event>, e: Event)
    requires Possible(w, es) && Enabled(After(w, es), e)
    ensures Possible(w, es + [e]) && After(w, es + [e]) == Next(After(w, es), e)
    decreases |es|
  {
    hide Next, Enabled;
    if es != [] {
      assert (es + [e])[1..] == es[1..] + [e];
      AfterStep(Next(w, es[0]), es[1..], e);
    } else {
      assert es + [e] == [e];
    }
  }

  lemma OneEventMore(w: World, e: Event, es: seq<Event>)
    requires Enabled(w, e) && Possible(Next(w, e), es)
    ensures Possible(w, [e] + es) && After(w, [e] + es) == After(Next(w, e), es)
  {
    assert ([e] + es)[1..] == es;
    hide Enabled, Next;
  }

  lemma {:induction false} AfterRun(w: World, es: seq<Event>, fs: seq<Event>)
    requires Possible(w, es) && Possible(After(w, es), fs)
    ensures Possible(w, es + fs) && After(w, es + fs) == After(After(w, es), fs)
    decreases |es|
  {
    hide Next, Enabled;
    if es == [] {
      assert es + fs == fs;
    } else {
      assert (es + fs)[1..] == es[1..] + fs;
      AfterRun(Next(w, es[0]), es[1..], fs);
    }
  }

  /** The collector right after start-up: the database check, loading and cleaning are queued,
      and the re-creation of the tables behind them when that was asked for. */
  function Startup(dialect: Dialect, store: Store, traces: nat, erase: bool): World {
    var queued := [Protocol.Internal(CheckDatabase), Protocol.Internal(LoadDevices), Protocol.Internal(CleanSessions)]
      + if erase then [Request(None, InitTables, map[Forced := True])] else [];
    World(dialect, [], queued, [], store, Running, [], [], [], map[], traces, [])
  }
}
