/** What handling one device request does (source/MonitorDevice.cpp, source/Connection.cpp). */
module MonitorRules {
  import opened Protocol
  import opened Backend
  import opened Lanes

  /** Abstract value of a MonitorDevice. `session` is the hash of the session data, empty until
      the first SetSession; it is never cleared. `watched` tells whether the connection is registered
      with the event loop. `sources` is the list every lane timer goes through. Each start of the lanes
      makes a new set of three timers; `timers` counts the sets, `running` holds those that still tick,
      and the device keeps handles of the newest set only. */
  datatype Monitor = Monitor(
    data: DeviceData, state: DeviceState, session: string, info: SessionInfo, connected: bool, watched: bool,
    sources: seq<DataSource>, timers: nat, running: set<nat>)

  const NO_SESSION := SessionInfo("", "", 0, [], [], [])

  function NewMonitor(data: DeviceData): Monitor {
    Monitor(data, Loaded, "", NO_SESSION, false, false, [], 0, {})
  }

  /** The timer set the device has handles of. */
  function Newest(m: Monitor): set<nat> {
    if m.timers == 0 then {} else {m.timers - 1}
  }

  function StopLanes(m: Monitor): Monitor {
    m.(running := m.running - Newest(m))
  }

  function StartLanes(m: Monitor): Monitor {
    m.(sources := Configured(m.info), timers := m.timers + 1, running := m.running + {m.timers})
  }

  /** A tick calls through the connection for every source of its lane. */
  predicate TickFaults(m: Monitor, lane: Lane) {
    !m.connected && Ticked(m.sources, lane) != []
  }

  /** Whether the socket connects and whether the descriptor can be sent. */
  datatype Link = Link(connects: bool, sends: bool)

  /** `fault` is a call through the connection pointer while there is no connection. */
  datatype Outcome = Outcome(
    monitor: Monitor, requeued: seq<DeviceRequest>, dispatched: seq<DispatchRequest>,
    stored: seq<StoreRequest>, fault: bool)

  /** Device requests the collector or the monitor makes, answering nobody. */
  predicate DeviceSilent(a: DeviceAction) {
    a.RequestSession? || a.SetSession? || a.StartStream? || a.StopStream? || a.ProcessData? || a.MonitorStatus?
  }

  predicate IsAnswer(answer: DispatchRequest, rq: DeviceRequest) {
    && answer.action.SendStatus? && answer.client == rq.client && Status in answer.args && Forced !in answer.args
    && (if RequestId in rq.args then RequestId in answer.args && answer.args[RequestId] == rq.args[RequestId]
        else RequestId !in answer.args)
  }

  /** The client of a control-origin request is handed on exactly once: to its status, or to the
      SendDescriptor a successful Connect leads to. */
  predicate HandsOnOnce(outcome: Outcome, rq: DeviceRequest) {
    || (&& |outcome.dispatched| == 1 && IsAnswer(outcome.dispatched[0], rq)
        && forall next | next in outcome.requeued :: next.client.None? && DeviceSilent(next.action))
    || (&& outcome.dispatched == [] && outcome.requeued == [Request(rq.client, SendDescriptor, rq.args)])
  }

  function Quiet(m: Monitor): Outcome {
    Outcome(m, [], [], [], false)
  }

  function Fault(m: Monitor): Outcome {
    Outcome(m, [], [], [], true)
  }

  function Told(m: Monitor, rq: DeviceRequest, status: Value, why: Why): (outcome: Outcome)
    ensures HandsOnOnce(outcome, rq)
  {
    Outcome(m, [], [Reply(rq, status, why)], [], false)
  }

  /** `updateState(Disconnected)`: a device that ever had a session asks for its end. */
  function EndOf(m: Monitor): seq<StoreRequest> {
    if m.session == "" then [] else [Ended(m.session)]
  }

  /** Finaliser and destructor of the connection, taken as one step. */
  function Dropped(m: Monitor): Outcome {
    Outcome(StopLanes(m).(connected := false, watched := false, state := Disconnected), [], [], EndOf(m), false)
  }

  function Started(m: Monitor, info: SessionInfo): StoreRequest {
    Request(None, AddSession(info), map[DeviceHash := Text(m.data.hash)])
  }

  function Sampled(m: Monitor, data: Data): StoreRequest {
    Request(None, AddData(data), map[SessionHash := Text(m.session)])
  }

  function ConnectOutcome(link: Link, m: Monitor, rq: DeviceRequest): (outcome: Outcome)
    ensures HandsOnOnce(outcome, rq) && !outcome.fault
    ensures forall next | next in outcome.stored :: next.action.EndSession? && WellFormed(next) && next.client.None?
  {
    if m.connected then Told(m, rq, Error, FailedToCreateConnectionObject)
    else if !link.connects then Dropped(m).(dispatched := [Reply(rq, Error, ConnectionFailed)])
    else Quiet(m.(connected := true, watched := true)).(requeued := [Request(rq.client, SendDescriptor, rq.args)])
  }

  function StartOutcome(m: Monitor, rq: DeviceRequest): (outcome: Outcome)
    ensures HandsOnOnce(outcome, rq) && !outcome.fault && outcome.stored == []
  {
    if m.state.Connected? || m.state.Idle? then
      Told(m, rq, Okay, CollectingRequested).(requeued := [Internal(RequestSession)])
    else if m.state.SessionSet? then
      Told(m, rq, Okay, CollectingStartRequested).(requeued := [Internal(StartStream)])
    else Told(m, rq, Error, DeviceNotConnected)
  }

  function StopOutcome(m: Monitor, rq: DeviceRequest): (outcome: Outcome)
    ensures HandsOnOnce(outcome, rq) && !outcome.fault && outcome.stored == []
  {
    if m.state.Collecting? then
      Told(m, rq, Okay, CollectingStopRequested).(requeued := [Internal(StopStream)])
    else Told(m, rq, Error, DeviceNotStreaming)
  }

  function HandleMonitor(link: Link, m: Monitor, rq: DeviceRequest): (outcome: Outcome)
    ensures !outcome.fault && !DeviceSilent(rq.action) ==> HandsOnOnce(outcome, rq)
    ensures DeviceSilent(rq.action) ==>
              && outcome.dispatched == []
              && forall next | next in outcome.requeued :: next.client.None? && DeviceSilent(next.action)
    ensures forall next | next in outcome.stored :: WellFormed(next) && next.client.None? && StoreSilent(next.action)
    ensures outcome.fault <==>
              !m.connected && (rq.action.SendDescriptor? || rq.action.RequestSession?
                               || (rq.action.Disconnect? && !m.state.Disconnected?))
  {
    match rq.action
    case Connect => ConnectOutcome(link, m, rq)
    case SendDescriptor =>
      if !m.connected then Fault(m)
      else if !link.sends then Told(m, rq, Error, FailedToSendDescriptor)
      else Told(m.(state := Connected), rq, Okay, ConnectedToDevice)
    case RequestSession =>
      if m.connected then Quiet(m) else Fault(m)
    case SetSession(info) =>
      var m' := m.(info := info, session := info.hash, state := SessionSet);
      Outcome(m', [Internal(StartStream)], [], [Started(m, info)], false)
    case Disconnect =>
      if m.state.Disconnected? then Told(m, rq, Error, DeviceNotConnected)
      else if !m.connected then Fault(m)
      else Told(m.(watched := false), rq, Okay, DeviceDisconnected)
    case StartStream => Quiet(StartLanes(m).(state := Collecting))
    case StopStream => Quiet(StopLanes(m).(state := Idle))
    case StartDevice => StartOutcome(m, rq)
    case StopDevice => StopOutcome(m, rq)
    case ProcessData(data) => Outcome(m, [], [], [Sampled(m, data)], false)
    case MonitorStatus => Quiet(m)
  }
}
