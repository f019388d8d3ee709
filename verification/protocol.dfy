/** Messages, requests and argument lists exchanged inside the collector. */
module Protocol {

  datatype Option<+T> = None | Some(value: T)

  /** The client a request answers to. `ticket` numbers the accepted control requests; handlers
      copy the whole value, none reads the ticket, so it only serves to audit a run. */
  datatype Origin = Origin(client: nat, ticket: nat)

  datatype Arg = RequestId | Forced | Status | Reason | DeviceHash | SessionHash

  /** Argument values: the named constants of shared/Defaults.h.in, the fixed reason texts, and
      free text. */
  datatype Value = Okay | Error | Busy | True | Because(why: Why) | Text(text: string)

  datatype Why =
    | DatabaseConnectionError | DatabaseInitComplete | DatabaseInitFailed
    | ListProvided | FailedToSendDeviceList | FailedToSendSessionList | QueryFailed
    | DeviceAlreadyExists | DeviceAdded | FailedToAddDevice | CannotCheckExistingDevice
    | NoSuchDevice | DeviceRemoved | FailedToRemoveDevice
    | NoSuchSession | SessionRemoved | FailedToRemoveSession | CannotCheckExistingSession
    | FailedToCreateConnectionObject | ConnectionFailed | FailedToSendDescriptor | ConnectedToDevice
    | DeviceDisconnected | DeviceNotConnected | CollectingRequested | CollectingStartRequested
    | CollectingStopRequested | DeviceNotStreaming | ControlClientSessionSet | FailedToSetSession

  type Args = map<Arg, Value>

  /** `std::map::emplace`: the first value stored under a key stays. */
  function Emplace(args: Args, key: Arg, value: Value): Args {
    if key in args then args else args[key := value]
  }

  /** A queued request; the payload travels with the action. */
  datatype Request<+A> = Request(client: Option<Origin>, action: A, args: Args)

  datatype DeviceData = DeviceData(hash: string, name: string, address: string, port: int)

  datatype DeviceState =
    Unknown | Loaded | Connected | SessionSet | Collecting | Idle | Disconnected | Reconnecting

  datatype Source =
    | ProcInfoSource | ProcAcctSource | ProcEventSource | ContextInfoSource | SysProcStatSource
    | BuddyInfoSource | WirelessSource | MemInfoSource | PressureSource | DiskStatsSource
    | OtherSource

  datatype SessionInfo = SessionInfo(
    hash: string, name: string, coreCount: int,
    fastLane: seq<Source>, paceLane: seq<Source>, slowLane: seq<Source>)

  datatype DataKind =
    | ProcEvent | ProcAcct | ProcInfo | ContextInfo | SysProcStat | SysProcMemInfo
    | SysProcPressure | SysProcDiskStats | SysProcBuddyInfo | SysProcWireless | SysProcVMStat
    | OtherKind

  datatype Stamp = Stamp(systemTime: nat, monotonicTime: nat, receiveTime: nat)

  /** A monitor sample: `head` holds the columns of a single-row kind (or the totals of
      SysProcStat), `entries` the repeated part. `trace` numbers the samples of a run for audit. */
  datatype Data = Data(what: DataKind, head: string, entries: seq<string>, stamp: Stamp, trace: nat)

  datatype DispatchAction =
    | InitDatabase | QuitCollector | GetDevices | GetSessions(hash: string)
    | RemoveSession(hash: string) | AddDevice(device: DeviceData) | RemoveDevice(hash: string)
    | ConnectDevice(hash: string) | DisconnectDevice(hash: string)
    | StartCollecting(hash: string) | StopCollecting(hash: string)
    | SendStatus | Quit

  datatype StoreAction =
    | CheckDatabase | InitTables | OpenStore | CloseStore
    | ListDevices | InsertDevice(device: DeviceData) | DeleteDevice(hash: string) | LoadDevices
    | ListSessions(hash: string) | AddSession(info: SessionInfo) | RemSession(hash: string)
    | EndSession | CleanSessions | AddData(data: Data)

  datatype DeviceAction =
    | Connect | Disconnect | SendDescriptor | RequestSession | SetSession(info: SessionInfo)
    | StartDevice | StopDevice | StartStream | StopStream | ProcessData(data: Data) | MonitorStatus

  type DispatchRequest = Request<DispatchAction>
  type StoreRequest = Request<StoreAction>
  type DeviceRequest = Request<DeviceAction>

  datatype SessionEntry = SessionEntry(hash: string, name: string, started: nat, ended: nat, complete: bool)

  datatype What = WhatUnset | WhatOkay | WhatBusy | WhatError

  /** What the collector writes to a control client. */
  datatype Message =
    | SetSessionMessage
    | StatusMessage(requestId: Value, what: What, reason: Value)
    | DeviceListMessage(devices: seq<(DeviceData, DeviceState)>)
    | SessionListMessage(sessions: seq<SessionEntry>)

  datatype Sent = Sent(origin: Origin, message: Message)

  /** A request the collector makes of itself: nobody is told about it. */
  function Internal<A>(action: A): Request<A> {
    Request(None, action, map[])
  }

  /** The status answer to `rq`: same client, same request id if it has one. */
  function Reply<A>(rq: Request<A>, status: Value, why: Why): DispatchRequest {
    Request(rq.client, SendStatus,
            if RequestId in rq.args
            then map[RequestId := rq.args[RequestId], Status := status, Reason := Because(why)]
            else map[Status := status, Reason := Because(why)])
  }

  /** The request tells `client` that status and reason, under the request id in `args` if there is one. */
  predicate Says(answer: DispatchRequest, client: Option<Origin>, args: Args, status: Value, why: Why) {
    && answer.action == SendStatus && answer.client == client
    && Status in answer.args && answer.args[Status] == status
    && Reason in answer.args && answer.args[Reason] == Because(why)
    && (RequestId in answer.args <==> RequestId in args)
    && (RequestId in args ==> answer.args[RequestId] == args[RequestId])
  }
}
