/** How a control request enters the collector (source/ControlClient.cpp) and how the dispatcher
    hands it on (source/Dispatcher.cpp). */
module Routing {
  import opened Protocol

  datatype Command =
    | AskSession | AskInit | AskQuit | AskDevices | AskSessions(hash: string)
    | AskRemoveSession(hash: string) | AskAddDevice(device: DeviceData) | AskRemoveDevice(hash: string)
    | AskConnect(hash: string) | AskDisconnect(hash: string) | AskStart(hash: string) | AskStop(hash: string)

  datatype ControlRequest = ControlRequest(id: string, enforced: bool, command: Command)

  function ActionFor(command: Command): DispatchAction {
    match command
    case AskSession => SendStatus
    case AskInit => InitDatabase
    case AskQuit => QuitCollector
    case AskDevices => GetDevices
    case AskSessions(hash) => GetSessions(hash)
    case AskRemoveSession(hash) => RemoveSession(hash)
    case AskAddDevice(device) => AddDevice(device)
    case AskRemoveDevice(hash) => RemoveDevice(hash)
    case AskConnect(hash) => ConnectDevice(hash)
    case AskDisconnect(hash) => DisconnectDevice(hash)
    case AskStart(hash) => StartCollecting(hash)
    case AskStop(hash) => StopCollecting(hash)
  }

  /** The one dispatcher request an accepted control request becomes; `written` tells whether the
      session message could be written to the client. */
  function Accept(origin: Origin, rq: ControlRequest, written: bool): DispatchRequest {
    var args := map[RequestId := Text(rq.id)];
    var args' :=
      if rq.command.AskSession? then
        if written then args[Status := Okay][Reason := Because(ControlClientSessionSet)]
        else args[Status := Error][Reason := Because(FailedToSetSession)]
      else if rq.enforced && !rq.command.AskDevices? then args[Forced := True]
      else args;
    Request(Some(origin), ActionFor(rq.command), args')
  }

  /** Where the dispatcher sends a request. */
  datatype Route =
    | ToStore(store: StoreRequest)
    | ToDevice(hash: string, device: DeviceRequest)
    | Back(again: DispatchRequest)
    | ToClient(sent: Sent)
    | Nowhere
    | Exit

  /** The message doSendStatus builds. */
  function StatusOf(args: Args): Message {
    StatusMessage(
      if RequestId in args then args[RequestId] else Text(""),
      if Status !in args then WhatUnset
      else if args[Status] == Okay then WhatOkay else if args[Status] == Busy then WhatBusy else WhatError,
      if Reason in args then args[Reason] else Text(""))
  }

  function RouteOf(rq: DispatchRequest): Route {
    match rq.action
    case InitDatabase => ToStore(Request(rq.client, InitTables, rq.args))
    case QuitCollector => Back(Internal(Quit))
    case GetDevices => ToStore(Request(rq.client, ListDevices, rq.args))
    case GetSessions(hash) => ToStore(Request(rq.client, ListSessions(hash), rq.args))
    case RemoveSession(hash) => ToStore(Request(rq.client, RemSession(hash), rq.args))
    case AddDevice(device) => ToStore(Request(rq.client, InsertDevice(device), rq.args))
    case RemoveDevice(hash) => ToStore(Request(rq.client, DeleteDevice(hash), rq.args))
    case ConnectDevice(hash) => ToDevice(hash, Request(rq.client, Connect, rq.args))
    case DisconnectDevice(hash) => ToDevice(hash, Request(rq.client, Disconnect, rq.args))
    case StartCollecting(hash) => ToDevice(hash, Request(rq.client, StartDevice, rq.args))
    case StopCollecting(hash) => ToDevice(hash, Request(rq.client, StopDevice, rq.args))
    case SendStatus => if rq.client.None? then Nowhere else ToClient(Sent(rq.client.value, StatusOf(rq.args)))
    case Quit => Exit
  }

  /** Answer for a hash the registry does not know; it carries no request id. */
  function Unknown(client: Option<Origin>): DispatchRequest {
    Request(client, SendStatus, map[Status := Error, Reason := Because(NoSuchDevice)])
  }
}
