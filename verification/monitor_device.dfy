/** The device object (source/MonitorDevice.cpp) and its connection (source/Connection.cpp), proved
    against the rules the runs are built from. */
module MonitorDevices {
  import opened Protocol
  import opened Backend
  import opened MonitorRules
  import opened Lanes

  /** A FIFO of pending requests. */
  class MessageQueue<T> {
    var items: seq<T>

    constructor ()
      ensures items == []
    {
      items := [];
    }

    method Push(x: T)
      modifies this
      ensures items == old(items) + [x]
    {
      items := items + [x];
    }
  }

  /** What one read of the socket yields. */
  datatype Read =
    | Again | ReadError | EndOfFile
    | FromOther
    | SessionMessage(info: SessionInfo, name: string) | DataMessage(data: Data, receiveTime: nat) | StatusMessage
    | UnknownMessage

  /** Requests pushed for a series of reads, up to the read that ends the loop. */
  function Pushed(input: seq<Read>): seq<DeviceRequest> {
    if input == [] then []
    else match input[0]
      case SessionMessage(info, name) => [Internal(SetSession(info.(name := name)))] + Pushed(input[1..])
      case DataMessage(data, now) =>
        [Internal(ProcessData(data.(stamp := data.stamp.(receiveTime := now))))] + Pushed(input[1..])
      case StatusMessage => [Internal(MonitorStatus)] + Pushed(input[1..])
      case FromOther => Pushed(input[1..])
      case _ => []
  }

  /** The connection stays registered unless reading fails, ends, or yields an unknown message. */
  predicate StaysOpen(input: seq<Read>) {
    input == [] || input[0].Again?
    || (!input[0].ReadError? && !input[0].EndOfFile? && !input[0].UnknownMessage? && StaysOpen(input[1..]))
  }

  class Connection {
    const queue: MessageQueue<DeviceRequest>

    constructor (queue: MessageQueue<DeviceRequest>)
      ensures this.queue == queue
    {
      this.queue := queue;
    }

    /** The read loop; running out of `input` is a read that would block. Messages become requests in
        socket order, those of another origin are skipped. */
    method ReadLoop(input: seq<Read>) returns (status: bool)
      modifies queue
      ensures queue.items == old(queue.items) + Pushed(input)
      ensures status == StaysOpen(input)
    {
      var i := 0;
      status := true;
      while status
        invariant i <= |input|
        invariant status ==> queue.items + Pushed(input[i..]) == old(queue.items) + Pushed(input)
        invariant status ==> StaysOpen(input) == StaysOpen(input[i..])
        invariant !status ==> queue.items == old(queue.items) + Pushed(input) && !StaysOpen(input)
        decreases |input| - i, status
      {
        if i == |input| {
          return true;
        }
        var message := input[i];
        assert input[i..][1..] == input[i + 1..];
        i := i + 1;
        match message
        case Again => return true;
        case ReadError => return false;
        case EndOfFile => return false;
        case FromOther =>
        case SessionMessage(info, name) => queue.Push(Internal(SetSession(info.(name := name))));
        case DataMessage(data, now) =>
          queue.Push(Internal(ProcessData(data.(stamp := data.stamp.(receiveTime := now)))));
        case StatusMessage => queue.Push(Internal(MonitorStatus));
        case UnknownMessage => status := false;
      }
    }
  }

  class MonitorDevice {
    const data: DeviceData
    var state: DeviceState
    var session: string
    var info: SessionInfo
    var connection: Connection?
    var watched: bool
    var timers: nat
    var running: set<nat>
    const queue: MessageQueue<DeviceRequest>
    const dispatcher: MessageQueue<DispatchRequest>
    const database: MessageQueue<StoreRequest>
    const sources: SafeList<DataSource>

    ghost function View(): Monitor
      reads this, sources
    {
      Monitor(data, state, session, info, connection != null, watched, sources.items, timers, running)
    }

    ghost predicate Valid()
      reads sources
    {
      sources.added == [] && sources.removed == []
    }

    constructor (data: DeviceData, dispatcher: MessageQueue<DispatchRequest>, database: MessageQueue<StoreRequest>)
      ensures View() == NewMonitor(data).(state := Unknown) && queue.items == [] && Valid()
      ensures this.dispatcher == dispatcher && this.database == database && fresh(queue) && fresh(sources)
    {
      this.data := data;
      state, session, info, connection := Unknown, "", NO_SESSION, null;
      watched, timers, running := false, 0, {};
      queue := new MessageQueue();
      this.dispatcher, this.database := dispatcher, database;
      sources := new SafeList();
    }

    /** Everything a handler does: the device, its own queue, the dispatcher and the database. */
    twostate predicate Did(outcome: Outcome)
      reads this, sources, queue, dispatcher, database
    {
      && View() == outcome.monitor
      && queue.items == old(queue.items) + outcome.requeued
      && dispatcher.items == old(dispatcher.items) + outcome.dispatched
      && database.items == old(database.items) + outcome.stored
    }

    method CreateConnection() returns (created: bool)
      modifies this`connection
      ensures created == (old(connection) == null) && connection != null
      ensures !created ==> connection == old(connection)
    {
      if connection != null {
        return false;
      }
      connection := new Connection(queue);
      return true;
    }

    method UpdateState(next: DeviceState)
      modifies this`state, database
      ensures state == next
      ensures database.items == old(database.items) + if next.Disconnected? then EndOf(old(View())) else []
    {
      state := next;
      if next.Disconnected? {
        if |session| > 0 {
          database.Push(Request(None, EndSession, map[SessionHash := Text(session)]));
        }
      }
    }

    /** New timers for the three lanes, whose handles replace the old ones, and the lists they tick. */
    method StartUpdateLanes()
      requires Valid()
      modifies this`timers, this`running, sources
      ensures Valid() && View() == StartLanes(old(View()))
    {
      var started := timers;
      timers := timers + 1;
      ConfigUpdateLanes(sources, info);
      running := running + {started};
    }

    /** Stops the timers the handles lead to. */
    method StopUpdateLanes()
      modifies this`running
      ensures View() == StopLanes(old(View()))
    {
      if timers > 0 {
        running := running - {timers - 1};
      }
    }

    /** A lane timer fires: its sources are asked for over the connection. */
    method LaneTimer(lane: Lane) returns (updated: seq<DataSource>, fault: bool)
      ensures fault <==> TickFaults(View(), lane)
      ensures !fault ==> updated == Ticked(sources.items, lane)
    {
      updated, fault := Tick(sources, lane, connection != null);
    }

    /** Stops the lanes and releases the connection; that destroys it, and its destructor reports the
        device disconnected. */
    method DeleteConnection()
      requires connection != null
      modifies this`connection, this`watched, this`running, this`state, database
      ensures Did(Dropped(old(View())))
    {
      StopUpdateLanes();
      watched := false;
      connection := null;
      UpdateState(Disconnected);
    }

    method Answer(rq: DeviceRequest, status: Value, why: Why)
      modifies dispatcher
      ensures dispatcher.items == old(dispatcher.items) + [Reply(rq, status, why)]
    {
      var args: Args := map[];
      if RequestId in rq.args {
        args := Emplace(args, RequestId, rq.args[RequestId]);
      }
      args := Emplace(args, Status, status);
      args := Emplace(args, Reason, Because(why));
      dispatcher.Push(Request(rq.client, SendStatus, args));
    }

    method DoConnect(rq: DeviceRequest, link: Link)
      requires rq.action.Connect?
      modifies this`connection, this`watched, this`running, this`state, queue, dispatcher, database
      ensures Did(HandleMonitor(link, old(View()), rq))
    {
      var created := CreateConnection();
      if !created {
        Answer(rq, Error, FailedToCreateConnectionObject);
        return;
      }
      if !link.connects {
        DeleteConnection();
        Answer(rq, Error, ConnectionFailed);
        return;
      }
      watched := true;
      queue.Push(Request(rq.client, SendDescriptor, rq.args));
    }

    /** `fault`: the handler called through a null connection. */
    method DoSendDescriptor(rq: DeviceRequest, link: Link) returns (fault: bool)
      requires rq.action.SendDescriptor?
      modifies this`state, dispatcher, database
      ensures Did(HandleMonitor(link, old(View()), rq)) && fault == HandleMonitor(link, old(View()), rq).fault
    {
      if connection == null {
        return true;
      }
      if !link.sends {
        Answer(rq, Error, FailedToSendDescriptor);
        return false;
      }
      UpdateState(Connected);
      Answer(rq, Okay, ConnectedToDevice);
      return false;
    }

    method DoSetSession(rq: DeviceRequest, link: Link)
      requires rq.action.SetSession?
      modifies this`info, this`session, this`state, queue, database
      ensures Did(HandleMonitor(link, old(View()), rq))
    {
      info := rq.action.info;
      session := rq.action.info.hash;
      UpdateState(SessionSet);
      database.Push(Request(None, AddSession(rq.action.info), map[DeviceHash := Text(data.hash)]));
      queue.Push(Internal(StartStream));
    }

    /** The connection is taken off the event loop; the drop follows from there. */
    method DoDisconnect(rq: DeviceRequest, link: Link) returns (fault: bool)
      requires rq.action.Disconnect?
      modifies this`watched, dispatcher
      ensures Did(HandleMonitor(link, old(View()), rq)) && fault == HandleMonitor(link, old(View()), rq).fault
    {
      if !state.Disconnected? {
        if connection == null {
          return true;
        }
        watched := false;
        Answer(rq, Okay, DeviceDisconnected);
      } else {
        Answer(rq, Error, DeviceNotConnected);
      }
      return false;
    }

    method DoStartStream(rq: DeviceRequest, link: Link)
      requires rq.action.StartStream? && Valid()
      modifies this`state, this`timers, this`running, sources
      ensures Did(HandleMonitor(link, old(View()), rq)) && Valid()
    {
      state := Collecting;
      StartUpdateLanes();
    }

    method DoStopStream(rq: DeviceRequest, link: Link)
      requires rq.action.StopStream?
      modifies this`state, this`running
      ensures Did(HandleMonitor(link, old(View()), rq))
    {
      StopUpdateLanes();
      state := Idle;
    }

    method DoStartCollecting(rq: DeviceRequest, link: Link)
      requires rq.action.StartDevice?
      modifies queue, dispatcher
      ensures Did(HandleMonitor(link, old(View()), rq))
    {
      if state.Connected? || state.Idle? {
        queue.Push(Internal(RequestSession));
        Answer(rq, Okay, CollectingRequested);
      } else if state.SessionSet? {
        queue.Push(Internal(StartStream));
        Answer(rq, Okay, CollectingStartRequested);
      } else {
        Answer(rq, Error, DeviceNotConnected);
      }
    }

    method DoStopCollecting(rq: DeviceRequest, link: Link)
      requires rq.action.StopDevice?
      modifies queue, dispatcher
      ensures Did(HandleMonitor(link, old(View()), rq))
    {
      if state.Collecting? {
        queue.Push(Internal(StopStream));
        Answer(rq, Okay, CollectingStopRequested);
      } else {
        Answer(rq, Error, DeviceNotStreaming);
      }
    }

    /** The handler of a popped request does exactly what the rules say. */
    method RequestHandler(rq: DeviceRequest, link: Link) returns (fault: bool)
      requires Valid()
      modifies this`connection, this`watched, this`state, this`info, this`session, this`timers, this`running,
        queue, dispatcher, database, sources
      ensures Did(HandleMonitor(link, old(View()), rq)) && fault == HandleMonitor(link, old(View()), rq).fault
      ensures Valid()
    {
      fault := false;
      match rq.action
      case Connect => DoConnect(rq, link);
      case Disconnect => fault := DoDisconnect(rq, link);
      case SendDescriptor => fault := DoSendDescriptor(rq, link);
      case RequestSession => fault := connection == null;
      case SetSession(_) => DoSetSession(rq, link);
      case StartDevice => DoStartCollecting(rq, link);
      case StopDevice => DoStopCollecting(rq, link);
      case StartStream => DoStartStream(rq, link);
      case StopStream => DoStopStream(rq, link);
      case ProcessData(sample) =>
        database.Push(Request(None, AddData(sample), map[SessionHash := Text(session)]));
      case MonitorStatus =>
    }
  }
}
