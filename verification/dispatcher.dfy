/** The dispatcher object (source/Dispatcher.cpp) and the control client's read loop
    (source/ControlClient.cpp). */
module Dispatchers {
  import opened Protocol
  import opened Backend
  import opened MonitorRules
  import opened Routing
  import opened MonitorDevices
  import opened DeviceManagers
  import opened Collector
  import opened Positions

  class Dispatcher {
    const queue: MessageQueue<DispatchRequest>
    const database: MessageQueue<StoreRequest>
    const outbox: MessageQueue<Sent>
    const manager: DeviceManager
    var exited: bool

    constructor (database: MessageQueue<StoreRequest>, outbox: MessageQueue<Sent>, manager: DeviceManager)
      ensures queue.items == [] && fresh(queue) && !exited
      ensures this.database == database && this.outbox == outbox && this.manager == manager
    {
      queue := new MessageQueue();
      this.database, this.outbox, this.manager, exited := database, outbox, manager, false;
    }

    ghost function DeviceQueues(): set<MessageQueue<DeviceRequest>>
      reads manager.devices
    {
      set d | d in manager.devices.items :: d.queue
    }

    /** Device requests go to the registered device, or are answered when there is none. */
    method ToRegistered(rq: DispatchRequest, hash: string, next: DeviceRequest) returns (target: MonitorDevice?)
      modifies queue, DeviceQueues()
      ensures target == null <==> hash !in old(manager.States())
      ensures target == null ==> queue.items == old(queue.items) + [Routing.Unknown(rq.client)]
      ensures target != null ==>
                && target in manager.devices.items && target.data.hash == hash && queue.items == old(queue.items)
                && target.queue.items == old(target.queue.items) + [next]
      ensures forall q | q in DeviceQueues() && (target == null || q != target.queue) :: q.items == old(q.items)
    {
      target := manager.GetDevice(hash);
      if target == null {
        var args: Args := map[];
        args := Emplace(args, Status, Error);
        args := Emplace(args, Reason, Because(NoSuchDevice));
        queue.Push(Request(rq.client, SendStatus, args));
        return;
      }
      assert target.queue in DeviceQueues();
      target.queue.Push(next);
    }

    /** The handler of a popped request hands it on exactly as routed; `written` tells whether a status
        could be written to its client. */
    method RequestHandler(rq: DispatchRequest, written: bool) returns (target: MonitorDevice?)
      requires rq.action.SendStatus? ==> Status in rq.args
      modifies this`exited, queue, database, outbox, DeviceQueues()
      ensures var route := RouteOf(rq);
              && exited == (old(exited) || route.Exit?)
              && database.items == old(database.items) + (if route.ToStore? then [route.store] else [])
              && outbox.items == old(outbox.items) + (if route.ToClient? && written then [route.sent] else [])
              && (!route.ToDevice? ==>
                    target == null && queue.items == old(queue.items) + if route.Back? then [route.again] else [])
              && (route.ToDevice? ==>
                    && (target == null <==> route.hash !in old(manager.States()))
                    && (target == null ==> queue.items == old(queue.items) + [Routing.Unknown(rq.client)])
                    && (target != null ==>
                          && target in manager.devices.items && target.data.hash == route.hash
                          && queue.items == old(queue.items)
                          && target.queue.items == old(target.queue.items) + [route.device]))
      ensures forall q | q in DeviceQueues() && (target == null || q != target.queue) :: q.items == old(q.items)
    {
      target := null;
      match rq.action
      case InitDatabase => database.Push(Request(rq.client, InitTables, rq.args));
      case QuitCollector => queue.Push(Internal(Quit));
      case GetDevices => database.Push(Request(rq.client, ListDevices, rq.args));
      case GetSessions(hash) => database.Push(Request(rq.client, ListSessions(hash), rq.args));
      case RemoveSession(hash) => database.Push(Request(rq.client, RemSession(hash), rq.args));
      case AddDevice(device) => database.Push(Request(rq.client, InsertDevice(device), rq.args));
      case RemoveDevice(hash) => database.Push(Request(rq.client, DeleteDevice(hash), rq.args));
      case ConnectDevice(hash) => target := ToRegistered(rq, hash, Request(rq.client, Connect, rq.args));
      case DisconnectDevice(hash) => target := ToRegistered(rq, hash, Request(rq.client, Disconnect, rq.args));
      case StartCollecting(hash) => target := ToRegistered(rq, hash, Request(rq.client, StartDevice, rq.args));
      case StopCollecting(hash) => target := ToRegistered(rq, hash, Request(rq.client, StopDevice, rq.args));
      case SendStatus => var answered := DoSendStatus(rq, written);
      case Quit => exited := true;
    }

    /** False when the status could not be written. */
    method DoSendStatus(rq: DispatchRequest, written: bool) returns (answered: bool)
      requires rq.action.SendStatus? && Status in rq.args
      modifies outbox
      ensures answered == (rq.client.None? || written)
      ensures outbox.items == old(outbox.items)
                              + if rq.client.Some? && written then [Sent(rq.client.value, StatusOf(rq.args))] else []
    {
      if rq.client.None? {
        return true;
      }
      var requestId, what, reason := Text(""), WhatUnset, Text("");
      if RequestId in rq.args {
        requestId := rq.args[RequestId];
      }
      if Status in rq.args {
        if rq.args[Status] == Okay {
          what := WhatOkay;
        } else if rq.args[Status] == Busy {
          what := WhatBusy;
        } else {
          what := WhatError;
        }
      }
      if Reason in rq.args {
        reason := rq.args[Reason];
      }
      if written {
        outbox.Push(Sent(rq.client.value, Message.StatusMessage(requestId, what, reason)));
      }
      return written;
    }
  }

  // ---- the control client ----

  /** What one read of the client's socket yields; `written` tells whether a session message could be
      written back. */
  datatype ControlRead =
    | Blocked | Failed | Ended | FromElsewhere | Asked(request: ControlRequest, written: bool) | UnknownRequest

  /** The requests accepted from a series of reads, up to the read that ends the loop. */
  function Taken(input: seq<ControlRead>): seq<(ControlRequest, bool)> {
    if input == [] then []
    else match input[0]
      case Asked(rq, written) => [(rq, written)] + Taken(input[1..])
      case FromElsewhere => Taken(input[1..])
      case _ => []
  }

  /** The client stays registered unless reading fails, ends, or yields an unknown request. */
  predicate StaysRegistered(input: seq<ControlRead>) {
    input == [] || input[0].Blocked?
    || (!input[0].Failed? && !input[0].Ended? && !input[0].UnknownRequest? && StaysRegistered(input[1..]))
  }

  predicate StopsReading(read: ControlRead) {
    read.Blocked? || read.Failed? || read.Ended? || read.UnknownRequest?
  }

  predicate IsRequest(read: ControlRead) {
    read.Asked?
  }

  /** Each request the loop gets to is taken as it is, in order ... */
  lemma {:induction false} RequestIsTaken(input: seq<ControlRead>, n: nat)
    requires n < |input| && IsRequest(input[n]) && forall k | 0 <= k < n :: !StopsReading(input[k])
    ensures var place := Rank(input, IsRequest, n);
            place < |Taken(input)| && Taken(input)[place] == (input[n].request, input[n].written)
  {
    if n > 0 {
      assert !StopsReading(input[0]);
      assert forall k | 0 <= k < n - 1 :: input[1..][k] == input[k + 1];
      RequestIsTaken(input[1..], n - 1);
    }
  }

  /** ... and nothing else is, up to the read that ends the loop. */
  lemma {:induction false} OnlyRequestsAreTaken(input: seq<ControlRead>, n: nat)
    requires n <= |input| && (forall k | 0 <= k < n :: !StopsReading(input[k])) && (n < |input| ==> StopsReading(input[n]))
    ensures |Taken(input)| == Rank(input, IsRequest, n)
    ensures StaysRegistered(input) <==> n == |input| || input[n].Blocked?
  {
    if n > 0 {
      assert !StopsReading(input[0]);
      assert forall k | 0 <= k < n - 1 :: input[1..][k] == input[k + 1];
      OnlyRequestsAreTaken(input[1..], n - 1);
    }
  }

  function Dispatched(client: nat, ticket: nat, taken: seq<(ControlRequest, bool)>): seq<DispatchRequest>
    decreases |taken|
  {
    if taken == [] then []
    else [Accept(Origin(client, ticket), taken[0].0, taken[0].1)] + Dispatched(client, ticket + 1, taken[1..])
  }

  function WrittenBack(client: nat, ticket: nat, taken: seq<(ControlRequest, bool)>): seq<Sent>
    decreases |taken|
  {
    if taken == [] then []
    else
      (if taken[0].0.command.AskSession? && taken[0].1 then [Sent(Origin(client, ticket), SetSessionMessage)] else [])
      + WrittenBack(client, ticket + 1, taken[1..])
  }

  class ControlClient {
    const client: nat
    const dispatcher: MessageQueue<DispatchRequest>
    const outbox: MessageQueue<Sent>

    constructor (client: nat, dispatcher: MessageQueue<DispatchRequest>, outbox: MessageQueue<Sent>)
      ensures this.client == client && this.dispatcher == dispatcher && this.outbox == outbox
    {
      this.client, this.dispatcher, this.outbox := client, dispatcher, outbox;
    }

    method Handle(rq: ControlRequest, written: bool, ticket: nat)
      modifies dispatcher, outbox
      ensures dispatcher.items == old(dispatcher.items) + [Accept(Origin(client, ticket), rq, written)]
      ensures outbox.items == old(outbox.items)
                              + if rq.command.AskSession? && written then [Sent(Origin(client, ticket), SetSessionMessage)] else []
    {
      var args: Args := Emplace(map[], RequestId, Text(rq.id));
      match rq.command {
      case AskSession =>
        if written {
          outbox.Push(Sent(Origin(client, ticket), SetSessionMessage));
        }
        args := Emplace(args, Status, if written then Okay else Error);
        args := Emplace(args, Reason, Because(if written then ControlClientSessionSet else FailedToSetSession));
      case AskDevices =>
      case _ =>
        if rq.enforced {
          args := Emplace(args, Forced, True);
        }
      }
      dispatcher.Push(Request(Some(Origin(client, ticket)), ActionFor(rq.command), args));
    }

    /** Requests are accepted in socket order, each becoming one dispatcher request. */
    method ReadLoop(input: seq<ControlRead>, first: nat) returns (status: bool, next: nat)
      modifies dispatcher, outbox
      ensures dispatcher.items == old(dispatcher.items) + Dispatched(client, first, Taken(input))
      ensures outbox.items == old(outbox.items) + WrittenBack(client, first, Taken(input))
      ensures next == first + |Taken(input)| && status == StaysRegistered(input)
    {
      var i := 0;
      status, next := true, first;
      while status
        invariant i <= |input|
        invariant status ==>
            && dispatcher.items + Dispatched(client, next, Taken(input[i..])) == old(dispatcher.items) + Dispatched(client, first, Taken(input))
            && outbox.items + WrittenBack(client, next, Taken(input[i..])) == old(outbox.items) + WrittenBack(client, first, Taken(input))
            && next + |Taken(input[i..])| == first + |Taken(input)| && StaysRegistered(input[i..]) == StaysRegistered(input)
        invariant !status ==>
            && dispatcher.items == old(dispatcher.items) + Dispatched(client, first, Taken(input))
            && outbox.items == old(outbox.items) + WrittenBack(client, first, Taken(input))
            && next == first + |Taken(input)| && !StaysRegistered(input)
        decreases |input| - i, status
      {
        if i == |input| {
          return;
        }
        var read := input[i];
        assert input[i..][1..] == input[i + 1..];
        i := i + 1;
        match read
        case Blocked => return;
        case Failed => status := false;
        case Ended => status := false;
        case FromElsewhere =>
        case UnknownRequest => status := false;
        case Asked(rq, written) =>
          assert Taken(input[i - 1..]) == [(rq, written)] + Taken(input[i..]);
          Handle(rq, written, next);
          next := next + 1;
      }
    }
  }

  function ControlEvents(client: nat, taken: seq<(ControlRequest, bool)>): seq<Event> {
    if taken == [] then [] else [Control(client, taken[0].0, taken[0].1)] + ControlEvents(client, taken[1..])
  }

  lemma ControlStep(w: World, client: nat, rq: ControlRequest, written: bool)
    requires w.phase.Running?
    ensures Enabled(w, Control(client, rq, written))
    ensures var w' := Next(w, Control(client, rq, written));
            && w'.phase.Running? && |w'.asked| == |w.asked| + 1
            && w'.dispatcher == w.dispatcher + Dispatched(client, |w.asked|, [(rq, written)])
            && w'.sent == w.sent + WrittenBack(client, |w.asked|, [(rq, written)])
  {
    assert [(rq, written)][1..] == [];
  }

  lemma DispatchedSplit(client: nat, ticket: nat, taken: seq<(ControlRequest, bool)>)
    requires taken != []
    ensures Dispatched(client, ticket, taken)
         == Dispatched(client, ticket, [taken[0]]) + Dispatched(client, ticket + 1, taken[1..])
    ensures WrittenBack(client, ticket, taken)
         == WrittenBack(client, ticket, [taken[0]]) + WrittenBack(client, ticket + 1, taken[1..])
  {
    assert [taken[0]][1..] == [];
  }

  lemma NothingRead(w: World, client: nat)
    ensures Possible(w, []) && After(w, []) == w
    ensures w.dispatcher == w.dispatcher + Dispatched(client, |w.asked|, []) && w.sent == w.sent + WrittenBack(client, |w.asked|, [])
  {
  }

  /** Reading is the Control events of a run: same dispatcher requests, same messages written. */
  lemma {:induction false} ReadingIsControlEvents(w: World, client: nat, taken: seq<(ControlRequest, bool)>)
    requires w.phase.Running?
    ensures Possible(w, ControlEvents(client, taken))
    ensures var w' := After(w, ControlEvents(client, taken));
            && w'.dispatcher == w.dispatcher + Dispatched(client, |w.asked|, taken)
            && w'.sent == w.sent + WrittenBack(client, |w.asked|, taken)
    decreases |taken|
  {
    hide Next, Enabled, Accept, Possible, After, Dispatched, WrittenBack;
    if taken == [] {
      NothingRead(w, client);
    } else {
      var e, rest := Control(client, taken[0].0, taken[0].1), taken[1..];
      ControlStep(w, client, taken[0].0, taken[0].1);
      ReadingIsControlEvents(Next(w, e), client, rest);
      OneEventMore(w, e, ControlEvents(client, rest));
      DispatchedSplit(client, |w.asked|, taken);
      Associate(w.dispatcher, Dispatched(client, |w.asked|, [taken[0]]), Dispatched(client, |w.asked| + 1, rest));
      Associate(w.sent, WrittenBack(client, |w.asked|, [taken[0]]), WrittenBack(client, |w.asked| + 1, rest));
    }
  }

  lemma Associate<T>(a: seq<T>, b: seq<T>, c: seq<T>)
    ensures a + (b + c) == a + b + c
  {
  }
}
