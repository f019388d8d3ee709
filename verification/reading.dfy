/** Reading from a monitor is the Incoming events of a run (source/Connection.cpp). */
module Reading {
  import opened Protocol
  import opened Collector
  import opened MonitorRules
  import opened Backend
  import opened MonitorDevices
  import opened Positions

  /** A read after which the loop does not go on. */
  predicate Ends(read: Read) {
    read.Again? || read.ReadError? || read.EndOfFile? || read.UnknownMessage?
  }

  predicate IsMessage(read: Read) {
    read.SessionMessage? || read.DataMessage? || read.StatusMessage?
  }

  /** The request a message becomes: a session gets its name and a sample its receive time, nothing else
      of them changes. */
  predicate Becomes(read: Read, rq: DeviceRequest) {
    match read
    case SessionMessage(info, name) =>
      rq == Request(None, SetSession(SessionInfo(info.hash, name, info.coreCount, info.fastLane, info.paceLane, info.slowLane)), map[])
    case DataMessage(data, now) =>
      rq == Request(None, ProcessData(Data(data.what, data.head, data.entries,
                                           Stamp(data.stamp.systemTime, data.stamp.monotonicTime, now), data.trace)), map[])
    case StatusMessage => rq == Request(None, MonitorStatus, map[])
    case _ => false
  }

  /** The loop gets as far as read `n`. */
  predicate Reaches(input: seq<Read>, n: nat) {
    n <= |input| && forall k | 0 <= k < n :: !Ends(input[k])
  }

  /** Each message the loop gets to is taken, in order, as the request it becomes ... */
  lemma {:induction false} MessageIsPushed(input: seq<Read>, n: nat)
    requires n < |input| && Reaches(input, n + 1) && IsMessage(input[n])
    ensures var place := Rank(input, IsMessage, n);
            place < |Pushed(input)| && Becomes(input[n], Pushed(input)[place])
  {
    assert !Ends(input[0]);
    if n > 0 {
      assert forall k | 0 <= k < n :: input[1..][k] == input[k + 1];
      MessageIsPushed(input[1..], n - 1);
    }
  }

  /** ... and nothing else is, up to the read that ends the loop; the connection stays registered if and
      only if there was merely nothing more to read. */
  lemma {:induction false} OnlyMessagesArePushed(input: seq<Read>, n: nat)
    requires Reaches(input, n) && (n < |input| ==> Ends(input[n]))
    ensures |Pushed(input)| == Rank(input, IsMessage, n)
    ensures StaysOpen(input) <==> n == |input| || input[n].Again?
  {
    if n > 0 {
      assert !Ends(input[0]);
      assert forall k | 0 <= k < n - 1 :: input[1..][k] == input[k + 1];
      OnlyMessagesArePushed(input[1..], n - 1);
    }
  }

  // ---- as events of a run ----

  /** The samples read are numbered on from `trace`, as a run numbers them. */
  predicate Numbered(requests: seq<DeviceRequest>, trace: nat) {
    requests == []
    || if requests[0].action.ProcessData? then requests[0].action.data.trace == trace && Numbered(requests[1..], trace + 1)
       else Numbered(requests[1..], trace)
  }

  /** The event puts this request behind the queue of the device. */
  predicate Brings(e: Event, i: nat, rq: DeviceRequest) {
    && e.Incoming? && e.device == i
    && rq == Request(None,
                     match e.report
                     case SessionReport(info) => SetSession(info)
                     case DataReport(data) => ProcessData(data)
                     case StatusReport => MonitorStatus,
                     map[])
  }

  predicate FromMessage(rq: DeviceRequest) {
    rq.client == None && rq.args == map[] && (rq.action.SetSession? || rq.action.ProcessData? || rq.action.MonitorStatus?)
  }

  function EventFor(i: nat, rq: DeviceRequest): (e: Event)
    requires FromMessage(rq)
    ensures Brings(e, i, rq)
  {
    Incoming(i, match rq.action
                case SetSession(info) => SessionReport(info)
                case ProcessData(data) => DataReport(data)
                case _ => StatusReport)
  }

  lemma {:induction false} PushedFromMessages(input: seq<Read>)
    ensures forall k | 0 <= k < |Pushed(input)| :: FromMessage(Pushed(input)[k])
  {
    if input != [] {
      PushedFromMessages(input[1..]);
    }
  }

  lemma Arrives(w: World, i: nat, rq: DeviceRequest) returns (w1: World)
    requires w.phase.Running? && i < |w.devices| && w.devices[i].monitor.connected && FromMessage(rq)
    requires rq.action.ProcessData? ==> rq.action.data.trace == w.traces
    ensures Enabled(w, EventFor(i, rq)) && w1 == Next(w, EventFor(i, rq))
    ensures w1.traces == if rq.action.ProcessData? then w.traces + 1 else w.traces
    ensures w1 == w.(devices := Deliver(w.devices, i, rq), owners := w1.owners, traces := w1.traces)
  {
    hide HandleStore, HandleMonitor;
    w1 := Next(w, EventFor(i, rq));
  }

  /** Only the device's queue, and the record of the run, have changed. */
  ghost predicate Queued(w: World, w': World, i: nat, requests: seq<DeviceRequest>)
    requires i < |w.devices|
  {
    && |w'.devices| == |w.devices| && w'.devices[i] == w.devices[i].(queue := w.devices[i].queue + requests)
    && (forall k | 0 <= k < |w.devices| && k != i :: w'.devices[k] == w.devices[k])
    && w' == w.(devices := w'.devices, owners := w'.owners, traces := w'.traces)
  }

  lemma QueuedMore(w: World, w1: World, w2: World, i: nat, rq: DeviceRequest, rest: seq<DeviceRequest>)
    requires i < |w.devices| && w1 == w.(devices := Deliver(w.devices, i, rq), owners := w1.owners, traces := w1.traces)
    requires Queued(w1, w2, i, rest)
    ensures Queued(w, w2, i, [rq] + rest)
  {
    assert w.devices[i].queue + [rq] + rest == w.devices[i].queue + ([rq] + rest);
  }

  lemma {:induction false} RequestsArrive(w: World, i: nat, requests: seq<DeviceRequest>) returns (es: seq<Event>)
    requires w.phase.Running? && i < |w.devices| && w.devices[i].monitor.connected && Numbered(requests, w.traces)
    requires forall k | 0 <= k < |requests| :: FromMessage(requests[k])
    ensures |es| == |requests| && forall k | 0 <= k < |es| :: Brings(es[k], i, requests[k])
    ensures Possible(w, es) && Queued(w, After(w, es), i, requests)
    decreases |requests|
  {
    hide Next, Enabled, FromMessage, Brings;
    if requests == [] {
      es := [];
      assert w.devices[i].queue + [] == w.devices[i].queue;
    } else {
      var rq, rest := requests[0], requests[1..];
      var w1 := Arrives(w, i, rq);
      es := RequestsArrive(w1, i, rest);
      OneEventMore(w, EventFor(i, rq), es);
      QueuedMore(w, w1, After(w1, es), i, rq, rest);
      assert [rq] + rest == requests;
      hide Queued, After, Possible, EventFor;
      es := [EventFor(i, rq)] + es;
    }
  }

  /** What a read loop pushes for a connected device arrives as Incoming events of a possible run: one
      event for each request, in order, and nothing else changes. */
  lemma ReadingIsIncoming(w: World, i: nat, input: seq<Read>) returns (es: seq<Event>)
    requires w.phase.Running? && i < |w.devices| && w.devices[i].monitor.connected && Numbered(Pushed(input), w.traces)
    ensures |es| == |Pushed(input)| && forall k | 0 <= k < |es| :: Brings(es[k], i, Pushed(input)[k])
    ensures Possible(w, es) && Queued(w, After(w, es), i, Pushed(input))
  {
    hide Pushed, Possible, After, Queued, Brings, FromMessage;
    PushedFromMessages(input);
    es := RequestsArrive(w, i, Pushed(input));
  }
}
