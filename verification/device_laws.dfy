/** What each device request means, by the state it meets (source/MonitorDevice.cpp). */
module DeviceLaws {
  import opened Protocol
  import opened Backend
  import opened Lanes
  import opened MonitorRules

  /** Exactly one status goes back and says this; nothing goes to the database. */
  predicate Answered(outcome: Outcome, rq: DeviceRequest, status: Value, why: Why) {
    && !outcome.fault && outcome.stored == []
    && |outcome.dispatched| == 1 && Says(outcome.dispatched[0], rq.client, rq.args, status, why)
  }

  /** Refused: the device and its queue stay as they were. */
  predicate Refused(outcome: Outcome, m: Monitor, rq: DeviceRequest, why: Why) {
    Answered(outcome, rq, Error, why) && outcome.monitor == m && outcome.requeued == []
  }

  /** A request without client and arguments follows in the device's queue. */
  predicate Follows(outcome: Outcome, action: DeviceAction) {
    outcome.requeued == [Request(None, action, map[])]
  }

  /** The end of the session a device held is asked for, if it ever held one. */
  predicate AsksEnd(stored: seq<StoreRequest>, session: string) {
    if session == "" then stored == [] else stored == [Request(None, EndSession, map[SessionHash := Text(session)])]
  }

  /** Only the lane timers the device has handles of are stopped. */
  ghost predicate NewestStopped(m: Monitor, m': Monitor) {
    && m' == m.(state := m'.state, running := m'.running, connected := m'.connected, watched := m'.watched)
    && forall t :: t in m'.running <==> t in m.running && t + 1 != m.timers
  }

  /** Stopping: Okay exactly while collecting; the StopStream that follows makes the device idle and
      stops its newest timers. In any other state it is refused. */
  lemma StopLaw(link: Link, m: Monitor, rq: DeviceRequest)
    requires rq.action.StopDevice?
    ensures var outcome := HandleMonitor(link, m, rq);
            if m.state == Collecting then
              && Answered(outcome, rq, Okay, CollectingStopRequested) && outcome.monitor == m && Follows(outcome, StopStream)
              && var next := HandleMonitor(link, m, outcome.requeued[0]);
                 && next.monitor.state == Idle && NewestStopped(m, next.monitor)
                 && next.monitor.connected == m.connected && next.monitor.watched == m.watched
                 && next.requeued == [] && next.dispatched == [] && next.stored == [] && !next.fault
            else Refused(outcome, m, rq, DeviceNotStreaming)
  {
  }

  /** Starting: a connected or idle device asks its monitor for a session, one that has its session
      starts the stream, which makes it collect with a new set of timers over the lanes of its session;
      in any other state it is refused. */
  lemma StartLaw(link: Link, m: Monitor, rq: DeviceRequest)
    requires rq.action.StartDevice?
    ensures var outcome := HandleMonitor(link, m, rq);
            if m.state == Connected || m.state == Idle then
              && Answered(outcome, rq, Okay, CollectingRequested) && outcome.monitor == m && Follows(outcome, RequestSession)
              && var next := HandleMonitor(link, m, outcome.requeued[0]);
                 next.fault == !m.connected && next.monitor == m && next.requeued == [] && next.dispatched == [] && next.stored == []
            else if m.state == SessionSet then
              && Answered(outcome, rq, Okay, CollectingStartRequested) && outcome.monitor == m && Follows(outcome, StartStream)
              && Streams(m, HandleMonitor(link, m, outcome.requeued[0]))
            else Refused(outcome, m, rq, DeviceNotConnected)
  {
    hide Configured;
  }

  /** The device collects; a timer set that was not running ticks its lanes, and is the newest. */
  ghost predicate Streams(m: Monitor, outcome: Outcome) {
    && outcome.monitor == m.(state := Collecting, sources := Configured(m.info), timers := m.timers + 1,
                             running := outcome.monitor.running)
    && (forall t :: t in outcome.monitor.running <==> t in m.running || t == m.timers)
    && outcome.requeued == [] && outcome.dispatched == [] && outcome.stored == [] && !outcome.fault
  }

  lemma StreamLaw(link: Link, m: Monitor, rq: DeviceRequest)
    requires rq.action.StartStream?
    ensures Streams(m, HandleMonitor(link, m, rq))
  {
    hide Configured;
  }

  /** Connecting: refused while there is a connection; a failed attempt leaves the device disconnected and
      asks for the end of its session; otherwise the descriptor follows for the same client, and the status
      comes with it: Okay makes the device Connected. */
  lemma ConnectLaw(link: Link, m: Monitor, rq: DeviceRequest)
    requires rq.action.Connect?
    ensures var outcome := HandleMonitor(link, m, rq);
            if m.connected then Refused(outcome, m, rq, FailedToCreateConnectionObject)
            else if !link.connects then
              && |outcome.dispatched| == 1 && Says(outcome.dispatched[0], rq.client, rq.args, Error, ConnectionFailed)
              && outcome.requeued == [] && AsksEnd(outcome.stored, m.session) && !outcome.fault
              && outcome.monitor.state == Disconnected && !outcome.monitor.connected && NewestStopped(m, outcome.monitor)
            else
              && outcome.monitor == m.(connected := true, watched := true) && outcome.dispatched == [] && outcome.stored == []
              && outcome.requeued == [Request(rq.client, SendDescriptor, rq.args)] && !outcome.fault
              && var next := HandleMonitor(link, outcome.monitor, outcome.requeued[0]);
                 && Answered(next, rq, if link.sends then Okay else Error, if link.sends then ConnectedToDevice else FailedToSendDescriptor)
                 && next.requeued == []
                 && next.monitor == outcome.monitor.(state := if link.sends then Connected else m.state)
  {
  }

  /** Disconnecting: refused once disconnected; otherwise Okay, the connection leaves the event loop, and the
      drop that follows disconnects the device, asks for the end of its session and stops its newest timers. */
  lemma DisconnectLaw(link: Link, m: Monitor, rq: DeviceRequest)
    requires rq.action.Disconnect? && (m.connected || m.state == Disconnected)
    ensures var outcome := HandleMonitor(link, m, rq);
            if m.state == Disconnected then Refused(outcome, m, rq, DeviceNotConnected)
            else
              && Answered(outcome, rq, Okay, DeviceDisconnected) && outcome.requeued == []
              && outcome.monitor == m.(watched := false)
              && var drop := Dropped(outcome.monitor);
                 && drop.monitor.state == Disconnected && !drop.monitor.connected && NewestStopped(m, drop.monitor)
                 && AsksEnd(drop.stored, m.session) && drop.requeued == [] && drop.dispatched == []
  {
  }

  /** A session: the device holds it from then on, asks the database for its row, and the stream follows. */
  lemma SessionLaw(link: Link, m: Monitor, rq: DeviceRequest)
    requires rq.action.SetSession?
    ensures var info, outcome := rq.action.info, HandleMonitor(link, m, rq);
            && outcome.monitor == m.(info := info, session := info.hash, state := SessionSet)
            && outcome.stored == [Request(None, AddSession(info), map[DeviceHash := Text(m.data.hash)])]
            && Follows(outcome, StartStream) && outcome.dispatched == [] && !outcome.fault
  {
  }

  /** A sample goes to the database as it came, under the hash of the session the device holds. */
  lemma SampleLaw(link: Link, m: Monitor, rq: DeviceRequest)
    requires rq.action.ProcessData?
    ensures var outcome := HandleMonitor(link, m, rq);
            && outcome.monitor == m && outcome.requeued == [] && outcome.dispatched == [] && !outcome.fault
            && outcome.stored == [Request(None, AddData(rq.action.data), map[SessionHash := Text(m.session)])]
  {
  }

  /** The other requests: the end of a stream makes the device idle and stops its newest timers; the
      descriptor is answered by what became of it; asking for a session and hearing a status change
      nothing. */
  lemma RemainingLaws(link: Link, m: Monitor, rq: DeviceRequest)
    ensures var outcome := HandleMonitor(link, m, rq);
            && (rq.action.StopStream? ==>
                  && outcome.monitor.state == Idle && NewestStopped(m, outcome.monitor)
                  && outcome.monitor.connected == m.connected && outcome.monitor.watched == m.watched
                  && outcome.requeued == [] && outcome.dispatched == [] && outcome.stored == [] && !outcome.fault)
            && (rq.action.SendDescriptor? && m.connected ==>
                  && Answered(outcome, rq, if link.sends then Okay else Error, if link.sends then ConnectedToDevice else FailedToSendDescriptor)
                  && outcome.monitor == m.(state := if link.sends then Connected else m.state) && outcome.requeued == [])
            && (rq.action.RequestSession? || rq.action.MonitorStatus? ==>
                  outcome.monitor == m && outcome.requeued == [] && outcome.dispatched == [] && outcome.stored == [])
  {
  }

  /** A lost connection: the device is disconnected, its newest timers stop, the end of its session is asked
      for, and nobody is told. */
  lemma DropLaw(m: Monitor)
    ensures var drop := Dropped(m);
            && drop.monitor.state == Disconnected && !drop.monitor.connected && !drop.monitor.watched
            && NewestStopped(m, drop.monitor) && AsksEnd(drop.stored, m.session)
            && drop.requeued == [] && drop.dispatched == [] && !drop.fault
  {
  }
}
