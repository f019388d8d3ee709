/** What handling one database request does (source/PQDatabase.cpp, source/SQLiteDatabase.cpp):
    the new tables and everything pushed or written on the way. */
module Backend {
  import opened Protocol
  import opened Like
  import opened Tables

  /** What the outside answers while one request is handled: whether the connection is open or
      can be reopened, which kinds of statement succeed, whether a direct write to the client
      succeeds, the time, and the order in which the tables are listed. */
  datatype Env = Env(
    now: nat, open: bool, drop: bool, create: bool, select: bool, delete: bool, insert: bool,
    update: bool, written: bool, deviceOrder: seq<nat>, sessionOrder: seq<nat>)

  predicate Lists(order: seq<nat>, ids: set<nat>) {
    && (forall i | 0 <= i < |order| :: order[i] in ids)
    && (forall id | id in ids :: id in order)
    && (forall i, j | 0 <= i < j < |order| :: order[i] != order[j])
  }

  /** The listing orders are orders of the present tables. */
  predicate Answers(env: Env, s: Store) {
    Lists(env.deviceOrder, s.devices.Keys) && Lists(env.sessionOrder, s.sessions.Keys)
  }

  /** Every statement succeeds and the clock is past zero. */
  predicate Healthy(env: Env) {
    env.now > 0 && env.open && env.drop && env.create && env.select && env.delete && env.insert && env.update
  }

  datatype Effect = Effect(
    store: Store, requeued: seq<StoreRequest>, dispatched: seq<DispatchRequest>, written: seq<Sent>,
    loaded: seq<DeviceData>)

  predicate Enforced(args: Args) {
    Forced in args && args[Forced] == True
  }

  /** Requests the collector makes of itself: nobody waits for an answer. */
  predicate StoreSilent(a: StoreAction) {
    a.CheckDatabase? || a.OpenStore? || a.CloseStore? || a.LoadDevices? || a.AddSession? || a.EndSession?
    || a.CleanSessions? || a.AddData?
  }

  /** Exactly one status goes back, to the client of the request and under its request id. */
  predicate AnswersOnce(effect: Effect, rq: StoreRequest) {
    && |effect.dispatched| == 1
    && var answer := effect.dispatched[0];
       && answer.action.SendStatus? && answer.client == rq.client
       && Status in answer.args && Forced !in answer.args
       && (if RequestId in rq.args then RequestId in answer.args && answer.args[RequestId] == rq.args[RequestId]
           else RequestId !in answer.args)
  }

  /** At most one list is written, to the client of the request; never a status. */
  predicate WritesListOnly(effect: Effect, rq: StoreRequest) {
    effect.written == []
    || (&& |effect.written| == 1 && rq.client == Some(effect.written[0].origin)
        && (effect.written[0].message.DeviceListMessage? || effect.written[0].message.SessionListMessage?))
  }

  function Silent(s: Store): Effect {
    Effect(s, [], [], [], [])
  }

  function Answered(s: Store, rq: StoreRequest, status: Value, why: Why): Effect {
    Effect(s, [], [Reply(rq, status, why)], [], [])
  }

  function Ended(hash: string): StoreRequest {
    Request(None, EndSession, map[SessionHash := Text(hash)])
  }

  /** One EndSession for each open row, in listing order. */
  function EndRequests(s: Store, order: seq<nat>): seq<StoreRequest>
    requires forall i | 0 <= i < |order| :: order[i] in s.sessions
  {
    if order == [] then []
    else
      var last := s.sessions[order[|order| - 1]];
      EndRequests(s, order[..|order| - 1]) + (if last.ended == 0 then [Ended(last.hash)] else [])
  }

  /** The listed devices whose hash is not known yet, each hash once. */
  function NewDevices(s: Store, order: seq<nat>, known: set<string>): seq<DeviceData>
    requires forall i | 0 <= i < |order| :: order[i] in s.devices
  {
    if order == [] then []
    else
      var earlier := NewDevices(s, order[..|order| - 1], known);
      var last := s.devices[order[|order| - 1]];
      if last.hash in known || (exists d | d in earlier :: d.hash == last.hash) then earlier else earlier + [last]
  }

  function DeviceEntries(s: Store, order: seq<nat>, registry: map<string, DeviceState>): seq<(DeviceData, DeviceState)>
    requires forall i | 0 <= i < |order| :: order[i] in s.devices
  {
    seq(|order|, i requires 0 <= i < |order| =>
      var device := s.devices[order[i]];
      (device, if device.hash in registry then registry[device.hash] else Unknown))
  }

  /** What a session list shows of a row; it is complete once it has ended. */
  function ShownSession(row: SessionRow): SessionEntry {
    SessionEntry(row.hash, row.name, row.started, row.ended, row.ended != 0)
  }

  /** The row is asked for: all are, or those of the one device the hash selects. */
  predicate AskedFor(d: Dialect, s: Store, hash: string, row: SessionRow) {
    hash == "" || Some(row.device) == Scalar(d, DeviceIds(d, s, hash))
  }

  function SessionEntries(d: Dialect, s: Store, order: seq<nat>, hash: string): seq<SessionEntry>
    requires forall i | 0 <= i < |order| :: order[i] in s.sessions
  {
    if order == [] then []
    else
      var last := s.sessions[order[|order| - 1]];
      SessionEntries(d, s, order[..|order| - 1], hash)
      + if AskedFor(d, s, hash, last) then [ShownSession(last)] else []
  }

  function InitEffect(d: Dialect, env: Env, s: Store, rq: StoreRequest): (effect: Effect)
    ensures AnswersOnce(effect, rq) && effect.requeued == [] && effect.written == [] && effect.loaded == []
  {
    if d.PostgreSQL? && !env.open then Answered(s, rq, Error, DatabaseConnectionError)
    else
      var s1 := if Enforced(rq.args) && env.drop then DropTables(s) else s;
      if env.create then Answered(s1.(created := true), rq, Okay, DatabaseInitComplete)
      else Answered(s1, rq, Error, DatabaseInitFailed)
  }

  function LoadEffect(env: Env, s: Store, registry: map<string, DeviceState>): (effect: Effect)
    requires Answers(env, s)
    ensures effect.store == s && effect.requeued == [] && effect.dispatched == [] && effect.written == []
  {
    if env.select && s.created then Silent(s).(loaded := NewDevices(s, env.deviceOrder, registry.Keys)) else Silent(s)
  }

  function CleanEffect(env: Env, s: Store): (effect: Effect)
    requires Answers(env, s)
    ensures effect == Silent(s).(requeued := effect.requeued)
  {
    if env.select && s.created then Silent(s).(requeued := EndRequests(s, env.sessionOrder)) else Silent(s)
  }

  /** A list is written to the client ahead of the status; the status tells only of the query. */
  function ListEffect(env: Env, s: Store, rq: StoreRequest, selected: bool, list: Message, failure: Why): (effect: Effect)
    requires list.DeviceListMessage? || list.SessionListMessage?
    ensures AnswersOnce(effect, rq) && WritesListOnly(effect, rq)
    ensures effect.store == s && effect.requeued == [] && effect.loaded == []
  {
    if !selected then Answered(s, rq, Error, QueryFailed)
    else if env.written && rq.client.Some? then
      Answered(s, rq, Okay, ListProvided).(written := [Sent(rq.client.value, list)])
    else Answered(s, rq, Okay, failure)
  }

  function AddDeviceEffect(d: Dialect, env: Env, s: Store, rq: StoreRequest, device: DeviceData): (effect: Effect)
    ensures AnswersOnce(effect, rq) && effect.written == [] && effect.loaded == []
    ensures effect.requeued == [] || effect.requeued == [Internal(LoadDevices)]
  {
    if !(env.select && s.created) then Answered(s, rq, Error, CannotCheckExistingDevice)
    else if Forced !in rq.args && DeviceIds(d, s, device.hash) != {} then
      Answered(s, rq, Error, DeviceAlreadyExists)
    else
      var s1 := if Enforced(rq.args) && env.delete then DeleteDevices(d, s, device.hash) else s;
      if (d.PostgreSQL? && Enforced(rq.args) && !env.delete) || !env.insert then
        Answered(s1, rq, Error, FailedToAddDevice)
      else
        Answered(InsertDeviceRow(d, s1, device), rq, Okay, DeviceAdded).(requeued := [Internal(LoadDevices)])
  }

  function RemoveDeviceEffect(d: Dialect, env: Env, s: Store, rq: StoreRequest, hash: string): (effect: Effect)
    ensures AnswersOnce(effect, rq) && effect.requeued == [] && effect.written == [] && effect.loaded == []
  {
    if !(env.select && s.created) then Answered(s, rq, Error, CannotCheckExistingDevice)
    else
      var s1 := if env.delete then DeleteDevices(d, s, hash) else s;
      if DeviceIds(d, s, hash) == {} then Answered(s1, rq, Error, NoSuchDevice)
      else if env.delete then Answered(s1, rq, Okay, DeviceRemoved)
      else Answered(s1, rq, Error, FailedToRemoveDevice)
  }

  /** A row already holding the hash is removed first. */
  function AddSessionEffect(d: Dialect, env: Env, s: Store, info: SessionInfo, deviceHash: string): (effect: Effect)
    ensures effect == Silent(effect.store)
  {
    var collides := env.select && s.created && SessionIds(d, s, info.hash) != {};
    var s1 := if collides && env.delete then DeleteSession(d, s, info.hash) else s;
    if !(env.insert && s.created) then Silent(s1)
    else match InsertSession(d, s1, info, deviceHash, env.now)
      case None => Silent(s1)
      case Some(s2) => Silent(s2)
  }

  function RemSessionEffect(d: Dialect, env: Env, s: Store, rq: StoreRequest, hash: string): (effect: Effect)
    ensures AnswersOnce(effect, rq) && effect.requeued == [] && effect.written == [] && effect.loaded == []
  {
    if !(env.select && s.created) then Answered(s, rq, Error, CannotCheckExistingSession)
    else if SessionIds(d, s, hash) == {} then Answered(s, rq, Error, NoSuchSession)
    else if env.delete then Answered(DeleteSession(d, s, hash), rq, Okay, SessionRemoved)
    else Answered(s, rq, Error, FailedToRemoveSession)
  }

  /** The session requests carry the hash their handlers insist on (they throw without it). */
  predicate WellFormed(rq: StoreRequest) {
    match rq.action
    case AddSession(_) => DeviceHash in rq.args && rq.args[DeviceHash].Text?
    case EndSession => SessionHash in rq.args && rq.args[SessionHash].Text?
    case AddData(_) => SessionHash in rq.args && rq.args[SessionHash].Text?
    case _ => true
  }

  function HandleStore(
    d: Dialect, env: Env, s: Store, registry: map<string, DeviceState>, rq: StoreRequest): (effect: Effect)
    requires Answers(env, s) && WellFormed(rq)
    ensures StoreSilent(rq.action) ==> effect.dispatched == [] && effect.written == []
    ensures !StoreSilent(rq.action) ==> AnswersOnce(effect, rq) && WritesListOnly(effect, rq)
    ensures rq.action.CleanSessions? ==> effect.requeued == [] || effect.requeued == EndRequests(s, env.sessionOrder)
    ensures !rq.action.CleanSessions? ==> effect.requeued == [] || (rq.action.InsertDevice? && effect.requeued == [Internal(LoadDevices)])
  {
    match rq.action
    case CheckDatabase => Silent(s)
    case OpenStore => Silent(s)
    case CloseStore => Silent(s)
    case InitTables => InitEffect(d, env, s, rq)
    case LoadDevices => LoadEffect(env, s, registry)
    case CleanSessions => CleanEffect(env, s)
    case ListDevices =>
      ListEffect(env, s, rq, env.select && s.created,
                 DeviceListMessage(DeviceEntries(s, env.deviceOrder, registry)), FailedToSendDeviceList)
    case ListSessions(hash) =>
      // The per-device form compares an integer column with LIKE, which PostgreSQL rejects.
      ListEffect(env, s, rq, env.select && s.created && (hash == "" || d.SQLite?),
                 SessionListMessage(SessionEntries(d, s, env.sessionOrder, hash)), FailedToSendSessionList)
    case InsertDevice(device) => AddDeviceEffect(d, env, s, rq, device)
    case DeleteDevice(hash) => RemoveDeviceEffect(d, env, s, rq, hash)
    case AddSession(info) => AddSessionEffect(d, env, s, info, rq.args[DeviceHash].text)
    case RemSession(hash) => RemSessionEffect(d, env, s, rq, hash)
    case EndSession =>
      if env.update && s.created then Silent(MarkEnded(d, s, rq.args[SessionHash].text, env.now)) else Silent(s)
    case AddData(data) =>
      if env.insert && s.created then Silent(StoreData(d, s, data, rq.args[SessionHash].text)) else Silent(s)
  }
}
