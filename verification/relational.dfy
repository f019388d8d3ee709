/** What every sequence of database requests keeps true of the tables. */
module Relational {
  import opened Protocol
  import opened Like
  import opened Tables
  import opened Samples
  import opened Backend

  /** Keys in use lie behind the counters, and serials tell session rows apart. */
  ghost predicate Sound(d: Dialect, s: Store) {
    && (d.PostgreSQL? ==> forall id | id in s.devices :: id < s.nextDevice)
    && (d.PostgreSQL? ==> forall id | id in s.sessions :: id < s.nextSession)
    && (forall id | id in s.sessions :: s.sessions[id].serial < s.births)
    && (forall a, b | a in s.sessions && b in s.sessions && s.sessions[a].serial == s.sessions[b].serial :: a == b)
  }

  /** At most one device row and one session row per hash. */
  ghost predicate UniqueHashes(s: Store) {
    && (forall a, b | a in s.devices && b in s.devices && s.devices[a].hash == s.devices[b].hash :: a == b)
    && (forall a, b | a in s.sessions && b in s.sessions && s.sessions[a].hash == s.sessions[b].hash :: a == b)
  }

  /** Every session belongs to a device and every data row to a session. */
  ghost predicate Linked(s: Store) {
    && (forall id | id in s.sessions :: s.sessions[id].device in s.devices)
    && (forall r | r in s.rows :: r.session in s.sessions)
  }

  lemma FreshIdIsFresh(d: Dialect, counter: nat, ids: set<nat>)
    requires d.PostgreSQL? ==> forall id | id in ids :: id < counter
    ensures FreshId(d, counter, ids) !in ids
  {
  }

  lemma ScalarIsMember(d: Dialect, ids: set<nat>)
    ensures Scalar(d, ids).Some? ==> Scalar(d, ids).value in ids
  {
  }

  // ---- a request as the statements it runs ----

  datatype Statement =
    | Nothing | CreateTables | DropAll | RemoveDevices(hash: string) | RemoveSessions(hash: string)
    | NewDevice(device: DeviceData) | NewSession(info: SessionInfo, deviceHash: string, now: nat)
    | End(hash: string, now: nat) | Sample(data: Data, hash: string)

  /** A failing statement leaves the tables as they are. */
  function Run(d: Dialect, s: Store, st: Statement): Store {
    match st
    case Nothing => s
    case CreateTables => s.(created := true)
    case DropAll => DropTables(s)
    case RemoveDevices(hash) => DeleteDevices(d, s, hash)
    case RemoveSessions(hash) => DeleteSession(d, s, hash)
    case NewDevice(device) => InsertDeviceRow(d, s, device)
    case NewSession(info, deviceHash, now) =>
      (match InsertSession(d, s, info, deviceHash, now) case None => s case Some(s') => s')
    case End(hash, now) => MarkEnded(d, s, hash, now)
    case Sample(data, hash) => StoreData(d, s, data, hash)
  }

  /** What a request gets to change first: it drops or removes, or makes its only change. */
  function First(d: Dialect, env: Env, s: Store, rq: StoreRequest): Statement
    requires WellFormed(rq)
  {
    var ready := env.select && s.created;
    match rq.action
    case InitTables => if Enforced(rq.args) && env.drop && (d.PostgreSQL? ==> env.open) then DropAll else Nothing
    case InsertDevice(device) =>
      if ready && Enforced(rq.args) && env.delete then RemoveDevices(device.hash) else Nothing
    case DeleteDevice(hash) => if ready && env.delete then RemoveDevices(hash) else Nothing
    case AddSession(info) =>
      if ready && SessionIds(d, s, info.hash) != {} && env.delete then RemoveSessions(info.hash) else Nothing
    case RemSession(hash) =>
      if ready && SessionIds(d, s, hash) != {} && env.delete then RemoveSessions(hash) else Nothing
    case EndSession => if env.update && s.created then End(rq.args[SessionHash].text, env.now) else Nothing
    case AddData(data) => if env.insert && s.created then Sample(data, rq.args[SessionHash].text) else Nothing
    case _ => Nothing
  }

  /** ... and what it creates or inserts after that. */
  function Second(d: Dialect, env: Env, s: Store, rq: StoreRequest): Statement
    requires WellFormed(rq)
  {
    match rq.action
    case InitTables => if env.create && (d.PostgreSQL? ==> env.open) then CreateTables else Nothing
    case InsertDevice(device) =>
      if !(env.select && s.created) || (Forced !in rq.args && DeviceIds(d, s, device.hash) != {})
         || (d.PostgreSQL? && Enforced(rq.args) && !env.delete) || !env.insert
      then Nothing else NewDevice(device)
    case AddSession(info) =>
      if env.insert && s.created then NewSession(info, rq.args[DeviceHash].text, env.now) else Nothing
    case _ => Nothing
  }

  lemma RequestRunsStatements(d: Dialect, env: Env, s: Store, registry: map<string, DeviceState>, rq: StoreRequest)
    requires Backend.Answers(env, s) && WellFormed(rq)
    ensures HandleStore(d, env, s, registry, rq).store == Run(d, Run(d, s, First(d, env, s, rq)), Second(d, env, s, rq))
  {
    hide HandleStore, First, Second, Run, Lists;
    match rq.action
    case InsertDevice(_) => AddDeviceRuns(d, env, s, registry, rq);
    case AddSession(_) => AddSessionRuns(d, env, s, registry, rq);
    case _ => OthersRun(d, env, s, registry, rq);
  }

  lemma AddDeviceRuns(d: Dialect, env: Env, s: Store, registry: map<string, DeviceState>, rq: StoreRequest)
    requires Backend.Answers(env, s) && rq.action.InsertDevice?
    ensures HandleStore(d, env, s, registry, rq).store == Run(d, Run(d, s, First(d, env, s, rq)), Second(d, env, s, rq))
  {
    hide DeleteDevices, InsertDeviceRow, DeviceIds, Lists, Reply;
  }

  lemma AddSessionRuns(d: Dialect, env: Env, s: Store, registry: map<string, DeviceState>, rq: StoreRequest)
    requires Backend.Answers(env, s) && rq.action.AddSession? && WellFormed(rq)
    ensures HandleStore(d, env, s, registry, rq).store == Run(d, Run(d, s, First(d, env, s, rq)), Second(d, env, s, rq))
  {
    hide DeleteSession, InsertSession, SessionIds, Lists;
  }

  lemma OthersRun(d: Dialect, env: Env, s: Store, registry: map<string, DeviceState>, rq: StoreRequest)
    requires Backend.Answers(env, s) && WellFormed(rq) && !rq.action.InsertDevice? && !rq.action.AddSession?
    ensures HandleStore(d, env, s, registry, rq).store == Run(d, Run(d, s, First(d, env, s, rq)), Second(d, env, s, rq))
  {
    hide DeleteDevices, DeleteSession, MarkEnded, StoreData, Lists, DeviceEntries, SessionEntries, EndRequests, NewDevices,
      DeviceIds, SessionIds, Reply, AddDeviceEffect, AddSessionEffect;
  }

  // ---- the primary keys: whatever is asked, whatever fails ----

  lemma StatementStaysSound(d: Dialect, s: Store, st: Statement)
    requires Sound(d, s)
    ensures Sound(d, Run(d, s, st))
  {
    match st
    case NewSession(info, deviceHash, now) => FreshIdIsFresh(d, s.nextSession, s.sessions.Keys);
    case Sample(data, hash) =>
      StoredRows(d, s, data, hash);
      hide StoreData;
    case _ =>
  }

  lemma StepStaysSound(d: Dialect, env: Env, s: Store, registry: map<string, DeviceState>, rq: StoreRequest)
    requires Sound(d, s) && Backend.Answers(env, s) && WellFormed(rq)
    ensures Sound(d, HandleStore(d, env, s, registry, rq).store)
  {
    hide HandleStore, First, Second, Run, Sound;
    RequestRunsStatements(d, env, s, registry, rq);
    StatementStaysSound(d, s, First(d, env, s, rq));
    StatementStaysSound(d, Run(d, s, First(d, env, s, rq)), Second(d, env, s, rq));
  }

  // ---- PostgreSQL keeps the references ----

  lemma StatementStaysLinked(s: Store, st: Statement)
    requires Sound(PostgreSQL, s) && Linked(s)
    ensures Linked(Run(PostgreSQL, s, st))
  {
    match st
    case NewSession(info, deviceHash, now) =>
      ScalarIsMember(PostgreSQL, DeviceIds(PostgreSQL, s, deviceHash));
      FreshIdIsFresh(PostgreSQL, s.nextSession, s.sessions.Keys);
    case Sample(data, hash) =>
      ScalarIsMember(PostgreSQL, OpenIds(PostgreSQL, s, hash));
      StoredRows(PostgreSQL, s, data, hash);
      SampleStaysLinked(s, data, hash);
    case RemoveDevices(hash) =>
      KeptRows(s.rows, SessionsOf(s, DeviceIds(PostgreSQL, s, hash)));
    case RemoveSessions(hash) =>
      KeptRows(s.rows, SessionIds(PostgreSQL, s, hash));
    case _ =>
  }

  lemma SampleStaysLinked(s: Store, data: Data, hash: string)
    requires Linked(s)
    ensures Linked(StoreData(PostgreSQL, s, data, hash))
  {
    ScalarIsMember(PostgreSQL, OpenIds(PostgreSQL, s, hash));
    StoredRows(PostgreSQL, s, data, hash);
    hide StoreData;
    var s' := StoreData(PostgreSQL, s, data, hash);
    forall r | r in s'.rows ensures r.session in s'.sessions {
      var i :| 0 <= i < |s'.rows| && s'.rows[i] == r;
      assert i < |s.rows| ==> s.rows[i] == r;
    }
  }

  lemma StepStaysLinked(env: Env, s: Store, registry: map<string, DeviceState>, rq: StoreRequest)
    requires Sound(PostgreSQL, s) && Linked(s) && Backend.Answers(env, s) && WellFormed(rq)
    ensures Linked(HandleStore(PostgreSQL, env, s, registry, rq).store)
  {
    hide HandleStore, First, Second, Run, Sound, Linked;
    RequestRunsStatements(PostgreSQL, env, s, registry, rq);
    var s1 := Run(PostgreSQL, s, First(PostgreSQL, env, s, rq));
    StatementStaysLinked(s, First(PostgreSQL, env, s, rq));
    StatementStaysSound(PostgreSQL, s, First(PostgreSQL, env, s, rq));
    StatementStaysLinked(s1, Second(PostgreSQL, env, s, rq));
  }

  // ---- hashes stay unique while lookups and deletes succeed ----

  /** Checks and deletes succeed; inserts and updates may fail. */
  predicate Careful(env: Env) {
    env.select && env.delete
  }

  /** Forced is absent or True, and an inserted hash is a pattern that at least matches itself. */
  predicate Admissible(d: Dialect, rq: StoreRequest) {
    && WellFormed(rq)
    && (Forced in rq.args ==> rq.args[Forced] == True)
    && match rq.action
       case InsertDevice(device) => Matches(d, device.hash, device.hash)
       case AddSession(info) => Matches(d, info.hash, info.hash)
       case _ => true
  }

  /** An inserted row brings a hash no row has. */
  ghost predicate Brings(s: Store, st: Statement) {
    match st
    case NewDevice(device) => forall id | id in s.devices :: s.devices[id].hash != device.hash
    case NewSession(info, _, _) => forall id | id in s.sessions :: s.sessions[id].hash != info.hash
    case _ => true
  }

  lemma StatementStaysUnique(d: Dialect, s: Store, st: Statement)
    requires UniqueHashes(s) && Brings(s, st)
    ensures UniqueHashes(Run(d, s, st))
  {
    match st
    case Sample(data, hash) =>
      StoredRows(d, s, data, hash);
      hide StoreData;
    case _ =>
  }

  lemma StepStaysUnique(d: Dialect, env: Env, s: Store, registry: map<string, DeviceState>, rq: StoreRequest)
    requires UniqueHashes(s) && Backend.Answers(env, s) && Careful(env) && Admissible(d, rq)
    ensures UniqueHashes(HandleStore(d, env, s, registry, rq).store)
  {
    hide HandleStore, First, Second, Run, UniqueHashes;
    RequestRunsStatements(d, env, s, registry, rq);
    var s1 := Run(d, s, First(d, env, s, rq));
    InsertsBring(d, env, s, rq);
    StatementStaysUnique(d, s, First(d, env, s, rq));
    StatementStaysUnique(d, s1, Second(d, env, s, rq));
  }

  lemma InsertsBring(d: Dialect, env: Env, s: Store, rq: StoreRequest)
    requires Careful(env) && Admissible(d, rq)
    ensures Brings(s, First(d, env, s, rq)) && Brings(Run(d, s, First(d, env, s, rq)), Second(d, env, s, rq))
  {
    match rq.action
    case AddSession(_) => AddSessionBrings(d, env, s, rq);
    case InsertDevice(_) => AddDeviceBrings(d, env, s, rq);
    case _ => hide Run;
  }

  lemma AddSessionBrings(d: Dialect, env: Env, s: Store, rq: StoreRequest)
    requires Careful(env) && Admissible(d, rq) && rq.action.AddSession?
    ensures Brings(s, First(d, env, s, rq)) && Brings(Run(d, s, First(d, env, s, rq)), Second(d, env, s, rq))
  {
    hide StoreData, InsertSession, DeleteDevices, InsertDeviceRow, MarkEnded, Matches;
    var hash := rq.action.info.hash;
    assert forall id | id in s.sessions && s.sessions[id].hash == hash :: id in SessionIds(d, s, hash);
  }

  lemma AddDeviceBrings(d: Dialect, env: Env, s: Store, rq: StoreRequest)
    requires Careful(env) && Admissible(d, rq) && rq.action.InsertDevice?
    ensures Brings(s, First(d, env, s, rq)) && Brings(Run(d, s, First(d, env, s, rq)), Second(d, env, s, rq))
  {
    hide StoreData, InsertSession, DeleteSession, InsertDeviceRow, MarkEnded, Matches, DropSessions;
    var hash := rq.action.device.hash;
    assert forall id | id in s.devices && s.devices[id].hash == hash :: id in DeviceIds(d, s, hash);
    DeletesDevices(d, s, hash);
  }

  lemma DeletesDevices(d: Dialect, s: Store, hash: string)
    ensures DeleteDevices(d, s, hash).devices == s.devices - DeviceIds(d, s, hash)
  {
  }

  // ---- whole request sequences ----

  /** One handled request: what it asked, what the registry knew and what the outside answered. */
  datatype Call = Call(env: Env, registry: map<string, DeviceState>, rq: StoreRequest)

  predicate Handled(d: Dialect, s: Store, calls: seq<Call>)
    decreases |calls|
  {
    calls == []
    || (&& Backend.Answers(calls[0].env, s) && WellFormed(calls[0].rq)
        && Handled(d, HandleStore(d, calls[0].env, s, calls[0].registry, calls[0].rq).store, calls[1..]))
  }

  function StoreAfter(d: Dialect, s: Store, calls: seq<Call>): Store
    requires Handled(d, s, calls)
    decreases |calls|
  {
    if calls == [] then s
    else StoreAfter(d, HandleStore(d, calls[0].env, s, calls[0].registry, calls[0].rq).store, calls[1..])
  }

  /** Over every sequence of database requests the hashes stay unique and, under the PostgreSQL
      schema, the references stay intact. */
  lemma {:induction false} RequestsKeepTheTables(d: Dialect, s: Store, calls: seq<Call>)
    requires Handled(d, s, calls) && Sound(d, s) && UniqueHashes(s) && (d.PostgreSQL? ==> Linked(s))
    requires forall c | c in calls :: Careful(c.env) && Admissible(d, c.rq)
    ensures var s' := StoreAfter(d, s, calls);
            Sound(d, s') && UniqueHashes(s') && (d.PostgreSQL? ==> Linked(s'))
    decreases |calls|
  {
    hide HandleStore, Sound, UniqueHashes, Linked;
    if calls != [] {
      var c := calls[0];
      assert c in calls;
      StepStaysSound(d, c.env, s, c.registry, c.rq);
      StepStaysUnique(d, c.env, s, c.registry, c.rq);
      if d.PostgreSQL? {
        StepStaysLinked(c.env, s, c.registry, c.rq);
      }
      RequestsKeepTheTables(d, HandleStore(d, c.env, s, c.registry, c.rq).store, calls[1..]);
    }
  }

  // ---- the two dialects select alike ----

  /** The lookups, deletes and subqueries by hash select the same rows in both dialects, whatever the
      tables hold, exactly for hashes free of LIKE metacharacters. */
  lemma DialectsSelectAlikeIff(hash: string)
    ensures (forall s :: DeviceIds(PostgreSQL, s, hash) == DeviceIds(SQLite, s, hash)
                         && SessionIds(PostgreSQL, s, hash) == SessionIds(SQLite, s, hash)
                         && OpenIds(PostgreSQL, s, hash) == OpenIds(SQLite, s, hash))
            <==> Plain(hash)
  {
    ExactIffPlain(PostgreSQL, hash);
    if Plain(hash) {
      forall s ensures DeviceIds(PostgreSQL, s, hash) == DeviceIds(SQLite, s, hash)
                       && SessionIds(PostgreSQL, s, hash) == SessionIds(SQLite, s, hash)
                       && OpenIds(PostgreSQL, s, hash) == OpenIds(SQLite, s, hash)
      {
        assert forall id | id in s.devices :: Matches(PostgreSQL, hash, s.devices[id].hash) <==> s.devices[id].hash == hash;
        assert forall id | id in s.sessions :: Matches(PostgreSQL, hash, s.sessions[id].hash) <==> s.sessions[id].hash == hash;
      }
    } else {
      var text :| Matches(PostgreSQL, hash, text) != (text == hash);
      var s := EMPTY_STORE.(devices := map[1 := DeviceData(text, "", "", 0)]);
      assert 1 in DeviceIds(PostgreSQL, s, hash) <==> 1 !in DeviceIds(SQLite, s, hash);
    }
  }

  /** A table with one device and no sessions, and what it becomes when a session is added once and,
      the check failing, once more. */
  function OneDevice(device: DeviceData): Store {
    EMPTY_STORE.(created := true, devices := map[1 := device], nextDevice := 2)
  }

  function Once(info: SessionInfo, device: DeviceData): Store {
    With(OneDevice(device), 1, info)
  }

  function Twice(info: SessionInfo, device: DeviceData): Store {
    With(Once(info, device), 2, info)
  }

  function With(s: Store, id: nat, info: SessionInfo): Store {
    s.(sessions := s.sessions[id := SessionRow(info.hash, info.name, info.coreCount, 5, 0, 1, s.births)],
       nextSession := s.nextSession + 1, births := s.births + 1)
  }

  /** Only the check for an existing row fails. */
  function FailingCheck(sessionOrder: seq<nat>): Env {
    Env(5, true, true, true, false, true, true, true, true, [1], sessionOrder)
  }

  function Adding(info: SessionInfo, deviceHash: string): StoreRequest {
    Request(None, AddSession(info), map[DeviceHash := Text(deviceHash)])
  }

  lemma FailedCheckAdds(d: Dialect, s: Store, sessionOrder: seq<nat>, info: SessionInfo, deviceHash: string, id: nat)
    requires s.created && Backend.Answers(FailingCheck(sessionOrder), s)
    requires Scalar(d, DeviceIds(d, s, deviceHash)) == Some(1) && FreshId(d, s.nextSession, s.sessions.Keys) == id
    ensures HandleStore(d, FailingCheck(sessionOrder), s, map[], Adding(info, deviceHash)).store
         == With(s, id, info)
  {
    hide DeviceIds, FreshId, Scalar, SessionIds, Lists;
  }

  lemma SecondRow(d: Dialect, info: SessionInfo, device: DeviceData) returns (calls: seq<Call>)
    requires Plain(device.hash)
    ensures Handled(d, OneDevice(device), calls) && StoreAfter(d, OneDevice(device), calls) == Twice(info, device)
    ensures calls == [Call(FailingCheck([]), map[], Adding(info, device.hash)), Call(FailingCheck([1]), map[], Adding(info, device.hash))]
  {
    var s, s1 := OneDevice(device), Once(info, device);
    calls := [Call(FailingCheck([]), map[], Adding(info, device.hash)), Call(FailingCheck([1]), map[], Adding(info, device.hash))];
    PlainMatchesItself(device.hash, device.hash);
    assert DeviceIds(d, s, device.hash) == {1} && DeviceIds(d, s1, device.hash) == {1};
    assert s.sessions.Keys == {} && s1.sessions.Keys == {1};
    hide DeviceIds, HandleStore;
    FailedCheckAdds(d, s, [], info, device.hash, 1);
    FailedCheckAdds(d, s1, [1], info, device.hash, 2);
    assert calls[1..] == [calls[1]] && calls[1..][1..] == [];
    assert Handled(d, s1, calls[1..]) && StoreAfter(d, s1, calls[1..]) == Twice(info, device);
  }

  /** A failing check lets a second open row in, and then the back ends part: from the same tables and
      the same requests SQLite stores a sample under the first row, PostgreSQL stores nothing. */
  lemma TwoOpenSessionsExample(info: SessionInfo, device: DeviceData, data: Data)
    returns (s: Store, calls: seq<Call>)
    requires Plain(info.hash) && Plain(device.hash) && Entries(data) != []
    ensures UniqueHashes(s) && Linked(s) && Sound(SQLite, s) && Sound(PostgreSQL, s)
    ensures Handled(SQLite, s, calls) && Handled(PostgreSQL, s, calls)
    ensures var s' := StoreAfter(SQLite, s, calls);
            && StoreAfter(PostgreSQL, s, calls) == s'
            && StoreData(PostgreSQL, s', data, info.hash) == s' && StoreData(SQLite, s', data, info.hash) != s'
  {
    var same := SecondRow(PostgreSQL, info, device);
    calls := SecondRow(SQLite, info, device);
    s := OneDevice(device);
    var both := Twice(info, device);
    ExactIffPlain(PostgreSQL, info.hash);
    assert both.sessions[1].hash == both.sessions[2].hash == info.hash;
    assert !SingleOpen(both, info.hash);
    DialectsStoreAlikeIff(both, data, info.hash);
    OneDeviceIsSound(device);
    hide Handled, StoreAfter, StoreData, Exact, SingleOpen, Plain, Sound, Linked, UniqueHashes, OneDevice, Twice;
  }

  lemma OneDeviceIsSound(device: DeviceData)
    ensures var s := OneDevice(device); UniqueHashes(s) && Linked(s) && Sound(SQLite, s) && Sound(PostgreSQL, s)
  {
  }
}
