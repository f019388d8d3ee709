/** The relational store: the tables of source/Query.cpp keyed by primary key, and what each
    generated statement does to them in either dialect. */
module Tables {
  import opened Protocol
  import opened Like

  /** `serial` numbers the session rows ever inserted; it identifies a row for audit even where
      primary keys are handed out again. No statement reads it. */
  datatype SessionRow = SessionRow(
    hash: string, name: string, coreCount: int, started: nat, ended: nat, device: nat, serial: nat)

  datatype DataRow = DataRow(table: DataKind, session: nat, entry: string, stamp: Stamp, trace: nat)

  datatype Store = Store(
    created: bool,
    devices: map<nat, DeviceData>,
    sessions: map<nat, SessionRow>,
    rows: seq<DataRow>,
    nextDevice: nat, nextSession: nat, births: nat)

  const EMPTY_STORE := Store(false, map[], map[], [], 1, 1, 0)

  // ---- row selection ----

  function DeviceIds(d: Dialect, s: Store, hash: string): set<nat> {
    set id | id in s.devices && Matches(d, hash, s.devices[id].hash)
  }

  function SessionIds(d: Dialect, s: Store, hash: string): set<nat> {
    set id | id in s.sessions && Matches(d, hash, s.sessions[id].hash)
  }

  function OpenIds(d: Dialect, s: Store, hash: string): set<nat> {
    set id | id in SessionIds(d, s, hash) && s.sessions[id].ended == 0
  }

  predicate IsMax(ids: set<nat>, m: nat) {
    m in ids && forall id | id in ids :: id <= m
  }

  predicate IsMin(ids: set<nat>, m: nat) {
    m in ids && forall id | id in ids :: m <= id
  }

  lemma BoundsExist(ids: set<nat>)
    requires ids != {}
    ensures (exists m :: IsMax(ids, m)) && (exists m :: IsMin(ids, m))
  {
    var x :| x in ids;
    var rest := ids - {x};
    assert forall id | id in ids :: id == x || id in rest;
    if rest == {} {
      assert IsMax(ids, x) && IsMin(ids, x);
    } else {
      BoundsExist(rest);
      var top :| IsMax(rest, top);
      var low :| IsMin(rest, low);
      assert IsMax(ids, if top < x then x else top);
      assert IsMin(ids, if low < x then low else x);
    }
  }

  function MaxOf(ids: set<nat>): (m: nat)
    requires ids != {}
    ensures IsMax(ids, m)
  {
    BoundsExist(ids);
    var m :| IsMax(ids, m);
    m
  }

  function MinOf(ids: set<nat>): (m: nat)
    requires ids != {}
    ensures IsMin(ids, m)
  {
    BoundsExist(ids);
    var m :| IsMin(ids, m);
    m
  }

  /** Value of a scalar subquery; None is NULL (no row) or, in PostgreSQL, the error for several
      rows. Either way the NOT NULL insert around it fails. SQLite takes the first row. */
  function Scalar(d: Dialect, ids: set<nat>): Option<nat> {
    if ids == {} then None
    else if d.PostgreSQL? && exists a | a in ids :: a != MinOf(ids) then None
    else Some(MinOf(ids))
  }

  /** Primary key of the next row: a SERIAL counter in PostgreSQL, one past the largest key in
      use for an SQLite INTEGER PRIMARY KEY. */
  function FreshId(d: Dialect, counter: nat, ids: set<nat>): nat {
    if d.PostgreSQL? then counter else if ids == {} then 1 else MaxOf(ids) + 1
  }

  // ---- statements ----

  function SessionsOf(s: Store, devices: set<nat>): set<nat> {
    set id | id in s.sessions && s.sessions[id].device in devices
  }

  /** Data rows are kept in the order they were inserted. */
  function WithoutRowsOf(rows: seq<DataRow>, sessions: set<nat>): seq<DataRow> {
    if rows == [] then []
    else
      var last := rows[|rows| - 1];
      WithoutRowsOf(rows[..|rows| - 1], sessions) + if last.session in sessions then [] else [last]
  }

  lemma {:induction false} KeptRows(rows: seq<DataRow>, sessions: set<nat>)
    ensures forall r :: r in WithoutRowsOf(rows, sessions) <==> r in rows && r.session !in sessions
  {
    if rows != [] {
      KeptRows(rows[..|rows| - 1], sessions);
    }
  }

  /** DELETE of session rows; ON DELETE CASCADE takes their data along in PostgreSQL, while
      SQLite does not enforce foreign keys here. */
  function DropSessions(d: Dialect, s: Store, ids: set<nat>): Store {
    s.(sessions := s.sessions - ids, rows := if d.PostgreSQL? then WithoutRowsOf(s.rows, ids) else s.rows)
  }

  function DeleteSession(d: Dialect, s: Store, hash: string): Store {
    DropSessions(d, s, SessionIds(d, s, hash))
  }

  function DeleteDevices(d: Dialect, s: Store, hash: string): Store {
    var ids := DeviceIds(d, s, hash);
    var s' := s.(devices := s.devices - ids);
    if d.PostgreSQL? then DropSessions(d, s', SessionsOf(s, ids)) else s'
  }

  function InsertDeviceRow(d: Dialect, s: Store, device: DeviceData): Store {
    var id := FreshId(d, s.nextDevice, s.devices.Keys);
    s.(devices := s.devices[id := device], nextDevice := s.nextDevice + 1)
  }

  /** None when the statement fails: the device subquery has no single answer. */
  function InsertSession(d: Dialect, s: Store, info: SessionInfo, deviceHash: string, now: nat): Option<Store> {
    match Scalar(d, DeviceIds(d, s, deviceHash))
    case None => None
    case Some(device) =>
      var id := FreshId(d, s.nextSession, s.sessions.Keys);
      var row := SessionRow(info.hash, info.name, info.coreCount, now, 0, device, s.births);
      Some(s.(sessions := s.sessions[id := row], nextSession := s.nextSession + 1, births := s.births + 1))
  }

  function MarkEnded(d: Dialect, s: Store, hash: string, now: nat): Store {
    s.(sessions := map id | id in s.sessions ::
         if Matches(d, hash, s.sessions[id].hash) then s.sessions[id].(ended := now) else s.sessions[id])
  }

  function DropTables(s: Store): Store {
    EMPTY_STORE.(births := s.births)
  }

  // ---- samples ----

  /** One INSERT of a sample row; the session is the scalar subquery on `hash`. */
  datatype Insert = Insert(table: DataKind, entry: string, stamp: Stamp, trace: nat, hash: string)

  predicate Repeated(what: DataKind) {
    what in {ProcInfo, ContextInfo, SysProcDiskStats, SysProcBuddyInfo, SysProcWireless}
  }

  /** The values a sample contributes, one per row. */
  function Entries(data: Data): seq<string> {
    if data.what.OtherKind? then []
    else if data.what.SysProcStat? then [data.head] + data.entries
    else if Repeated(data.what) then data.entries
    else [data.head]
  }

  function Inserts(data: Data, hash: string, entries: seq<string>): seq<Insert> {
    seq(|entries|, i requires 0 <= i < |entries| => Insert(data.what, entries[i], data.stamp, data.trace, hash))
  }

  function RunInsert(d: Dialect, s: Store, q: Insert): Option<Store> {
    match Scalar(d, OpenIds(d, s, q.hash))
    case None => None
    case Some(session) =>
      Some(s.(rows := s.rows + [DataRow(q.table, session, q.entry, q.stamp, q.trace)]))
  }

  /** `sqlite3_exec`: statement by statement, stopping at the first failure. */
  function Script(d: Dialect, s: Store, qs: seq<Insert>): Store
    decreases |qs|
  {
    if qs == [] then s
    else match RunInsert(d, s, qs[0])
      case None => s
      case Some(next) => Script(d, next, qs[1..])
  }

  /** One transaction: all statements or none. */
  function Transaction(d: Dialect, s: Store, qs: seq<Insert>): Option<Store>
    decreases |qs|
  {
    if qs == [] then Some(s)
    else match RunInsert(d, s, qs[0])
      case None => None
      case Some(next) => Transaction(d, next, qs[1..])
  }

  function Execute(d: Dialect, s: Store, qs: seq<Insert>): Store {
    if d.SQLite? then Script(d, s, qs) else match Transaction(d, s, qs) case None => s case Some(next) => next
  }

  /** Samples written by the back end for a Data message; both switches know the same kinds. */
  function StoreData(d: Dialect, s: Store, data: Data, hash: string): Store {
    if data.what.OtherKind? then s else Execute(d, s, Inserts(data, hash, Entries(data)))
  }

  /** The rows of a sample under one session. */
  function SampleRows(data: Data, session: nat, entries: seq<string>): seq<DataRow> {
    seq(|entries|, i requires 0 <= i < |entries| => DataRow(data.what, session, entries[i], data.stamp, data.trace))
  }
}
