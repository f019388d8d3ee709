/** What a sample leaves in the tables, in either dialect (source/Query.cpp addData). */
module Samples {
  import opened Protocol
  import opened Like
  import opened Tables

  function Appended(s: Store, data: Data, session: nat, entries: seq<string>): Store {
    s.(rows := s.rows + SampleRows(data, session, entries))
  }

  /** The statement-by-statement run and the single transaction both add every entry under the one
      open session of that hash, or nothing at all. */
  lemma {:induction false} ExecutionAppends(d: Dialect, s: Store, data: Data, hash: string, entries: seq<string>)
    ensures Execute(d, s, Inserts(data, hash, entries)) ==
            match Scalar(d, OpenIds(d, s, hash))
            case None => s
            case Some(session) => Appended(s, data, session, entries)
    decreases |entries|
  {
    var qs := Inserts(data, hash, entries);
    if entries == [] {
      assert qs == [] && forall session :: SampleRows(data, session, entries) == [];
      assert s.rows + [] == s.rows;
    } else if Scalar(d, OpenIds(d, s, hash)).Some? {
      var session := Scalar(d, OpenIds(d, s, hash)).value;
      var s1 := RunInsert(d, s, qs[0]).value;
      assert OpenIds(d, s1, hash) == OpenIds(d, s, hash);
      assert qs[1..] == Inserts(data, hash, entries[1..]);
      ExecutionAppends(d, s1, data, hash, entries[1..]);
      TransactionSucceeds(d, s1, data, hash, entries[1..]);
      assert s1.rows + SampleRows(data, session, entries[1..]) == s.rows + SampleRows(data, session, entries);
    }
  }

  lemma {:induction false} TransactionSucceeds(d: Dialect, s: Store, data: Data, hash: string, entries: seq<string>)
    requires Scalar(d, OpenIds(d, s, hash)).Some?
    ensures Transaction(d, s, Inserts(data, hash, entries)).Some?
    decreases |entries|
  {
    if entries != [] {
      var qs := Inserts(data, hash, entries);
      var s1 := RunInsert(d, s, qs[0]).value;
      assert OpenIds(d, s1, hash) == OpenIds(d, s, hash);
      assert qs[1..] == Inserts(data, hash, entries[1..]);
      TransactionSucceeds(d, s1, data, hash, entries[1..]);
    }
  }

  /** Number of rows a sample stands for: one for a single-row kind, one per entry for a repeated
      kind, the totals and one per core for SysProcStat. */
  function RowCount(data: Data): nat {
    match data.what
    case OtherKind => 0
    case SysProcStat => 1 + |data.entries|
    case ProcInfo => |data.entries|
    case ContextInfo => |data.entries|
    case SysProcDiskStats => |data.entries|
    case SysProcBuddyInfo => |data.entries|
    case SysProcWireless => |data.entries|
    case _ => 1
  }

  /** A sample adds exactly its rows, in order, all to its own table under the one open session of
      the hash; without such a session it changes nothing. */
  lemma StoredRows(d: Dialect, s: Store, data: Data, hash: string)
    ensures var s' := StoreData(d, s, data, hash);
            var session := Scalar(d, OpenIds(d, s, hash));
            var count := if session.Some? then RowCount(data) else 0;
            && s' == s.(rows := s'.rows) && |s'.rows| == |s.rows| + count && s.rows <= s'.rows
            && forall i | |s.rows| <= i < |s'.rows| ::
                 && session.Some?
                 && s'.rows[i] == DataRow(data.what, session.value, Entries(data)[i - |s.rows|], data.stamp, data.trace)
  {
    ExecutionAppends(d, s, data, hash, Entries(data));
  }

  /** What the rows of a sample hold: for SysProcStat the totals and then the cores in order, for a
      repeated kind the entries in order, for any other kind its one set of columns. They lie under the
      open session of the hash - the first one in SQLite, the only one in PostgreSQL. */
  lemma StoredContents(d: Dialect, s: Store, data: Data, hash: string, id: nat)
    requires Exact(d, hash) && !data.what.OtherKind?
    requires id in s.sessions && s.sessions[id].hash == hash && s.sessions[id].ended == 0
    requires forall other | other in s.sessions && s.sessions[other].hash == hash && s.sessions[other].ended == 0 ::
               id <= other && (d.PostgreSQL? ==> other == id)
    ensures var s' := StoreData(d, s, data, hash);
            var several := data.what in {ProcInfo, ContextInfo, SysProcDiskStats, SysProcBuddyInfo, SysProcWireless};
            && s' == s.(rows := s'.rows) && s.rows <= s'.rows
            && |s'.rows| == |s.rows| + (if data.what.SysProcStat? then 1 + |data.entries| else if several then |data.entries| else 1)
            && forall k | 0 <= k < |s'.rows| - |s.rows| ::
                 var row := s'.rows[|s.rows| + k];
                 && row.table == data.what && row.session == id && row.stamp == data.stamp && row.trace == data.trace
                 && row.entry == if several then data.entries[k] else if k == 0 then data.head else data.entries[k - 1]
  {
    StoredRows(d, s, data, hash);
    assert forall other | other in s.sessions :: Matches(d, hash, s.sessions[other].hash) <==> s.sessions[other].hash == hash;
    assert id in OpenIds(d, s, hash) && Scalar(d, OpenIds(d, s, hash)) == Some(id);
    hide StoreData, Execute, OpenIds, Scalar;
  }

  /** Without an open session of that hash nothing is stored. */
  lemma NothingStored(d: Dialect, s: Store, data: Data, hash: string)
    requires Exact(d, hash)
    requires forall id | id in s.sessions && s.sessions[id].hash == hash :: s.sessions[id].ended != 0
    ensures StoreData(d, s, data, hash) == s
  {
    StoredRows(d, s, data, hash);
    assert forall id | id in s.sessions :: Matches(d, hash, s.sessions[id].hash) <==> s.sessions[id].hash == hash;
    assert OpenIds(d, s, hash) == {};
    hide StoreData, Execute, OpenIds;
  }

  /** One open session per hash at most. */
  predicate SingleOpen(s: Store, hash: string) {
    forall a, b | a in s.sessions && b in s.sessions
                  && s.sessions[a].hash == hash && s.sessions[b].hash == hash
                  && s.sessions[a].ended == 0 && s.sessions[b].ended == 0 :: a == b
  }

  lemma OpenIdsAgree(s: Store, hash: string)
    requires Exact(PostgreSQL, hash)
    ensures OpenIds(PostgreSQL, s, hash) == OpenIds(SQLite, s, hash)
    ensures SingleOpen(s, hash) <==> forall a, b | a in OpenIds(SQLite, s, hash) && b in OpenIds(SQLite, s, hash) :: a == b
  {
    assert forall id | id in s.sessions :: Matches(PostgreSQL, hash, s.sessions[id].hash) <==> s.sessions[id].hash == hash;
    assert forall id :: id in OpenIds(SQLite, s, hash) <==> id in s.sessions && s.sessions[id].hash == hash && s.sessions[id].ended == 0;
  }

  /** With several open rows SQLite's subquery yields the first and PostgreSQL's fails; otherwise the
      two agree. */
  lemma ScalarsAgreeIff(ids: set<nat>)
    ensures Scalar(PostgreSQL, ids) == Scalar(SQLite, ids) <==> forall a, b | a in ids && b in ids :: a == b
    ensures Scalar(PostgreSQL, ids) != Scalar(SQLite, ids) ==> Scalar(PostgreSQL, ids).None? && Scalar(SQLite, ids).Some?
  {
  }

  /** Both back ends leave the same tables behind for a sample if and only if it has no rows or at most
      one open session has the hash; if not, PostgreSQL stores nothing. */
  lemma DialectsStoreAlikeIff(s: Store, data: Data, hash: string)
    requires Exact(PostgreSQL, hash)
    ensures StoreData(SQLite, s, data, hash) == StoreData(PostgreSQL, s, data, hash) <==>
            Entries(data) == [] || SingleOpen(s, hash)
    ensures Entries(data) == [] || SingleOpen(s, hash) || StoreData(PostgreSQL, s, data, hash) == s
  {
    var ids := OpenIds(SQLite, s, hash);
    OpenIdsAgree(s, hash);
    ScalarsAgreeIff(ids);
    ExecutionAppends(SQLite, s, data, hash, Entries(data));
    ExecutionAppends(PostgreSQL, s, data, hash, Entries(data));
    StoredRows(SQLite, s, data, hash);
    StoredRows(PostgreSQL, s, data, hash);
    hide StoreData, Execute, OpenIds, Entries, SingleOpen, Scalar, Exact;
  }
}
