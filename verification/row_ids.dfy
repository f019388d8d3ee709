/** Reused primary keys in SQLite, where removing a session leaves its samples behind. */
module RowIds {
  import opened Protocol
  import opened Like
  import opened Tables
  import opened Relational

  /** The key an insert hands out in SQLite, whatever was removed before: one past the largest in use, or
      1. Every stored row naming it comes under the new session. */
  lemma SQLiteTakesKeyIff(s: Store, info: SessionInfo, deviceHash: string, now: nat, key: nat)
    requires Sound(SQLite, s) && InsertSession(SQLite, s, info, deviceHash, now).Some?
    ensures var s' := InsertSession(SQLite, s, info, deviceHash, now).value;
            && s'.rows == s.rows
            && (key in s'.sessions && s'.sessions[key].serial == s.births <==>
                  (forall other | other in s.sessions :: other < key)
                  && (if s.sessions == map[] then key == 1 else key - 1 in s.sessions))
            && (key in s'.sessions && s'.sessions[key].serial == s.births ==> s'.sessions[key].hash == info.hash)
  {
    assert s.sessions == map[] <==> s.sessions.Keys == {};
  }

  /** Samples of a removed session come back under a session added right after exactly when that session
      gets the removed key: it was the largest, and the key below it is in use (or it was the only
      session, with key 1). */
  lemma SQLiteInheritsIff(s: Store, hash: string, info: SessionInfo, deviceHash: string, now: nat, id: nat)
    requires id in s.sessions && SessionIds(SQLite, s, hash) == {id}
    requires InsertSession(SQLite, DeleteSession(SQLite, s, hash), info, deviceHash, now).Some?
    ensures var s' := InsertSession(SQLite, DeleteSession(SQLite, s, hash), info, deviceHash, now).value;
            var others := s.sessions.Keys - {id};
            && s'.rows == s.rows
            && (id in s'.sessions <==>
                  (forall other | other in others :: other < id) && (if others == {} then id == 1 else id - 1 in others))
            && (id in s'.sessions ==> s'.sessions[id].hash == info.hash)
  {
    var s1 := DeleteSession(SQLite, s, hash);
    assert s1.sessions.Keys == s.sessions.Keys - {id};
  }

  /** PostgreSQL cascades and counts on, so a new session starts without samples. */
  lemma PostgreSQLNeverInherits(s: Store, hash: string, info: SessionInfo, deviceHash: string, now: nat)
    requires Sound(PostgreSQL, s) && Linked(s)
    requires InsertSession(PostgreSQL, DeleteSession(PostgreSQL, s, hash), info, deviceHash, now).Some?
    ensures var s' := InsertSession(PostgreSQL, DeleteSession(PostgreSQL, s, hash), info, deviceHash, now).value;
            forall id, r | id in s'.sessions && s'.sessions[id].serial == s.births && r in s'.rows :: r.session != id
  {
    KeptRows(s.rows, SessionIds(PostgreSQL, s, hash));
    FreshIdIsFresh(PostgreSQL, s.nextSession, s.sessions.Keys);
  }
}
