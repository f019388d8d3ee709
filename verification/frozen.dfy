/** A session that has ended stays ended, and its samples never change again. */
module Frozen {
  import opened Protocol
  import opened Like
  import opened Tables
  import opened Samples
  import opened Backend
  import opened Relational

  function SamplesOf(rows: seq<DataRow>, session: nat): seq<DataRow> {
    if rows == [] then []
    else
      var last := rows[|rows| - 1];
      SamplesOf(rows[..|rows| - 1], session) + if last.session == session then [last] else []
  }

  /** The row inserted with that serial, if still present, is where it was, has ended, and has
      exactly these samples. */
  ghost predicate StaysFrozen(s: Store, serial: nat, id: nat, samples: seq<DataRow>) {
    && serial < s.births
    && forall k | k in s.sessions && s.sessions[k].serial == serial ::
         k == id && s.sessions[k].ended != 0 && SamplesOf(s.rows, id) == samples
  }

  lemma {:induction false} CascadeSparesOthers(rows: seq<DataRow>, gone: set<nat>, session: nat)
    requires session !in gone
    ensures SamplesOf(WithoutRowsOf(rows, gone), session) == SamplesOf(rows, session)
  {
    if rows != [] {
      var last := rows[|rows| - 1];
      var earlier := rows[..|rows| - 1];
      var kept := WithoutRowsOf(earlier, gone);
      CascadeSparesOthers(earlier, gone, session);
      if last.session in gone {
        assert WithoutRowsOf(rows, gone) == kept;
      } else {
        assert WithoutRowsOf(rows, gone) == kept + [last];
        SamplesSnoc(kept, last, session);
      }
    }
  }

  lemma SamplesSnoc(rows: seq<DataRow>, last: DataRow, session: nat)
    ensures SamplesOf(rows + [last], session) == SamplesOf(rows, session) + if last.session == session then [last] else []
  {
    assert (rows + [last])[..|rows|] == rows;
  }

  lemma {:induction false} OthersAddNothing(rows: seq<DataRow>, more: seq<DataRow>, session: nat)
    requires forall i | 0 <= i < |more| :: more[i].session != session
    ensures SamplesOf(rows + more, session) == SamplesOf(rows, session)
    decreases |more|
  {
    if more == [] {
      assert rows + more == rows;
    } else {
      var shorter := more[..|more| - 1];
      OthersAddNothing(rows, shorter, session);
      assert (rows + more)[..|rows + more| - 1] == rows + shorter;
    }
  }

  lemma DropStaysFrozen(d: Dialect, s: Store, ids: set<nat>, serial: nat, id: nat, samples: seq<DataRow>)
    requires StaysFrozen(s, serial, id, samples)
    ensures StaysFrozen(DropSessions(d, s, ids), serial, id, samples)
  {
    if id !in ids {
      CascadeSparesOthers(s.rows, ids, id);
    }
  }

  lemma SampleStaysFrozen(d: Dialect, s: Store, data: Data, hash: string, serial: nat, id: nat, samples: seq<DataRow>)
    requires StaysFrozen(s, serial, id, samples)
    ensures StaysFrozen(StoreData(d, s, data, hash), serial, id, samples)
  {
    StoredRows(d, s, data, hash);
    ScalarIsMember(d, OpenIds(d, s, hash));
    var s' := StoreData(d, s, data, hash);
    var more := s'.rows[|s.rows|..];
    assert s'.rows == s.rows + more;
    if id in s.sessions && s.sessions[id].serial == serial {
      assert forall i | 0 <= i < |more| :: more[i] == s'.rows[|s.rows| + i] && more[i].session != id;
      OthersAddNothing(s.rows, more, id);
    }
    hide StoreData;
  }

  lemma StatementStaysFrozen(d: Dialect, s: Store, st: Statement, serial: nat, id: nat, samples: seq<DataRow>)
    requires Sound(d, s) && StaysFrozen(s, serial, id, samples) && (st.End? ==> st.now > 0)
    ensures StaysFrozen(Run(d, s, st), serial, id, samples)
  {
    match st
    case RemoveDevices(hash) =>
      var ids := DeviceIds(d, s, hash);
      DropStaysFrozen(d, s.(devices := s.devices - ids), SessionsOf(s, ids), serial, id, samples);
    case RemoveSessions(hash) => DropStaysFrozen(d, s, SessionIds(d, s, hash), serial, id, samples);
    case NewSession(info, deviceHash, now) => FreshIdIsFresh(d, s.nextSession, s.sessions.Keys);
    case Sample(data, hash) => SampleStaysFrozen(d, s, data, hash, serial, id, samples);
    case _ =>
  }

  lemma StepStaysFrozen(d: Dialect, c: Call, s: Store, serial: nat, id: nat, samples: seq<DataRow>)
    requires Sound(d, s) && StaysFrozen(s, serial, id, samples)
    requires Backend.Answers(c.env, s) && WellFormed(c.rq) && c.env.now > 0
    ensures StaysFrozen(HandleStore(d, c.env, s, c.registry, c.rq).store, serial, id, samples)
  {
    RequestRunsStatements(d, c.env, s, c.registry, c.rq);
    var first, second := First(d, c.env, s, c.rq), Second(d, c.env, s, c.rq);
    assert (first.End? ==> first.now > 0) && !second.End?;
    hide HandleStore, First, Second, Run, Sound, StaysFrozen;
    StatementStaysFrozen(d, s, first, serial, id, samples);
    StatementStaysSound(d, s, first);
    StatementStaysFrozen(d, Run(d, s, first), second, serial, id, samples);
  }

  lemma {:induction false} StaysFrozenOver(d: Dialect, s: Store, calls: seq<Call>, serial: nat, id: nat, samples: seq<DataRow>)
    requires Handled(d, s, calls) && Sound(d, s) && StaysFrozen(s, serial, id, samples)
    requires forall c | c in calls :: c.env.now > 0
    ensures StaysFrozen(StoreAfter(d, s, calls), serial, id, samples)
    decreases |calls|
  {
    hide HandleStore, Sound, StaysFrozen;
    if calls != [] {
      var c := calls[0];
      assert c in calls;
      StepStaysFrozen(d, c, s, serial, id, samples);
      StepStaysSound(d, c.env, s, c.registry, c.rq);
      StaysFrozenOver(d, HandleStore(d, c.env, s, c.registry, c.rq).store, calls[1..], serial, id, samples);
    }
  }

  /** In either dialect, over every sequence of database requests and whatever statements fail: as
      long as an ended session's row exists it stays ended and has exactly the samples it had. */
  lemma {:induction false} EndedSessionsAreFrozen(d: Dialect, s: Store, calls: seq<Call>, id: nat)
    requires Handled(d, s, calls) && Sound(d, s) && (forall c | c in calls :: c.env.now > 0)
    requires id in s.sessions && s.sessions[id].ended != 0
    ensures var s' := StoreAfter(d, s, calls);
            forall k | k in s'.sessions && s'.sessions[k].serial == s.sessions[id].serial ::
              k == id && s'.sessions[k].ended != 0 && SamplesOf(s'.rows, id) == SamplesOf(s.rows, id)
  {
    StaysFrozenOver(d, s, calls, s.sessions[id].serial, id, SamplesOf(s.rows, id));
  }
}
