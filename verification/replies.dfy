/** The status a client gets tells what happened to the tables. */
module Replies {
  import opened Protocol
  import opened Like
  import opened Tables
  import opened Backend
  import opened Relational

  predicate SaysOkay(effect: Effect)
    requires |effect.dispatched| == 1 && Status in effect.dispatched[0].args
  {
    effect.dispatched[0].args[Status] == Okay
  }

  predicate HasDevice(s: Store, hash: string) {
    exists id :: id in s.devices && s.devices[id].hash == hash
  }

  predicate HasSession(s: Store, hash: string) {
    exists id :: id in s.sessions && s.sessions[id].hash == hash
  }

  /** RemoveDevice says Okay exactly when the check succeeded, such a device existed and the delete
      succeeded; then no such device is left, and otherwise the tables are as before. */
  lemma RemoveDeviceTellsTheTruth(d: Dialect, env: Env, s: Store, registry: map<string, DeviceState>, rq: StoreRequest)
    requires Backend.Answers(env, s) && rq.action.DeleteDevice? && Exact(d, rq.action.hash)
    ensures var effect := HandleStore(d, env, s, registry, rq);
            && (SaysOkay(effect) <==> env.select && s.created && HasDevice(s, rq.action.hash) && env.delete)
            && (SaysOkay(effect) ==> !HasDevice(effect.store, rq.action.hash))
            && (!SaysOkay(effect) ==> effect.store == s)
  {
    var hash := rq.action.hash;
    assert forall id | id in s.devices :: Matches(d, hash, s.devices[id].hash) <==> s.devices[id].hash == hash;
    if HasDevice(s, hash) {
      var id :| id in s.devices && s.devices[id].hash == hash;
      assert id in DeviceIds(d, s, hash);
    } else {
      assert DeviceIds(d, s, hash) == {};
      NothingToDelete(d, s, hash);
    }
  }

  lemma NothingToDelete(d: Dialect, s: Store, hash: string)
    requires DeviceIds(d, s, hash) == {}
    ensures DeleteDevices(d, s, hash) == s
  {
    assert s.devices - {} == s.devices;
    assert SessionsOf(s, {}) == {};
    assert s.sessions - {} == s.sessions;
    KeepsAll(s.rows);
  }

  lemma {:induction false} KeepsAll(rows: seq<DataRow>)
    ensures WithoutRowsOf(rows, {}) == rows
  {
    if rows != [] {
      KeepsAll(rows[..|rows| - 1]);
    }
  }

  /** RemSession likewise. */
  lemma RemSessionTellsTheTruth(d: Dialect, env: Env, s: Store, registry: map<string, DeviceState>, rq: StoreRequest)
    requires Backend.Answers(env, s) && rq.action.RemSession? && Exact(d, rq.action.hash)
    ensures var effect := HandleStore(d, env, s, registry, rq);
            && (SaysOkay(effect) <==> env.select && s.created && HasSession(s, rq.action.hash) && env.delete)
            && (SaysOkay(effect) ==> !HasSession(effect.store, rq.action.hash))
            && (!SaysOkay(effect) ==> effect.store == s)
  {
    var hash := rq.action.hash;
    assert forall id | id in s.sessions :: Matches(d, hash, s.sessions[id].hash) <==> s.sessions[id].hash == hash;
    if HasSession(s, hash) {
      var id :| id in s.sessions && s.sessions[id].hash == hash;
      assert id in SessionIds(d, s, hash);
    } else {
      assert SessionIds(d, s, hash) == {};
    }
  }

  /** Exactly one row has the hash, and it is the requested device. */
  ghost predicate OnlyRow(s: Store, device: DeviceData) {
    exists id :: id in s.devices && s.devices[id] == device
                 && forall other | other in s.devices && s.devices[other].hash == device.hash :: other == id
  }

  /** An Okay AddDevice leaves exactly one row with the hash, carrying the requested fields - except
      exactly where SQLite could not delete the old row of a forced request and went on to insert. */
  lemma AddDeviceTellsTheTruthIff(d: Dialect, env: Env, s: Store, registry: map<string, DeviceState>, rq: StoreRequest)
    requires Backend.Answers(env, s) && rq.action.InsertDevice? && Exact(d, rq.action.device.hash) && Sound(d, s)
    requires Forced in rq.args ==> rq.args[Forced] == True
    requires SaysOkay(HandleStore(d, env, s, registry, rq))
    ensures OnlyRow(HandleStore(d, env, s, registry, rq).store, rq.action.device) <==>
            !(d.SQLite? && Forced in rq.args && !env.delete && HasDevice(s, rq.action.device.hash))
  {
    var device := rq.action.device;
    assert forall id | id in s.devices :: Matches(d, device.hash, s.devices[id].hash) <==> s.devices[id].hash == device.hash;
    var s1 := if Forced in rq.args && env.delete then DeleteDevices(d, s, device.hash) else s;
    var s' := HandleStore(d, env, s, registry, rq).store;
    assert s' == InsertDeviceRow(d, s1, device);
    FreshIdIsFresh(d, s1.nextDevice, s1.devices.Keys);
    var id := FreshId(d, s1.nextDevice, s1.devices.Keys);
    assert s'.devices[id] == device;
    if HasDevice(s1, device.hash) {
      var prior :| prior in s1.devices && s1.devices[prior].hash == device.hash;
      assert prior in s'.devices && s'.devices[prior].hash == device.hash && prior != id;
      assert prior in DeviceIds(d, s1, device.hash);
    } else {
      assert forall other | other in s'.devices && s'.devices[other].hash == device.hash :: other == id;
    }
  }

  /** Exactly one row has the hash: the session of `info`, open since `now`, at that device. */
  ghost predicate OnlySession(s: Store, info: SessionInfo, now: nat, device: nat) {
    exists id :: id in s.sessions
                 && var row := s.sessions[id];
                    && row.hash == info.hash && row.name == info.name && row.coreCount == info.coreCount
                    && row.started == now && row.ended == 0 && row.device == device
                    && forall other | other in s.sessions && s.sessions[other].hash == info.hash :: other == id
  }

  /** Every session with another hash is the same in both. */
  ghost predicate OthersStay(s: Store, s': Store, hash: string) {
    && (forall id | id in s.sessions && s.sessions[id].hash != hash :: id in s'.sessions && s'.sessions[id] == s.sessions[id])
    && (forall id | id in s'.sessions && s'.sessions[id].hash != hash :: id in s.sessions)
  }

  /** The tables with the colliding row out of the way. */
  ghost predicate Cleared(d: Dialect, s: Store, s1: Store, hash: string) {
    Sound(d, s1) && s1.devices == s.devices && !HasSession(s1, hash) && OthersStay(s, s1, hash)
  }

  lemma RemovalClears(d: Dialect, s: Store, hash: string)
    requires Exact(d, hash) && Sound(d, s)
    ensures Cleared(d, s, if SessionIds(d, s, hash) != {} then DeleteSession(d, s, hash) else s, hash)
  {
    SelectsEqual(d, s, hash);
    assert Run(d, s, RemoveSessions(hash)) == DeleteSession(d, s, hash);
    StatementStaysSound(d, s, RemoveSessions(hash));
    hide Run, Sound, SessionIds, Matches, Exact, WithoutRowsOf;
  }

  lemma SelectsEqual(d: Dialect, s: Store, hash: string)
    requires Exact(d, hash)
    ensures forall id :: id in SessionIds(d, s, hash) <==> id in s.sessions && s.sessions[id].hash == hash
  {
    assert forall id | id in s.sessions :: Matches(d, hash, s.sessions[id].hash) <==> s.sessions[id].hash == hash;
  }

  lemma InsertOpens(d: Dialect, s: Store, s1: Store, info: SessionInfo, deviceHash: string, now: nat)
    requires Cleared(d, s, s1, info.hash)
    ensures var inserted, device := InsertSession(d, s1, info, deviceHash, now), Scalar(d, DeviceIds(d, s, deviceHash));
            && (inserted.Some? <==> device.Some?)
            && (inserted.Some? ==> OthersStay(s, inserted.value, info.hash) && OnlySession(inserted.value, info, now, device.value))
  {
    hide Matches, Scalar;
    FreshIdIsFresh(d, s1.nextSession, s1.sessions.Keys);
    assert DeviceIds(d, s1, deviceHash) == DeviceIds(d, s, deviceHash);
    hide DeviceIds, FreshId, Sound;
    if InsertSession(d, s1, info, deviceHash, now).Some? {
      var id, row := FreshId(d, s1.nextSession, s1.sessions.Keys), InsertSession(d, s1, info, deviceHash, now).value.sessions[
        FreshId(d, s1.nextSession, s1.sessions.Keys)];
      OpenedAt(s, s1, InsertSession(d, s1, info, deviceHash, now).value, info, id, row);
    }
  }

  lemma OpenedAt(s: Store, s1: Store, s': Store, info: SessionInfo, id: nat, row: SessionRow)
    requires !HasSession(s1, info.hash) && OthersStay(s, s1, info.hash) && id !in s1.sessions
    requires row == SessionRow(info.hash, info.name, info.coreCount, row.started, 0, row.device, row.serial)
    requires s'.sessions == s1.sessions[id := row]
    ensures OthersStay(s, s', info.hash) && OnlySession(s', info, row.started, row.device)
  {
    assert s'.sessions[id] == row;
    assert forall other | other in s1.sessions :: s1.sessions[other].hash != info.hash;
  }

  /** AddSession leaves exactly the new open row under its hash if and only if the insert succeeds and
      the device hash selects one device row; otherwise no row has the hash. Every other session stays
      as it was. */
  lemma AddSessionOpensIff(d: Dialect, env: Env, s: Store, registry: map<string, DeviceState>, rq: StoreRequest)
    requires Backend.Answers(env, s) && WellFormed(rq) && rq.action.AddSession? && Exact(d, rq.action.info.hash)
    requires Sound(d, s) && Careful(env) && s.created
    ensures var info, s' := rq.action.info, HandleStore(d, env, s, registry, rq).store;
            var device := Scalar(d, DeviceIds(d, s, rq.args[DeviceHash].text));
            && (if env.insert && device.Some? then OnlySession(s', info, env.now, device.value)
                else !HasSession(s', info.hash))
            && OthersStay(s, s', info.hash)
  {
    hide DeleteSession, SessionIds, DeviceIds, InsertSession, Exact, Lists, Scalar, Sound, OnlySession, HasSession, OthersStay;
    var info, deviceHash := rq.action.info, rq.args[DeviceHash].text;
    var s1 := if SessionIds(d, s, info.hash) != {} then DeleteSession(d, s, info.hash) else s;
    RemovalClears(d, s, info.hash);
    InsertOpens(d, s, s1, info, deviceHash, env.now);
  }

  /** EndSession stamps exactly the rows with the hash, again if they had ended before, and nothing
      else. */
  lemma EndSessionStamps(d: Dialect, env: Env, s: Store, registry: map<string, DeviceState>, rq: StoreRequest)
    requires Backend.Answers(env, s) && WellFormed(rq) && rq.action.EndSession? && Exact(d, rq.args[SessionHash].text)
    requires env.update && s.created
    ensures var s', hash := HandleStore(d, env, s, registry, rq).store, rq.args[SessionHash].text;
            && s'.sessions.Keys == s.sessions.Keys && s' == s.(sessions := s'.sessions) && OthersStay(s, s', hash)
            && (forall id | id in s.sessions && s.sessions[id].hash == hash ::
                  s'.sessions[id] == s.sessions[id].(ended := env.now))
  {
    var hash := rq.args[SessionHash].text;
    assert forall id | id in s.sessions :: Matches(d, hash, s.sessions[id].hash) <==> s.sessions[id].hash == hash;
  }

  /** InitDatabase says Okay exactly when the back end could be reached and the tables created; they
      are empty then if the drop was forced and succeeded, and as before otherwise. */
  lemma InitTellsTheTruth(d: Dialect, env: Env, s: Store, registry: map<string, DeviceState>, rq: StoreRequest)
    requires Backend.Answers(env, s) && rq.action.InitTables?
    ensures var effect := HandleStore(d, env, s, registry, rq);
            var dropped := Forced in rq.args && rq.args[Forced] == True && env.drop;
            && (SaysOkay(effect) <==> env.create && (d.PostgreSQL? ==> env.open))
            && (SaysOkay(effect) ==> effect.store.created)
            && (SaysOkay(effect) && dropped ==>
                  effect.store.devices == map[] && effect.store.sessions == map[] && effect.store.rows == [])
            && (!dropped ==> effect.store == s.(created := effect.store.created) && (s.created ==> effect.store == s))
  {
  }

  // ---- lists ----

  lemma {:induction false} ListingSize(order: seq<nat>, ids: set<nat>)
    requires Lists(order, ids)
    ensures |order| == |ids|
  {
    if order == [] {
      assert ids == {};
    } else {
      var last := order[|order| - 1];
      var shorter := order[..|order| - 1];
      forall id | id in ids - {last} ensures id in shorter {
        var k :| 0 <= k < |order| && order[k] == id;
        assert shorter[k] == id;
      }
      ListingSize(shorter, ids - {last});
    }
  }

  /** A device list is written exactly when the query and the write succeed for a client, and it holds
      one entry per device row, with the state the registry knows for its hash. Okay only tells of the
      query: it is also said when the list could not be written. */
  lemma DeviceListTellsTheTruth(d: Dialect, env: Env, s: Store, registry: map<string, DeviceState>, rq: StoreRequest)
    requires Backend.Answers(env, s) && rq.action.ListDevices?
    ensures var effect := HandleStore(d, env, s, registry, rq);
            && (SaysOkay(effect) <==> env.select && s.created)
            && (effect.written != [] <==> SaysOkay(effect) && env.written && rq.client.Some?)
            && (effect.written != [] ==>
                  && effect.written[0].message.DeviceListMessage?
                  && var list := effect.written[0].message.devices;
                     && |list| == |s.devices|
                     && (forall id | id in s.devices :: Shown(s.devices[id], registry) in list)
                     && (forall e | e in list :: exists id :: id in s.devices && e == Shown(s.devices[id], registry)))
  {
    ListingSize(env.deviceOrder, s.devices.Keys);
    ListedDevices(s, env.deviceOrder, registry);
    hide DeviceEntries, Lists, Shown;
  }

  lemma ListedDevices(s: Store, order: seq<nat>, registry: map<string, DeviceState>)
    requires Lists(order, s.devices.Keys)
    ensures var list := DeviceEntries(s, order, registry);
            && |list| == |order|
            && (forall id | id in s.devices :: Shown(s.devices[id], registry) in list)
            && (forall e | e in list :: exists id :: id in s.devices && e == Shown(s.devices[id], registry))
  {
    var list := DeviceEntries(s, order, registry);
    forall id | id in s.devices ensures Shown(s.devices[id], registry) in list {
      var k :| 0 <= k < |order| && order[k] == id;
      assert list[k] == Shown(s.devices[id], registry);
    }
    forall e | e in list ensures exists id :: id in s.devices && e == Shown(s.devices[id], registry) {
      var k :| 0 <= k < |list| && list[k] == e;
      assert order[k] in s.devices;
    }
  }

  function Shown(device: DeviceData, registry: map<string, DeviceState>): (DeviceData, DeviceState) {
    (device, if device.hash in registry then registry[device.hash] else Unknown)
  }

  lemma {:induction false} ListedSessions(d: Dialect, s: Store, order: seq<nat>, hash: string)
    requires forall i | 0 <= i < |order| :: order[i] in s.sessions
    ensures forall e :: e in SessionEntries(d, s, order, hash) <==>
              exists k :: 0 <= k < |order| && AskedFor(d, s, hash, s.sessions[order[k]]) && e == ShownSession(s.sessions[order[k]])
  {
    if order != [] {
      var n := |order| - 1;
      var shorter := order[..n];
      ListedSessions(d, s, shorter, hash);
      forall e ensures e in SessionEntries(d, s, order, hash) <==>
          exists k :: 0 <= k < |order| && AskedFor(d, s, hash, s.sessions[order[k]]) && e == ShownSession(s.sessions[order[k]])
      {
        if e in SessionEntries(d, s, shorter, hash) {
          var k :| 0 <= k < n && AskedFor(d, s, hash, s.sessions[shorter[k]]) && e == ShownSession(s.sessions[shorter[k]]);
          assert order[k] == shorter[k];
        }
        if k :| 0 <= k < n && AskedFor(d, s, hash, s.sessions[order[k]]) && e == ShownSession(s.sessions[order[k]]) {
          assert shorter[k] == order[k];
        }
      }
    }
  }

  lemma {:induction false} ListedCount(d: Dialect, s: Store, order: seq<nat>, hash: string)
    requires forall i | 0 <= i < |order| :: order[i] in s.sessions
    requires forall i, j | 0 <= i < j < |order| :: order[i] != order[j]
    ensures |SessionEntries(d, s, order, hash)| == |Selected(d, s, order, hash)|
  {
    hide AskedFor;
    if order == [] {
      assert Selected(d, s, order, hash) == {};
    } else {
      ListedCount(d, s, order[..|order| - 1], hash);
      OneMoreSelected(d, s, order, hash);
      hide Selected;
    }
  }

  function Selected(d: Dialect, s: Store, order: seq<nat>, hash: string): set<nat>
    requires forall i | 0 <= i < |order| :: order[i] in s.sessions
  {
    set id | id in order && AskedFor(d, s, hash, s.sessions[id])
  }

  lemma OneMoreSelected(d: Dialect, s: Store, order: seq<nat>, hash: string)
    requires forall i | 0 <= i < |order| :: order[i] in s.sessions
    requires order != [] && forall i, j | 0 <= i < j < |order| :: order[i] != order[j]
    ensures |Selected(d, s, order, hash)| == |Selected(d, s, order[..|order| - 1], hash)|
                                             + if AskedFor(d, s, hash, s.sessions[order[|order| - 1]]) then 1 else 0
  {
    hide AskedFor;
    var last, shorter := order[|order| - 1], order[..|order| - 1];
    assert order == shorter + [last];
    var more: set<nat> := if AskedFor(d, s, hash, s.sessions[last]) then {last} else {};
    assert Selected(d, s, order, hash) == Selected(d, s, shorter, hash) + more;
    assert Selected(d, s, shorter, hash) !! more;
  }

  /** A written session list shows exactly the session rows asked for, each once. */
  lemma SessionListTellsTheTruth(d: Dialect, env: Env, s: Store, registry: map<string, DeviceState>, rq: StoreRequest)
    requires Backend.Answers(env, s) && rq.action.ListSessions?
    ensures var effect, hash := HandleStore(d, env, s, registry, rq), rq.action.hash;
            && (SaysOkay(effect) <==> env.select && s.created && (hash == "" || d.SQLite?))
            && (effect.written != [] <==> SaysOkay(effect) && env.written && rq.client.Some?)
            && (effect.written != [] ==>
                  && effect.written[0].message.SessionListMessage?
                  && |effect.written[0].message.sessions| == |set id | id in s.sessions && AskedFor(d, s, hash, s.sessions[id])|
                  && forall e :: e in effect.written[0].message.sessions <==>
                       exists id :: id in s.sessions && AskedFor(d, s, hash, s.sessions[id]) && e == ShownSession(s.sessions[id]))
  {
    var order, hash := env.sessionOrder, rq.action.hash;
    ListedSessions(d, s, order, hash);
    ListedCount(d, s, order, hash);
    assert Selected(d, s, order, hash) == set id | id in s.sessions && AskedFor(d, s, hash, s.sessions[id]);
    forall e ensures e in SessionEntries(d, s, order, hash) <==>
        exists id :: id in s.sessions && AskedFor(d, s, hash, s.sessions[id]) && e == ShownSession(s.sessions[id])
    {
      if id :| id in s.sessions && AskedFor(d, s, hash, s.sessions[id]) && e == ShownSession(s.sessions[id]) {
        var k :| 0 <= k < |order| && order[k] == id;
        assert AskedFor(d, s, hash, s.sessions[order[k]]) && e == ShownSession(s.sessions[order[k]]);
      }
    }
    hide SessionEntries, Lists, AskedFor;
  }
}
