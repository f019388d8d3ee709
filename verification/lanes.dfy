/** Update lanes of a device (source/MonitorDevice.cpp, source/DataSource.h). */
module Lanes {
  import opened Protocol
  import opened Positions

  datatype Lane = Fast | Pace | Slow | AnyLane

  /** A source and the lane that drives it; its callback asks the monitor for that source. */
  datatype DataSource = DataSource(source: Source, lane: Lane)

  /** Appends and removals take effect at `Commit`. */
  class SafeList<T(==)> {
    var items: seq<T>
    var added: seq<T>
    var removed: seq<T>

    constructor ()
      ensures items == [] && added == [] && removed == []
    {
      items, added, removed := [], [], [];
    }

    method Append(x: T)
      modifies this
      ensures items == old(items) && removed == old(removed) && added == old(added) + [x]
    {
      added := added + [x];
    }

    method Remove(x: T)
      modifies this
      ensures items == old(items) && added == old(added) && removed == old(removed) + [x]
    {
      removed := removed + [x];
    }

    method Commit()
      modifies this
      ensures items == Without(old(items), old(removed)) + old(added) && added == [] && removed == []
    {
      items := Without(items, removed) + added;
      added, removed := [], [];
    }
  }

  function Without<T(==)>(xs: seq<T>, gone: seq<T>): seq<T> {
    if xs == [] then []
    else (if xs[0] in gone then [] else [xs[0]]) + Without(xs[1..], gone)
  }

  lemma {:induction false} WithoutAll<T>(xs: seq<T>, gone: seq<T>)
    requires forall x | x in xs :: x in gone
    ensures Without(xs, gone) == []
  {
    if xs != [] {
      WithoutAll(xs[1..], gone);
    }
  }

  lemma {:induction false} WithoutNone<T>(xs: seq<T>)
    ensures Without(xs, []) == xs
  {
    if xs != [] {
      WithoutNone(xs[1..]);
    }
  }

  /** The recognised sources of one lane, in order. */
  function LaneSources(sources: seq<Source>, lane: Lane): seq<DataSource> {
    if sources == [] then []
    else
      var last := sources[|sources| - 1];
      LaneSources(sources[..|sources| - 1], lane) + if last.OtherSource? then [] else [DataSource(last, lane)]
  }

  predicate Recognised(source: Source) {
    !source.OtherSource?
  }

  /** Each recognised source has its place in the lane, in order, and nothing else has. */
  lemma {:induction false} LaneHolds(sources: seq<Source>, lane: Lane, n: nat)
    requires n < |sources| && Recognised(sources[n])
    ensures var place := Rank(sources, Recognised, n);
            place < |LaneSources(sources, lane)| && LaneSources(sources, lane)[place] == DataSource(sources[n], lane)
  {
    var m := |sources| - 1;
    LaneLength(sources[..m], lane);
    RankOfPrefix(sources, Recognised, m, m);
    if n < m {
      RankOfPrefix(sources, Recognised, m, n);
      LaneHolds(sources[..m], lane, n);
    }
  }

  lemma {:induction false} LaneLength(sources: seq<Source>, lane: Lane)
    ensures |LaneSources(sources, lane)| == Rank(sources, Recognised, |sources|)
  {
    if sources != [] {
      var m := |sources| - 1;
      RankSnoc(sources, Recognised, |sources|);
      RankOfPrefix(sources, Recognised, m, m);
      LaneLength(sources[..m], lane);
    }
  }

  function Configured(info: SessionInfo): seq<DataSource> {
    LaneSources(info.fastLane, Fast) + LaneSources(info.paceLane, Pace) + LaneSources(info.slowLane, Slow)
  }

  method AppendLane(list: SafeList<DataSource>, sources: seq<Source>, lane: Lane)
    modifies list
    ensures list.items == old(list.items) && list.removed == old(list.removed)
    ensures list.added == old(list.added) + LaneSources(sources, lane)
  {
    hide LaneSources;
    EmptyLane(lane);
    for i := 0 to |sources|
      invariant list.items == old(list.items) && list.removed == old(list.removed)
      invariant list.added == old(list.added) + LaneSources(sources[..i], lane)
    {
      LaneMore(sources, lane, i);
      match sources[i]
      case OtherSource =>
      case source => list.Append(DataSource(source, lane));
    }
    assert sources[..|sources|] == sources;
  }

  lemma EmptyLane(lane: Lane)
    ensures LaneSources([], lane) == []
  {
  }

  lemma LaneMore(sources: seq<Source>, lane: Lane, i: nat)
    requires i < |sources|
    ensures LaneSources(sources[..i + 1], lane)
         == LaneSources(sources[..i], lane) + if sources[i].OtherSource? then [] else [DataSource(sources[i], lane)]
  {
    assert sources[..i + 1][..i] == sources[..i];
  }

  /** Whatever the list held, it ends up holding exactly the recognised sources of the session, fast
      lane first. */
  method ConfigUpdateLanes(list: SafeList<DataSource>, info: SessionInfo)
    requires list.added == [] && list.removed == []
    modifies list
    ensures list.items == Configured(info) && list.added == [] && list.removed == []
  {
    var entries := list.items;
    for i := 0 to |entries|
      invariant list.items == entries && list.added == [] && list.removed == entries[..i]
    {
      list.Remove(entries[i]);
    }
    assert entries[..|entries|] == entries;
    WithoutAll(entries, entries);
    list.Commit();
    AppendLane(list, info.fastLane, Fast);
    AppendLane(list, info.paceLane, Pace);
    AppendLane(list, info.slowLane, Slow);
    list.Commit();
    assert Without<DataSource>([], []) == [];
    hide Without, LaneSources;
  }

  /** The sources one tick of a lane updates. */
  function Ticked(sources: seq<DataSource>, lane: Lane): seq<DataSource> {
    if sources == [] then []
    else
      var last := sources[|sources| - 1];
      Ticked(sources[..|sources| - 1], lane) + if last.lane == lane || last.lane.AnyLane? then [last] else []
  }

  /** The callback of a lane timer: each source of the lane is asked for over the connection. `fault`
      is such a call while there is no connection. */
  method Tick(list: SafeList<DataSource>, lane: Lane, connected: bool) returns (updated: seq<DataSource>, fault: bool)
    ensures fault <==> !connected && Ticked(list.items, lane) != []
    ensures !fault ==> updated == Ticked(list.items, lane)
  {
    updated, fault := [], false;
    for i := 0 to |list.items|
      invariant !fault && updated == Ticked(list.items[..i], lane) && (updated != [] ==> connected)
    {
      assert list.items[..i + 1][..i] == list.items[..i];
      if list.items[i].lane == lane || list.items[i].lane.AnyLane? {
        if !connected {
          TickedAdd(list.items[..i + 1], list.items[i + 1..], lane);
          assert list.items == list.items[..i + 1] + list.items[i + 1..];
          return updated, true;
        }
        updated := updated + [list.items[i]];
      }
    }
    assert list.items[..|list.items|] == list.items;
  }

  lemma {:induction false} TickedAdd(a: seq<DataSource>, b: seq<DataSource>, lane: Lane)
    ensures Ticked(a + b, lane) == Ticked(a, lane) + Ticked(b, lane)
    decreases |b|
  {
    if b == [] {
      assert a + b == a;
    } else {
      assert (a + b)[..|a + b| - 1] == a + b[..|b| - 1];
      TickedAdd(a, b[..|b| - 1], lane);
    }
  }

  lemma {:induction false} LaneTicks(sources: seq<Source>, own: Lane, lane: Lane)
    requires !own.AnyLane?
    ensures Ticked(LaneSources(sources, own), lane) == if lane == own then LaneSources(sources, own) else []
  {
    if sources != [] {
      var earlier, last := sources[..|sources| - 1], sources[|sources| - 1];
      LaneTicks(earlier, own, lane);
      if !last.OtherSource? {
        assert LaneSources(sources, own) == LaneSources(earlier, own) + [DataSource(last, own)];
        TickedAdd(LaneSources(earlier, own), [DataSource(last, own)], lane);
        assert Ticked([DataSource(last, own)], lane) == if lane == own then [DataSource(last, own)] else [];
      } else {
        assert LaneSources(sources, own) == LaneSources(earlier, own);
      }
    }
  }

  /** After configuration one tick of a lane updates exactly the sources configured for it, so every
      entry is driven by exactly one lane. */
  lemma EachLaneDrivesItsOwn(info: SessionInfo)
    ensures Ticked(Configured(info), Fast) == LaneSources(info.fastLane, Fast)
    ensures Ticked(Configured(info), Pace) == LaneSources(info.paceLane, Pace)
    ensures Ticked(Configured(info), Slow) == LaneSources(info.slowLane, Slow)
    ensures Configured(info) == Ticked(Configured(info), Fast) + Ticked(Configured(info), Pace) + Ticked(Configured(info), Slow)
  {
    LaneOf(info, Fast);
    LaneOf(info, Pace);
    LaneOf(info, Slow);
  }

  lemma LaneOf(info: SessionInfo, lane: Lane)
    ensures Ticked(Configured(info), lane) ==
            (if lane == Fast then LaneSources(info.fastLane, Fast) else [])
            + (if lane == Pace then LaneSources(info.paceLane, Pace) else [])
            + (if lane == Slow then LaneSources(info.slowLane, Slow) else [])
  {
    var fast, pace, slow := LaneSources(info.fastLane, Fast), LaneSources(info.paceLane, Pace), LaneSources(info.slowLane, Slow);
    TickedAdd(fast + pace, slow, lane);
    TickedAdd(fast, pace, lane);
    LaneTicks(info.fastLane, Fast, lane);
    LaneTicks(info.paceLane, Pace, lane);
    LaneTicks(info.slowLane, Slow, lane);
    hide Ticked, LaneSources;
  }
}
