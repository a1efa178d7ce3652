// What every critical section of the hub keeps: the replay ring is the newest
// part of the accepted log, the floor vouches for it, and each registered
// watcher is offered exactly its part of each transaction.
module HubInvariant {
  import opened Cdc
  import opened HubSpec

  // The newest transaction that reported a schema change, or -1.
  function LastSchema(log: seq<Transaction>): (i: int)
    ensures -1 <= i < |log|
    ensures i >= 0 ==> log[i].incompatible != []
    ensures forall j :: i < j < |log| ==> log[j].incompatible == []
  {
    if log == [] then -1
    else if log[|log| - 1].incompatible != [] then |log| - 1
    else LastSchema(log[..|log| - 1])
  }

  // How many of the oldest transactions no longer fit in the ring.
  function Evicted(log: seq<Transaction>, maxReplay: nat): nat {
    if |log| > maxReplay then |log| - maxReplay else 0
  }

  // What lastEvicted holds. A schema change is remembered there only until the
  // next eviction overwrites it.
  function LastEvictedOf(log: seq<Transaction>, maxReplay: nat): Option<LSN> {
    var s, e := LastSchema(log), Evicted(log, maxReplay);
    if s >= 0 && (s == |log| - 1 || e == 0) then Some(log[s].cursor)
    else if e > 0 then Some(log[e - 1].cursor)
    else None
  }

  ghost predicate HubInv(h: HubState) {
    && WellFormed(h)
    && SourceOrdered(h.accepted)
    && h.received == (if h.accepted == [] then None else Some(h.accepted[|h.accepted| - 1].cursor))
    && h.ring == h.accepted[Evicted(h.accepted, h.maxReplay)..]
    && h.lastEvicted == LastEvictedOf(h.accepted, h.maxReplay)
    && FloorVouches(h)
  }

  // Every transaction that has left the ring ends at or before the floor.
  ghost predicate FloorVouches(h: HubState) {
    h.floor.Some? ==>
      forall i :: 0 <= i < Evicted(h.accepted, h.maxReplay) && i < |h.accepted| ==>
        h.accepted[i].cursor <= h.floor.value
  }

  ghost predicate FloorCoversSchema(h: HubState) {
    h.floor.Some? && LastSchema(h.accepted) >= 0 ==>
      h.accepted[LastSchema(h.accepted)].cursor <= h.floor.value
  }

  // A replayable cursor has everything it still needs in the ring, in order.
  lemma ReplayableIsComplete(h: HubState, cursor: LSN)
    requires HubInv(h) && Replayable(h, cursor)
    ensures forall t :: t in h.accepted && After(t, cursor) ==> t in h.ring
    ensures forall i :: 0 <= i < |h.accepted| - |h.ring| ==> !After(h.accepted[i], cursor)
    ensures |h.ring| <= h.maxReplay
    ensures forall i, j :: 0 <= i < j < |h.ring| ==> h.ring[i].cursor < h.ring[j].cursor
  {
    var e := Evicted(h.accepted, h.maxReplay);
    forall t | t in h.accepted && After(t, cursor) ensures t in h.ring {
      var i :| 0 <= i < |h.accepted| && h.accepted[i] == t;
      assert i >= e;
      assert h.ring[i - e] == t;
    }
    forall i, j | 0 <= i < j < |h.ring| ensures h.ring[i].cursor < h.ring[j].cursor {
      assert h.ring[i] == h.accepted[e + i] && h.ring[j] == h.accepted[e + j];
    }
  }

  // Accept, part by part

  lemma RecordEffect(h: HubState, t: Transaction)
    requires HubInv(h)
    ensures var r := Record(h, t);
            var log := h.accepted + [t];
            var e := Evicted(log, h.maxReplay);
            && e <= |log|
            && r == h.(accepted := log, received := Some(t.cursor), tick := r.tick, tickTaken := false,
                       ring := log[e..], lastEvicted := r.lastEvicted, floor := r.floor)
            && r.tick == (if h.tickTaken then h.tick + 1 else h.tick)
            && r.lastEvicted == (if e > 0 then Some(log[e - 1].cursor) else h.lastEvicted)
            && r.floor == (if e > 0 && Later(log[e - 1].cursor, h.floor)
                           then Some(log[e - 1].cursor) else h.floor)
  {
    var log := h.accepted + [t];
    var e := Evicted(log, h.maxReplay);
    var e0 := Evicted(h.accepted, h.maxReplay);
    var appended := h.(accepted := log, received := Some(t.cursor),
                       tick := if h.tickTaken then h.tick + 1 else h.tick, tickTaken := false,
                       ring := h.ring + [t]);
    assert appended.ring == log[e0..];
    if e == 0 {
      assert Evict(appended) == appended;
    } else {
      assert e == e0 + 1;
      assert appended.ring[0] == log[e - 1];
      assert EvictOne(appended).ring == log[e..];
      assert Evict(EvictOne(appended)) == EvictOne(appended);
    }
  }

  // After all reports of a transaction, exactly the reported tables' watchers
  // have been ended.
  ghost predicate EndedTables(h: HubState, tables: seq<string>, r: HubState) {
    && WellFormed(r)
    && r.info.Keys == h.info.Keys
    && (forall w :: w in r.watchers <==> w in h.watchers && w in h.info && h.info[w].projection.table !in tables)
    && (forall w :: w in h.info ==>
          (r.info[w] == if w in h.watchers && h.info[w].projection.table in tables
                        then h.info[w].(overflow := Some(SchemaChanged)) else h.info[w]))
  }

  ghost predicate ReportedAt(h: HubState, tables: seq<string>, cursor: LSN, r: HubState) {
    && r == h.(watchers := r.watchers, info := r.info, stale := r.stale, floor := r.floor,
               lastEvicted := r.lastEvicted)
    && (forall x :: x in r.stale <==> x in h.stale || x in tables)
    && r.floor == (if tables != [] && Later(cursor, h.floor) then Some(cursor) else h.floor)
    && r.lastEvicted == (if tables != [] && (h.lastEvicted.None? || Later(cursor, h.lastEvicted))
                         then Some(cursor) else h.lastEvicted)
  }

  lemma {:induction false} EndedEffect(h: HubState, tables: seq<string>, cursor: LSN)
    requires WellFormed(h)
    ensures EndedTables(h, tables, InvalidateAll(h, tables, cursor))
  {
    if tables != [] {
      var n := |tables| - 1;
      EndedEffect(h, tables[..n], cursor);
      assert tables == tables[..n] + [tables[n]];
      var before := InvalidateAll(h, tables[..n], cursor);
      var r := Invalidate(before, tables[n], cursor);
      forall w | w in h.info ensures w in r.info &&
        (r.info[w] == if w in h.watchers && h.info[w].projection.table in tables
                      then h.info[w].(overflow := Some(SchemaChanged)) else h.info[w])
      {
      }
    }
  }

  lemma {:induction false} ReportedEffect(h: HubState, tables: seq<string>, cursor: LSN)
    requires h.watchers <= h.info.Keys
    ensures ReportedAt(h, tables, cursor, InvalidateAll(h, tables, cursor))
  {
    if tables != [] {
      var n := |tables| - 1;
      ReportedEffect(h, tables[..n], cursor);
      assert tables == tables[..n] + [tables[n]];
    }
  }

  // What Accept does to one watcher: nothing if it was not registered or the
  // transaction does not concern it; ended before queuing if its table was
  // reported; queued if there is room; dropped if there is not.
  ghost predicate OfferedRight(h: HubState, t: Transaction, r: HubState, w: WatcherId)
    requires w in h.info && w in r.info
  {
    var me := h.info[w];
    var cs := Changes(me.projection, me.scope, t.changes);
    if w !in h.watchers then w !in r.watchers && r.info[w] == me
    else if me.projection.table in t.incompatible then
      w !in r.watchers && r.info[w] == me.(overflow := Some(SchemaChanged))
    else if cs == [] then w in r.watchers && r.info[w] == me
    else if |me.queue| < h.queueSize then
      w in r.watchers && r.info[w] == me.(queue := me.queue + [Queued(t, cs)])
    else w !in r.watchers && r.info[w] == me.(overflow := Some(SlowWatcher))
  }

  lemma AcceptWatchers(h: HubState, t: Transaction)
    requires HubInv(h) && !Duplicate(h, t)
    ensures var r := Accept(h, t);
            && WellFormed(r) && r.info.Keys == h.info.Keys
            && (forall w :: w in h.info ==> OfferedRight(h, t, r, w))
  {
    RecordEffect(h, t);
    EndedEffect(Record(h, t), t.incompatible, t.cursor);
    ReportedEffect(Record(h, t), t.incompatible, t.cursor);
    var r := Accept(h, t);
    forall w | w in h.info ensures OfferedRight(h, t, r, w) {
    }
  }

  // All a watcher can tell about an Accept that was not a duplicate.
  ghost predicate Accepted(h: HubState, t: Transaction, r: HubState) {
    && r.accepted == h.accepted + [t]
    && r.queueSize == h.queueSize
    && r.tick == (if h.tickTaken then h.tick + 1 else h.tick) && !r.tickTaken
    && r.info.Keys == h.info.Keys
    && (forall w :: w in h.info ==> OfferedRight(h, t, r, w))
  }

  lemma AcceptSummary(h: HubState, t: Transaction)
    requires HubInv(h) && !Duplicate(h, t)
    ensures Accepted(h, t, Accept(h, t))
  {
    AcceptLog(h, t);
    AcceptWatchers(h, t);
  }

  // Accept's effect on everything but the watchers.
  lemma AcceptLog(h: HubState, t: Transaction)
    requires HubInv(h) && !Duplicate(h, t)
    ensures var r := Accept(h, t);
            var log := h.accepted + [t];
            var e := Evicted(log, h.maxReplay);
            && e <= |log|
            && r == h.(accepted := log, received := Some(t.cursor), tickTaken := false, ring := log[e..],
                       tick := if h.tickTaken then h.tick + 1 else h.tick,
                       watchers := r.watchers, info := r.info, stale := r.stale, floor := r.floor,
                       lastEvicted := r.lastEvicted)
            && (forall x :: x in r.stale <==> x in h.stale || x in t.incompatible)
  {
    RecordEffect(h, t);
    ReportedEffect(Record(h, t), t.incompatible, t.cursor);
  }

  // The closed form follows Accept's updates: evict first, then report.
  lemma LastEvictedStep(log: seq<Transaction>, t: Transaction, maxReplay: nat)
    requires SourceOrdered(log + [t]) && maxReplay >= 1
    ensures var all := log + [t];
            var e := Evicted(all, maxReplay);
            var evicted := if e > 0 then Some(all[e - 1].cursor) else LastEvictedOf(log, maxReplay);
            && e <= |all|
            && LastEvictedOf(all, maxReplay) ==
               (if t.incompatible != [] && (evicted.None? || Later(t.cursor, evicted))
                then Some(t.cursor) else evicted)
  {
    var all := log + [t];
    assert all[..|all| - 1] == log;
    assert LastSchema(all) == if t.incompatible != [] then |all| - 1 else LastSchema(log);
    forall i | 0 <= i < |log| ensures all[i] == log[i] && log[i].cursor < t.cursor {
      assert all[|log|] == t;
    }
  }

  lemma AcceptFloor(h: HubState, t: Transaction)
    requires HubInv(h) && !Duplicate(h, t)
    requires SourceOrdered(h.accepted + [t])
    ensures var r := Accept(h, t);
            && r.lastEvicted == LastEvictedOf(h.accepted + [t], h.maxReplay)
            && FloorMonotone(h, r) && (h.floor.None? ==> r.floor.None?)
            && (r.floor.Some? && Evicted(h.accepted + [t], h.maxReplay) > 0 ==>
                  r.floor.value >= (h.accepted + [t])[Evicted(h.accepted + [t], h.maxReplay) - 1].cursor)
            && (h.floor.Some? && t.incompatible != [] ==> r.floor.value >= t.cursor)
  {
    RecordEffect(h, t);
    ReportedEffect(Record(h, t), t.incompatible, t.cursor);
    LastEvictedStep(h.accepted, t, h.maxReplay);
  }

  // The replay-floor invariant survives Accept, the floor does not fall, and a
  // schema change taken while it is set leaves it at or past the change.
  lemma AcceptKeepsInv(h: HubState, t: Transaction)
    requires HubInv(h) && !Duplicate(h, t)
    requires t.commitLSN < t.cursor && (h.received.Some? ==> h.received.value <= t.commitLSN)
    ensures var r := Accept(h, t);
            && HubInv(r) && FloorMonotone(h, r)
            && (h.floor.Some? && t.incompatible != [] ==> r.floor.value >= t.cursor)
            && (FloorCoversSchema(h) ==> FloorCoversSchema(r))
  {
    var log := h.accepted + [t];
    assert SourceOrdered(log);
    AcceptLog(h, t);
    AcceptFloor(h, t);
    AcceptWatchers(h, t);
    assert log[..|log| - 1] == h.accepted;
    assert LastSchema(log) == if t.incompatible != [] then |log| - 1 else LastSchema(h.accepted);
  }

  ghost predicate FloorMonotone(h: HubState, r: HubState) {
    h.floor.Some? ==> r.floor.Some? && h.floor.value <= r.floor.value
  }

  // The first snapshot sets a floor at or past the last schema change except in
  // one family of states: the ring has overflowed, the change is still in it but
  // not newest, and the snapshot's cursor lies before it.
  lemma FirstFloorCoversSchema(h: HubState, cursor: LSN)
    requires HubInv(h) && h.floor.None? && LastSchema(h.accepted) >= 0
    ensures var s := LastSchema(h.accepted);
            var e := Evicted(h.accepted, h.maxReplay);
            FloorCoversSchema(RecordSnapshot(h, cursor)) <==>
              (cursor >= h.accepted[s].cursor || e == 0 || s < e || s == |h.accepted| - 1)
  {
  }

  lemma RecordSnapshotKeepsInv(h: HubState, cursor: LSN)
    requires HubInv(h)
    ensures var r := RecordSnapshot(h, cursor);
            HubInv(r) && FloorMonotone(h, r) && (h.floor.Some? ==> r == h)
  {
  }
}
