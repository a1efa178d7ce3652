// What one critical section of the hub does (internal/watch/hub.go), as a
// function on a value. Accept is stated here with the naive per-watcher filter;
// the class in Hub.dfy computes the same with its route index and scratch space.
module HubSpec {
  import opened Cdc

  type WatcherId = nat

  datatype Projection = Projection(table: string, scopeColumn: string)

  datatype ResyncReason =
    CursorUnavailable | SlowWatcher | SnapshotWindowClosed | SourceStopped | SchemaChanged

  // A relevant transaction waiting for its watcher, with the watcher's part.
  datatype Queued = Queued(transaction: Transaction, changes: seq<Change>)

  // One watcher: what it watches, its queue, and, once the hub has closed its
  // overflow channel, the reason.
  datatype Watcher = Watcher(projection: Projection, scope: string, queue: seq<Queued>,
                             overflow: Option<ResyncReason>)

  // `accepted` is the history of every transaction the hub did not refuse as a
  // duplicate. Ticks are channels, numbered in the order they are made.
  datatype HubState = HubState(
    maxReplay: nat,
    queueSize: nat,
    accepted: seq<Transaction>,
    ring: seq<Transaction>,
    received: Option<LSN>,
    floor: Option<LSN>,
    lastEvicted: Option<LSN>,
    watchers: set<WatcherId>,
    info: map<WatcherId, Watcher>,
    stale: set<string>,
    tick: nat,
    tickTaken: bool)

  // Go's map lookup: a key without the scope column reads as "".
  function ScopeOf(c: Change, scopeColumn: string): string {
    if scopeColumn in c.key then c.key[scopeColumn] else ""
  }

  predicate Matches(p: Projection, scope: string, c: Change) {
    c.table == p.table && ScopeOf(c, p.scopeColumn) == scope
  }

  // projection.changes: the part of a change list that belongs to one scope.
  function Changes(p: Projection, scope: string, cs: seq<Change>): seq<Change> {
    if cs == [] then []
    else
      var n := |cs| - 1;
      Changes(p, scope, cs[..n]) + if Matches(p, scope, cs[n]) then [cs[n]] else []
  }

  predicate Relevant(p: Projection, scope: string, t: Transaction) {
    Changes(p, scope, t.changes) != []
  }

  predicate Later(a: LSN, b: Option<LSN>) {
    b.Some? && a > b.value
  }

  ghost predicate WellFormed(h: HubState) {
    && h.maxReplay >= 1
    && h.queueSize >= 1
    && h.watchers <= h.info.Keys
    && (forall w :: w in h.watchers ==> h.info[w].overflow.None?)
  }

  // removeLocked, endLocked

  function Remove(h: HubState, w: WatcherId): HubState {
    h.(watchers := h.watchers - {w})
  }

  function End(h: HubState, w: WatcherId, reason: ResyncReason): HubState
    requires w in h.watchers ==> w in h.info
  {
    if w !in h.watchers then h
    else Remove(h, w).(info := h.info[w := h.info[w].(overflow := Some(reason))])
  }

  // evictLocked

  function EvictOne(h: HubState): HubState
    requires h.ring != []
  {
    var evicted := h.ring[0].cursor;
    h.(ring := h.ring[1..],
       lastEvicted := Some(evicted),
       floor := if Later(evicted, h.floor) then Some(evicted) else h.floor)
  }

  function Evict(h: HubState): (r: HubState)
    ensures r == h.(ring := r.ring, lastEvicted := r.lastEvicted, floor := r.floor)
    decreases |h.ring|
  {
    if |h.ring| > h.maxReplay then Evict(EvictOne(h)) else h
  }

  // invalidateLocked

  function EndAll(h: HubState, some: set<WatcherId>, reason: ResyncReason): HubState
    requires h.watchers <= h.info.Keys
  {
    h.(watchers := h.watchers - some,
       info := map w | w in h.info ::
         if w in h.watchers && w in some then h.info[w].(overflow := Some(reason)) else h.info[w])
  }

  function WatchersOf(h: HubState, table: string): set<WatcherId>
    requires h.watchers <= h.info.Keys
  {
    set w | w in h.watchers && h.info[w].projection.table == table
  }

  lemma EndNone(h: HubState, reason: ResyncReason)
    requires h.watchers <= h.info.Keys
    ensures forall some :: some !! h.watchers ==> EndAll(h, some, reason) == h
  {
    forall some | some !! h.watchers ensures EndAll(h, some, reason) == h {
      assert EndAll(h, some, reason).watchers == h.watchers;
      assert EndAll(h, some, reason).info == h.info;
    }
  }

  // Ending a table's watchers one by one, in any order, ends them all.
  lemma EndIfOf(h: HubState, table: string, todo: set<WatcherId>, w: WatcherId, reason: ResyncReason)
    requires h.watchers <= h.info.Keys && w in todo && todo <= h.watchers
    ensures var before := EndAll(h, WatchersOf(h, table) - todo, reason);
            var after := EndAll(h, WatchersOf(h, table) - (todo - {w}), reason);
            && w in before.watchers && w in before.info
            && before.info[w] == h.info[w]
            && after == if h.info[w].projection.table == table then End(before, w, reason) else before
  {
    var before := EndAll(h, WatchersOf(h, table) - todo, reason);
    var after := EndAll(h, WatchersOf(h, table) - (todo - {w}), reason);
    if h.info[w].projection.table == table {
      assert after.watchers == End(before, w, reason).watchers;
      assert after.info == End(before, w, reason).info;
    } else {
      assert WatchersOf(h, table) - (todo - {w}) == WatchersOf(h, table) - todo;
    }
  }

  function Invalidate(h: HubState, table: string, cursor: LSN): (r: HubState)
    requires h.watchers <= h.info.Keys
    ensures r.watchers <= r.info.Keys
  {
    EndAll(h, WatchersOf(h, table), SchemaChanged).(
      stale := h.stale + {table},
      floor := if Later(cursor, h.floor) then Some(cursor) else h.floor,
      lastEvicted := if h.lastEvicted.None? || Later(cursor, h.lastEvicted)
                     then Some(cursor) else h.lastEvicted)
  }

  function InvalidateAll(h: HubState, tables: seq<string>, cursor: LSN): (r: HubState)
    requires h.watchers <= h.info.Keys
    ensures r.watchers <= r.info.Keys
  {
    if tables == [] then h
    else Invalidate(InvalidateAll(h, tables[..|tables| - 1], cursor), tables[|tables| - 1], cursor)
  }

  // The queueing half of Accept: what one watcher gets from a transaction.

  predicate Overflows(h: HubState, w: WatcherId, t: Transaction)
    requires w in h.info
  {
    Relevant(h.info[w].projection, h.info[w].scope, t) && |h.info[w].queue| >= h.queueSize
  }

  function Offered(h: HubState, w: WatcherId, t: Transaction): Watcher
    requires w in h.info
  {
    var me := h.info[w];
    var cs := Changes(me.projection, me.scope, t.changes);
    if cs == [] then me
    else if |me.queue| < h.queueSize then me.(queue := me.queue + [Queued(t, cs)])
    else me.(overflow := Some(SlowWatcher))
  }

  function OfferTo(h: HubState, t: Transaction, some: set<WatcherId>): HubState
    requires h.watchers <= h.info.Keys
  {
    h.(watchers := (set w | w in h.watchers && !(w in some && Overflows(h, w, t))),
       info := map w | w in h.info ::
         if w in h.watchers && w in some then Offered(h, w, t) else h.info[w])
  }

  lemma OfferOneMore(h: HubState, t: Transaction, some: set<WatcherId>, w: WatcherId)
    requires h.watchers <= h.info.Keys && w in h.watchers && w !in some
    ensures OfferTo(h, t, some).watchers <= OfferTo(h, t, some).info.Keys
    ensures OfferTo(OfferTo(h, t, some), t, {w}) == OfferTo(h, t, some + {w})
  {
    var a := OfferTo(OfferTo(h, t, some), t, {w});
    var b := OfferTo(h, t, some + {w});
    assert a.watchers == b.watchers;
    assert a.info == b.info;
  }

  // Watchers a transaction does not concern may be left out.
  lemma OfferEnough(h: HubState, t: Transaction, some: set<WatcherId>)
    requires h.watchers <= h.info.Keys
    requires forall w :: w in h.watchers && Relevant(h.info[w].projection, h.info[w].scope, t) ==> w in some
    ensures OfferTo(h, t, some) == OfferTo(h, t, h.watchers)
  {
    var a := OfferTo(h, t, some);
    var b := OfferTo(h, t, h.watchers);
    assert a.watchers == b.watchers;
    assert a.info == b.info;
  }

  // Accept's bookkeeping before it looks at watchers.
  function Record(h: HubState, t: Transaction): (r: HubState)
  {
    Evict(h.(accepted := h.accepted + [t],
             received := Some(t.cursor),
             tick := if h.tickTaken then h.tick + 1 else h.tick,
             tickTaken := false,
             ring := h.ring + [t]))
  }

  predicate Duplicate(h: HubState, t: Transaction) {
    h.received.Some? && t.cursor <= h.received.value
  }

  function Accept(h: HubState, t: Transaction): HubState
    requires h.watchers <= h.info.Keys
  {
    if Duplicate(h, t) then h
    else
      var recorded := InvalidateAll(Record(h, t), t.incompatible, t.cursor);
      OfferTo(recorded, t, recorded.watchers)
  }

  // The tick Accept must close once it has released the lock.
  function TickToClose(h: HubState, t: Transaction): Option<nat> {
    if !Duplicate(h, t) && h.tickTaken then Some(h.tick) else None
  }

  // registerLocked

  function Register(h: HubState, w: WatcherId, p: Projection, scope: string): HubState {
    h.(watchers := h.watchers + {w}, info := h.info[w := Watcher(p, scope, [], None)])
  }

  // position: also takes the tick.
  function TakeTick(h: HubState): HubState {
    h.(tickTaken := true)
  }

  // replayableLocked, recordSnapshotLocked

  predicate Replayable(h: HubState, cursor: LSN) {
    h.floor.Some? && cursor >= h.floor.value
  }

  function RecordSnapshot(h: HubState, cursor: LSN): HubState {
    if h.floor.Some? then h
    else h.(floor := Some(if h.lastEvicted.Some? && h.lastEvicted.value > cursor
                          then h.lastEvicted.value else cursor))
  }

  // The watcher's own receive from its queue.
  function Dequeue(h: HubState, w: WatcherId): HubState
    requires w in h.info && h.info[w].queue != []
  {
    h.(info := h.info[w := h.info[w].(queue := h.info[w].queue[1..])])
  }
}
