// The hub as it runs (internal/watch/hub.go): a route index from table and scope
// to watchers, scan-then-hash delivery lookup, and scratch space reused between
// transactions. Every method is proved to do what HubSpec says.
module Hub {
  import opened Cdc
  import opened HubSpec
  import Visibility
  import Watch

  const DEFAULT_MAX_REPLAY: nat := 10_000
  const DEFAULT_WATCHER_QUEUE: nat := 1024
  // How many scopes a transaction must touch before deliveries are hashed.
  const INDEXED_DELIVERIES: nat := 8

  // A configured projection.
  datatype Spec = Spec(sourceID: string, schema: string, table: string, scopeColumn: string)

  function Served(spec: Spec): Projection {
    Projection(spec.schema + "." + spec.table, spec.scopeColumn)
  }

  // These projections are named and belong to the source.
  predicate AllServable(sourceID: string, projections: map<string, Spec>, names: set<string>)
    requires names <= projections.Keys
  {
    forall name :: name in names ==> name != "" && projections[name].sourceID == sourceID
  }

  // The watchers of one table whose projections share a scope column, by scope.
  datatype Route = Route(scopeColumn: string, scopes: map<string, seq<WatcherId>>)

  // One scope's part of the transaction being accepted.
  datatype Delivery = Delivery(watchers: seq<WatcherId>, changes: seq<Change>)

  // A route (by its table and position, which never change) and a scope.
  datatype DeliveryKey = DeliveryKey(table: string, route: nat, scope: string)

  type Routes = map<string, seq<Route>>

  predicate HasRoute(routes: Routes, k: DeliveryKey) {
    k.table in routes && k.route < |routes[k.table]|
  }

  function ColumnOf(routes: Routes, k: DeliveryKey): string {
    if HasRoute(routes, k) then routes[k.table][k.route].scopeColumn else ""
  }

  function At(routes: Routes, k: DeliveryKey): seq<WatcherId> {
    if HasRoute(routes, k) && k.scope in routes[k.table][k.route].scopes
    then routes[k.table][k.route].scopes[k.scope] else []
  }

  predicate Distinct<T(==)>(s: seq<T>) {
    forall i, j :: 0 <= i < j < |s| ==> s[i] != s[j]
  }

  ghost predicate DistinctColumns(routes: Routes) {
    forall j, k {:trigger ColumnOf(routes, j), ColumnOf(routes, k)} ::
      (HasRoute(routes, j) && HasRoute(routes, k) && j.table == k.table && j.route != k.route) ==>
        ColumnOf(routes, j) != ColumnOf(routes, k)
  }

  ghost predicate Routed(routes: Routes, k: DeliveryKey, me: Watcher) {
    && HasRoute(routes, k)
    && me.projection == Projection(k.table, ColumnOf(routes, k))
    && me.scope == k.scope
  }

  ghost predicate IndexSound(routes: Routes, watchers: set<WatcherId>, info: map<WatcherId, Watcher>)
    requires watchers <= info.Keys
  {
    forall k, w :: w in At(routes, k) ==> w in watchers && Routed(routes, k, info[w])
  }

  ghost predicate Listed(routes: Routes, w: WatcherId) {
    exists k :: w in At(routes, k)
  }

  ghost predicate IndexComplete(routes: Routes, watchers: set<WatcherId>) {
    forall w {:trigger Listed(routes, w)} :: w in watchers ==> Listed(routes, w)
  }

  // The index and the set of registered watchers agree, in both directions.
  ghost predicate RoutesAgree(routes: Routes, watchers: set<WatcherId>, info: map<WatcherId, Watcher>) {
    && watchers <= info.Keys
    && DistinctColumns(routes)
    && (forall k {:trigger Distinct(At(routes, k))} :: Distinct(At(routes, k)))
    && IndexSound(routes, watchers, info)
    && IndexComplete(routes, watchers)
  }

  function Without(s: seq<WatcherId>, w: WatcherId): (r: seq<WatcherId>)
    ensures forall x :: x in r <==> x in s && x != w
    ensures Distinct(s) ==> Distinct(r)
  {
    if s == [] then []
    else if s[0] == w then
      assert s == [s[0]] + s[1..];
      Without(s[1..], w)
    else
      assert s == [s[0]] + s[1..];
      var rest := Without(s[1..], w);
      assert Distinct(s) ==> s[0] !in rest;
      [s[0]] + rest
  }

  // Replaces one scope's watcher list; an empty list removes the scope.
  function SetScope(routes: Routes, k: DeliveryKey, ws: seq<WatcherId>): (r: Routes)
    requires HasRoute(routes, k)
    ensures forall j :: HasRoute(r, j) == HasRoute(routes, j)
    ensures forall j :: ColumnOf(r, j) == ColumnOf(routes, j)
    ensures forall j :: At(r, j) == if j == k then ws else At(routes, j)
  {
    var route := routes[k.table][k.route];
    var scopes := if ws == [] then route.scopes - {k.scope} else route.scopes[k.scope := ws];
    routes[k.table := routes[k.table][k.route := route.(scopes := scopes)]]
  }

  lemma OneHome(routes: Routes, watchers: set<WatcherId>, info: map<WatcherId, Watcher>,
                j: DeliveryKey, k: DeliveryKey, w: WatcherId)
    requires RoutesAgree(routes, watchers, info)
    requires w in At(routes, j) && w in At(routes, k)
    ensures j == k
  {
    assert Routed(routes, j, info[w]) && Routed(routes, k, info[w]);
  }

  // Taking w out of its list keeps the index and the registrations in agreement.
  lemma RemoveKeepsSoundAt(routes: Routes, watchers: set<WatcherId>, info: map<WatcherId, Watcher>,
                           k: DeliveryKey, w: WatcherId, j: DeliveryKey, x: WatcherId)
    requires RoutesAgree(routes, watchers, info)
    requires w in watchers && w in At(routes, k)
    requires x in At(SetScope(routes, k, Without(At(routes, k), w)), j)
    ensures x in watchers - {w} && Routed(SetScope(routes, k, Without(At(routes, k), w)), j, info[x])
  {
    hide SetScope, Without, DistinctColumns, IndexComplete, Distinct;
    assert x in At(routes, j);
    assert Routed(routes, j, info[x]);
    if x == w { OneHome(routes, watchers, info, j, k, w); }
  }

  lemma RemoveKeepsSound(routes: Routes, watchers: set<WatcherId>, info: map<WatcherId, Watcher>,
                         k: DeliveryKey, w: WatcherId)
    requires RoutesAgree(routes, watchers, info)
    requires w in watchers && w in At(routes, k)
    ensures IndexSound(SetScope(routes, k, Without(At(routes, k), w)), watchers - {w}, info)
  {
    var r := SetScope(routes, k, Without(At(routes, k), w));
    forall j, x | x in At(r, j) ensures x in watchers - {w} && Routed(r, j, info[x]) {
      RemoveKeepsSoundAt(routes, watchers, info, k, w, j, x);
    }
  }

  lemma RemoveKeepsComplete(routes: Routes, watchers: set<WatcherId>, k: DeliveryKey, w: WatcherId)
    requires IndexComplete(routes, watchers)
    requires w in watchers && w in At(routes, k)
    ensures IndexComplete(SetScope(routes, k, Without(At(routes, k), w)), watchers - {w})
  {
    var r := SetScope(routes, k, Without(At(routes, k), w));
    forall x | x in watchers - {w} ensures Listed(r, x) {
      assert Listed(routes, x);
      var j :| x in At(routes, j);
      assert x in At(r, j);
    }
  }

  lemma SetScopeKeepsShape(routes: Routes, k: DeliveryKey, ws: seq<WatcherId>)
    requires HasRoute(routes, k) && DistinctColumns(routes)
    requires (forall j :: Distinct(At(routes, j))) && Distinct(ws)
    ensures DistinctColumns(SetScope(routes, k, ws))
    ensures forall j :: Distinct(At(SetScope(routes, k, ws), j))
  {
    var r := SetScope(routes, k, ws);
    forall i, j | HasRoute(r, i) && HasRoute(r, j) && i.table == j.table && i.route != j.route
      ensures ColumnOf(r, i) != ColumnOf(r, j)
    {
      assert ColumnOf(routes, i) != ColumnOf(routes, j);
    }
  }

  lemma RemoveKeepsAgreement(routes: Routes, watchers: set<WatcherId>, info: map<WatcherId, Watcher>,
                             k: DeliveryKey, w: WatcherId)
    requires RoutesAgree(routes, watchers, info)
    requires w in watchers && w in At(routes, k)
    ensures RoutesAgree(SetScope(routes, k, Without(At(routes, k), w)), watchers - {w}, info)
  {
    SetScopeKeepsShape(routes, k, Without(At(routes, k), w));
    RemoveKeepsSound(routes, watchers, info, k, w);
    RemoveKeepsComplete(routes, watchers, k, w);
  }

  function AddRoute(routes: Routes, p: Projection): (r: Routes)
    ensures forall k :: At(r, k) == At(routes, k)
    ensures forall k :: HasRoute(routes, k) ==> HasRoute(r, k) && ColumnOf(r, k) == ColumnOf(routes, k)
    ensures var n := if p.table in routes then |routes[p.table]| else 0;
            forall k :: HasRoute(r, k) && !HasRoute(routes, k) ==>
              k.table == p.table && k.route == n && ColumnOf(r, k) == p.scopeColumn
    ensures var n := if p.table in routes then |routes[p.table]| else 0;
            p.table in r && |r[p.table]| == n + 1 && r[p.table][n].scopeColumn == p.scopeColumn
  {
    var same := if p.table in routes then routes[p.table] else [];
    routes[p.table := same + [Route(p.scopeColumn, map[])]]
  }

  lemma AddRouteKeepsAgreement(routes: Routes, watchers: set<WatcherId>, info: map<WatcherId, Watcher>,
                               p: Projection)
    requires RoutesAgree(routes, watchers, info)
    requires forall k :: HasRoute(routes, k) && k.table == p.table ==> ColumnOf(routes, k) != p.scopeColumn
    ensures RoutesAgree(AddRoute(routes, p), watchers, info)
  {
    var r := AddRoute(routes, p);
    forall w | w in watchers ensures Listed(r, w) {
      assert Listed(routes, w);
      var j :| w in At(routes, j);
      assert w in At(r, j);
    }
    forall j, x | x in At(r, j) ensures x in watchers && Routed(r, j, info[x]) {
      assert x in At(routes, j);
      assert Routed(routes, j, info[x]);
    }
  }

  // Appending a new watcher to its scope's list keeps the agreement.
  lemma AddKeepsAgreement(routes: Routes, watchers: set<WatcherId>, info: map<WatcherId, Watcher>,
                          k: DeliveryKey, w: WatcherId, me: Watcher)
    requires RoutesAgree(routes, watchers, info)
    requires w !in info && Routed(routes, k, me)
    ensures RoutesAgree(SetScope(routes, k, At(routes, k) + [w]), watchers + {w}, info[w := me])
  {
    assert w !in At(routes, k);
    var r := SetScope(routes, k, At(routes, k) + [w]);
    SetScopeKeepsShape(routes, k, At(routes, k) + [w]);
    forall j, x | x in At(r, j) ensures x in watchers + {w} && Routed(r, j, info[w := me][x]) {
      if x != w {
        assert x in At(routes, j);
        assert Routed(routes, j, info[x]);
      }
    }
    forall x | x in watchers + {w} ensures Listed(r, x) {
      if x == w {
        assert x in At(r, k);
      } else {
        assert Listed(routes, x);
        var j :| x in At(routes, j);
        assert x in At(r, j);
      }
    }
  }

  // deliveryIndex says where each of the first n keys is, and nothing else.
  ghost predicate IndexedUpTo(keys: seq<DeliveryKey>, index: map<DeliveryKey, nat>, n: nat)
    requires n <= |keys|
  {
    && (forall j :: 0 <= j < n ==> keys[j] in index && index[keys[j]] == j)
    && (forall k :: k in index ==> index[k] < n && keys[index[k]] == k)
  }

  // The hash index is empty up to the switch, and complete past it.
  ghost predicate Indexed(keys: seq<DeliveryKey>, index: map<DeliveryKey, nat>) {
    IndexedUpTo(keys, index, if |keys| <= INDEXED_DELIVERIES then 0 else |keys|)
  }

  // A key's part of a change list.
  function KeyChanges(routes: Routes, k: DeliveryKey, cs: seq<Change>): seq<Change> {
    Changes(Projection(k.table, ColumnOf(routes, k)), k.scope, cs)
  }

  // Which changes key k has been given when Accept is at change i, route r.
  function Seen(cs: seq<Change>, i: nat, r: nat, k: DeliveryKey): seq<Change>
    requires i <= |cs|
  {
    if i < |cs| && k.table == cs[i].table && k.route < r then cs[..i + 1] else cs[..i]
  }

  ghost predicate Collected(routes: Routes, ds: seq<Delivery>, ks: seq<DeliveryKey>,
                            cs: seq<Change>, i: nat, r: nat)
    requires i <= |cs|
  {
    && |ds| == |ks| && Distinct(ks)
    && (forall j :: 0 <= j < |ks| ==>
          && ds[j].watchers == At(routes, ks[j]) != []
          && ds[j].changes == KeyChanges(routes, ks[j], Seen(cs, i, r, ks[j])) != [])
    && (forall k :: At(routes, k) != [] && KeyChanges(routes, k, Seen(cs, i, r, k)) != [] ==> k in ks)
  }

  // Moving from route r to r + 1 of one change gives the change to one key.
  lemma SeenStep(routes: Routes, cs: seq<Change>, i: nat, r: nat, k: DeliveryKey)
    requires i < |cs| && HasRoute(routes, DeliveryKey(cs[i].table, r, ""))
    ensures var scope := ScopeOf(cs[i], routes[cs[i].table][r].scopeColumn);
            KeyChanges(routes, k, Seen(cs, i, r + 1, k)) == KeyChanges(routes, k, Seen(cs, i, r, k)) +
              if k == DeliveryKey(cs[i].table, r, scope) then [cs[i]] else []
  {
    assert cs[..i + 1][..i] == cs[..i];
  }

  lemma CollectStep(routes: Routes, ds: seq<Delivery>, ks: seq<DeliveryKey>,
                    ds': seq<Delivery>, ks': seq<DeliveryKey>, cs: seq<Change>, i: nat, r: nat, d: nat)
    requires i < |cs| && HasRoute(routes, DeliveryKey(cs[i].table, r, ""))
    requires Collected(routes, ds, ks, cs, i, r)
    requires |ds'| == |ks'| && Distinct(ks') && d < |ks'|
    requires ks'[d] == DeliveryKey(cs[i].table, r, ScopeOf(cs[i], routes[cs[i].table][r].scopeColumn))
    requires At(routes, ks'[d]) != []
    requires if ks'[d] in ks
             then ks' == ks && ds' == ds[d := ds[d].(changes := ds[d].changes + [cs[i]])]
             else ks' == ks + [ks'[d]] && ds' == ds + [Delivery(At(routes, ks'[d]), [cs[i]])] && d == |ks|
    ensures Collected(routes, ds', ks', cs, i, r + 1)
  {
    forall j | 0 <= j < |ks'|
      ensures ds'[j].watchers == At(routes, ks'[j]) != []
      ensures ds'[j].changes == KeyChanges(routes, ks'[j], Seen(cs, i, r + 1, ks'[j])) != []
    {
      SeenStep(routes, cs, i, r, ks'[j]);
    }
    forall k | At(routes, k) != [] && KeyChanges(routes, k, Seen(cs, i, r + 1, k)) != [] ensures k in ks' {
      SeenStep(routes, cs, i, r, k);
    }
  }

  lemma CollectSkip(routes: Routes, ds: seq<Delivery>, ks: seq<DeliveryKey>, cs: seq<Change>, i: nat, r: nat)
    requires i < |cs| && HasRoute(routes, DeliveryKey(cs[i].table, r, ""))
    requires Collected(routes, ds, ks, cs, i, r)
    requires At(routes, DeliveryKey(cs[i].table, r, ScopeOf(cs[i], routes[cs[i].table][r].scopeColumn))) == []
    ensures Collected(routes, ds, ks, cs, i, r + 1)
  {
    forall k ensures At(routes, k) != [] ==>
      KeyChanges(routes, k, Seen(cs, i, r + 1, k)) == KeyChanges(routes, k, Seen(cs, i, r, k))
    {
      SeenStep(routes, cs, i, r, k);
    }
  }

  // Past the last route of change i, only keys without a route lag behind, and
  // those have no watchers.
  lemma CollectNext(routes: Routes, ds: seq<Delivery>, ks: seq<DeliveryKey>, cs: seq<Change>, i: nat)
    requires i < |cs|
    requires var n := if cs[i].table in routes then |routes[cs[i].table]| else 0;
             Collected(routes, ds, ks, cs, i, n)
    ensures Collected(routes, ds, ks, cs, i + 1, 0)
  {
    var n := if cs[i].table in routes then |routes[cs[i].table]| else 0;
    assert cs[..i + 1][..i] == cs[..i];
    forall k ensures At(routes, k) != [] ==>
      KeyChanges(routes, k, Seen(cs, i + 1, 0, k)) == KeyChanges(routes, k, Seen(cs, i, n, k))
    {
    }
  }

  function Elements(ws: seq<WatcherId>): set<WatcherId> {
    set w | w in ws
  }

  function Ids(ds: seq<Delivery>): set<WatcherId> {
    if ds == [] then {} else Ids(ds[..|ds| - 1]) + Elements(ds[|ds| - 1].watchers)
  }

  lemma IdsHolds(ds: seq<Delivery>, i: nat, w: WatcherId)
    requires i < |ds| && w in ds[i].watchers
    ensures w in Ids(ds)
  {
    if i < |ds| - 1 { IdsHolds(ds[..|ds| - 1], i, w); }
  }

  lemma IdsFrom(ds: seq<Delivery>, w: WatcherId) returns (i: nat)
    requires w in Ids(ds)
    ensures i < |ds| && w in ds[i].watchers
  {
    i := |ds| - 1;
    if w !in ds[i].watchers { i := IdsFrom(ds[..i], w); }
  }

  // Each watcher in a delivery is a registered one whose part of the transaction
  // is that delivery's changes, and it has not had its turn yet.
  ghost predicate Deliverable(h: HubState, t: Transaction, d: Delivery, earlier: set<WatcherId>)
    requires h.watchers <= h.info.Keys
  {
    forall j :: 0 <= j < |d.watchers| ==>
      && d.watchers[j] in h.watchers
      && d.watchers[j] !in earlier + Elements(d.watchers[..j])
      && d.changes == Changes(h.info[d.watchers[j]].projection, h.info[d.watchers[j]].scope, t.changes) != []
  }

  lemma OfferNext(h: HubState, t: Transaction, d: Delivery, earlier: set<WatcherId>, j: nat)
    requires h.watchers <= h.info.Keys && Deliverable(h, t, d, earlier) && j < |d.watchers|
    ensures var w := d.watchers[j];
            var now := OfferTo(h, t, earlier + Elements(d.watchers[..j]));
            && now.watchers <= now.info.Keys
            && w in now.watchers && now.info[w] == h.info[w]
            && d.changes == Changes(h.info[w].projection, h.info[w].scope, t.changes) != []
            && OfferTo(now, t, {w}) == OfferTo(h, t, earlier + Elements(d.watchers[..j + 1]))
  {
    var done := earlier + Elements(d.watchers[..j]);
    OfferOneMore(h, t, done, d.watchers[j]);
    assert done + {d.watchers[j]} == earlier + Elements(d.watchers[..j + 1]);
  }

  lemma HandOutNext(routes: Routes, h: HubState, ds: seq<Delivery>, ks: seq<DeliveryKey>,
                    t: Transaction, i: nat)
    requires RoutesAgree(routes, h.watchers, h.info)
    requires Collected(routes, ds, ks, t.changes, |t.changes|, 0)
    requires i < |ds|
    ensures Deliverable(h, t, ds[i], Ids(ds[..i]))
  {
    forall j | 0 <= j < |ds[i].watchers|
      ensures var w := ds[i].watchers[j];
              && w in h.watchers
              && w !in Ids(ds[..i]) + Elements(ds[i].watchers[..j])
              && ds[i].changes == Changes(h.info[w].projection, h.info[w].scope, t.changes) != []
    {
      var w := ds[i].watchers[j];
      assert w in At(routes, ks[i]);
      assert Routed(routes, ks[i], h.info[w]);
      assert Seen(t.changes, |t.changes|, 0, ks[i]) == t.changes;
      assert Distinct(At(routes, ks[i]));
      if w in Ids(ds[..i]) {
        var e := IdsFrom(ds[..i], w);
        OneHome(routes, h.watchers, h.info, ks[e], ks[i], w);
      }
    }
  }

  // Every watcher the transaction concerns is in some delivery.
  lemma HandOutAll(routes: Routes, h: HubState, ds: seq<Delivery>, ks: seq<DeliveryKey>, t: Transaction)
    requires RoutesAgree(routes, h.watchers, h.info)
    requires Collected(routes, ds, ks, t.changes, |t.changes|, 0)
    ensures OfferTo(h, t, Ids(ds)) == OfferTo(h, t, h.watchers)
  {
    forall w | w in h.watchers && Relevant(h.info[w].projection, h.info[w].scope, t) ensures w in Ids(ds) {
      assert Listed(routes, w);
      var k :| w in At(routes, k);
      assert Routed(routes, k, h.info[w]);
      assert Seen(t.changes, |t.changes|, 0, k) == t.changes;
      assert k in ks;
      var i :| 0 <= i < |ks| && ks[i] == k;
      IdsHolds(ds, i, w);
    }
    OfferEnough(h, t, Ids(ds));
  }

  ghost predicate Ready(h: HubState, t: Transaction, ds: seq<Delivery>) {
    && h.watchers <= h.info.Keys
    && (forall i :: 0 <= i < |ds| ==> Deliverable(h, t, ds[i], Ids(ds[..i])))
  }

  lemma CollectedIsReady(routes: Routes, h: HubState, ds: seq<Delivery>, ks: seq<DeliveryKey>, t: Transaction)
    requires RoutesAgree(routes, h.watchers, h.info)
    requires Collected(routes, ds, ks, t.changes, |t.changes|, 0)
    ensures Ready(h, t, ds)
    ensures OfferTo(h, t, Ids(ds)) == OfferTo(h, t, h.watchers)
  {
    HandOutAll(routes, h, ds, ks, t);
    forall i | 0 <= i < |ds| ensures Deliverable(h, t, ds[i], Ids(ds[..i])) {
      HandOutNext(routes, h, ds, ks, t, i);
    }
  }

  lemma OfferNone(h: HubState, t: Transaction)
    requires h.watchers <= h.info.Keys
    ensures OfferTo(h, t, {}) == h
  {
    assert OfferTo(h, t, {}).watchers == h.watchers;
    assert OfferTo(h, t, {}).info == h.info;
  }

  class Hub {
    const maxReplay: nat
    const queueSize: nat
    ghost var accepted: seq<Transaction>
    var ring: seq<Transaction>
    var received: Option<LSN>
    var floor: Option<LSN>
    var lastEvicted: Option<LSN>
    var watchers: set<WatcherId>
    var info: map<WatcherId, Watcher>
    var stale: set<string>
    var routes: Routes
    var tick: nat
    var tickTaken: bool
    var deliveries: seq<Delivery>
    var deliveryKeys: seq<DeliveryKey>
    var deliveryIndex: map<DeliveryKey, nat>

    ghost function Model(): HubState
      reads this
    {
      HubState(maxReplay, queueSize, accepted, ring, received, floor, lastEvicted,
               watchers, info, stale, tick, tickTaken)
    }

    ghost predicate ScratchEmpty()
      reads this
    {
      deliveries == [] && deliveryKeys == [] && deliveryIndex == map[]
    }

    ghost predicate Registrations()
      reads this
    {
      WellFormed(Model()) && RoutesAgree(routes, watchers, info)
    }

    ghost predicate Valid()
      reads this
    {
      Registrations() && ScratchEmpty()
    }

    constructor (maxReplay: nat, queueSize: nat)
      requires maxReplay >= 1 && queueSize >= 1
      ensures Valid()
      ensures Model() == HubState(maxReplay, queueSize, [], [], None, None, None, {}, map[], {}, 0, false)
    {
      this.maxReplay, this.queueSize := maxReplay, queueSize;
      accepted, ring := [], [];
      received, floor, lastEvicted := None, None, None;
      watchers, info, stale, routes := {}, map[], {}, map[];
      tick, tickTaken := 0, false;
      deliveries, deliveryKeys, deliveryIndex := [], [], map[];
    }

    // New: zero selects a default; a missing or misplaced part, or a negative bound, is
    // refused. `served` are the projections by name, under their qualified tables.
    static method New(sourceID: string, projections: map<string, Spec>, hasSnapshotter: bool, maxReplay: int,
                      queueSize: int) returns (hub: Hub?, served: map<string, Projection>)
      ensures hub == null <==>
              || sourceID == "" || projections == map[] || !hasSnapshotter || maxReplay < 0 || queueSize < 0
              || !AllServable(sourceID, projections, projections.Keys)
      ensures hub != null ==> fresh(hub) && hub.Valid()
      ensures hub != null ==> hub.Model().accepted == []
      ensures hub != null ==> hub.maxReplay == if maxReplay == 0 then DEFAULT_MAX_REPLAY else maxReplay
      ensures hub != null ==> hub.queueSize == if queueSize == 0 then DEFAULT_WATCHER_QUEUE else queueSize
      ensures hub != null ==> served == map name | name in projections :: Served(projections[name])
    {
      hub, served := null, map[];
      if sourceID == "" || projections == map[] || !hasSnapshotter {
        return;
      }
      var replay := if maxReplay == 0 then DEFAULT_MAX_REPLAY else maxReplay;
      var queue := if queueSize == 0 then DEFAULT_WATCHER_QUEUE else queueSize;
      if replay < 0 || queue < 0 {
        return;
      }
      var todo := projections.Keys;
      while todo != {}
        invariant todo <= projections.Keys && AllServable(sourceID, projections, projections.Keys - todo)
        invariant served == map name | name in projections && name !in todo :: Served(projections[name])
        decreases todo
      {
        var name :| name in todo;
        if name == "" || projections[name].sourceID != sourceID {
          return;
        }
        served := served[name := Served(projections[name])];
        todo := todo - {name};
      }
      assert projections.Keys - todo == projections.Keys;
      hub := new Hub(replay, queue);
    }

    // The route of p's table and scope column, created if no watcher needed it.
    method RouteLocked(p: Projection) returns (r: nat)
      requires RoutesAgree(routes, watchers, info)
      modifies `routes
      ensures RoutesAgree(routes, watchers, info)
      ensures HasRoute(routes, DeliveryKey(p.table, r, "")) && routes[p.table][r].scopeColumn == p.scopeColumn
      ensures forall k :: At(routes, k) == At(old(routes), k)
      ensures (exists k :: HasRoute(old(routes), k) && k.table == p.table
                           && ColumnOf(old(routes), k) == p.scopeColumn) ==> routes == old(routes)
    {
      r := 0;
      if p.table in routes {
        while r < |routes[p.table]|
          invariant r <= |routes[p.table]|
          invariant forall k :: (HasRoute(routes, k) && k.table == p.table && k.route < r) ==>
                      ColumnOf(routes, k) != p.scopeColumn
        {
          if routes[p.table][r].scopeColumn == p.scopeColumn {
            return;
          }
          r := r + 1;
        }
      }
      AddRouteKeepsAgreement(routes, watchers, info, p);
      routes := AddRoute(routes, p);
    }

    method RegisterLocked(w: WatcherId, p: Projection, scope: string)
      requires Valid() && w !in info
      modifies `watchers, `info, `routes
      ensures Valid() && Model() == HubSpec.Register(old(Model()), w, p, scope)
    {
      var r := RouteLocked(p);
      var k := DeliveryKey(p.table, r, scope);
      var me := Watcher(p, scope, [], None);
      AddKeepsAgreement(routes, watchers, info, k, w, me);
      routes := SetScope(routes, k, At(routes, k) + [w]);
      watchers := watchers + {w};
      info := info[w := me];
    }

    method RemoveLocked(w: WatcherId) returns (was: bool)
      requires Registrations()
      modifies `watchers, `routes
      ensures Registrations() && Model() == HubSpec.Remove(old(Model()), w)
      ensures was <==> w in old(watchers)
    {
      if w !in watchers {
        return false;
      }
      var me := info[w];
      assert Listed(routes, w);
      ghost var home :| w in At(routes, home);
      assert Routed(routes, home, me);
      var r := RouteLocked(me.projection);
      var k := DeliveryKey(me.projection.table, r, me.scope);
      assert Routed(routes, home, me);
      assert ColumnOf(routes, home) == ColumnOf(routes, k);
      RemoveKeepsAgreement(routes, watchers, info, k, w);
      routes := SetScope(routes, k, Without(At(routes, k), w));
      watchers := watchers - {w};
      return true;
    }

    // Closing the overflow channel of a watcher that still has it open.
    method CloseOverflow(w: WatcherId, reason: ResyncReason)
      requires w in info && info[w].overflow.None?
      modifies `info
      ensures info == old(info)[w := old(info)[w].(overflow := Some(reason))]
    {
      info := info[w := info[w].(overflow := Some(reason))];
    }

    method EndLocked(w: WatcherId, reason: ResyncReason)
      requires Registrations()
      modifies `watchers, `routes, `info
      ensures Registrations()
      ensures w in old(watchers) ==> w in old(info)
      ensures Model() == HubSpec.End(old(Model()), w, reason)
    {
      var was := RemoveLocked(w);
      if was {
        CloseOverflow(w, reason);
        InfoUpdateAgrees(routes, watchers, old(info), w, info[w]);
      }
    }

    method EvictLocked()
      requires ring != []
      modifies `ring, `lastEvicted, `floor
      ensures Model() == HubSpec.EvictOne(old(Model()))
    {
      var evicted := ring[0].cursor;
      ring := ring[1..];
      lastEvicted := Some(evicted);
      if floor.Some? && evicted > floor.value {
        floor := Some(evicted);
      }
    }

    // Accept, up to and including the replay window.
    method RecordLocked(t: Transaction) returns (toClose: Option<nat>)
      requires Registrations()
      modifies `accepted, `received, `tick, `tickTaken, `ring, `lastEvicted, `floor
      ensures Registrations() && Model() == HubSpec.Record(old(Model()), t)
      ensures toClose == if old(tickTaken) then Some(old(tick)) else None
    {
      accepted := accepted + [t];
      received := Some(t.cursor);
      toClose := None;
      if tickTaken {
        toClose, tick, tickTaken := Some(tick), tick + 1, false;
      }
      ring := ring + [t];
      ghost var appended := Model();
      while |ring| > maxReplay
        invariant Evict(Model()) == Evict(appended)
        invariant Registrations()
      {
        EvictLocked();
      }
    }

    method EndWatchersOf(table: string)
      requires Registrations()
      modifies `watchers, `routes, `info
      ensures Registrations()
      ensures Model() == EndAll(old(Model()), WatchersOf(old(Model()), table), SchemaChanged)
    {
      ghost var before := Model();
      var todo := watchers;
      EndNone(before, SchemaChanged);
      while todo != {}
        invariant Registrations()
        invariant todo <= before.watchers
        invariant Model() == EndAll(before, WatchersOf(before, table) - todo, SchemaChanged)
      {
        var w :| w in todo;
        EndIfOf(before, table, todo, w, SchemaChanged);
        todo := todo - {w};
        if info[w].projection.table == table {
          EndLocked(w, SchemaChanged);
        }
      }
      assert WatchersOf(before, table) - {} == WatchersOf(before, table);
    }

    method InvalidateLocked(table: string, cursor: LSN)
      requires Registrations()
      modifies `stale, `watchers, `routes, `info, `floor, `lastEvicted
      ensures Registrations() && Model() == HubSpec.Invalidate(old(Model()), table, cursor)
    {
      EndWatchersOf(table);
      stale := stale + {table};
      if floor.Some? && cursor > floor.value {
        floor := Some(cursor);
      }
      if lastEvicted.None? || cursor > lastEvicted.value {
        lastEvicted := Some(cursor);
      }
    }

    // The position of key's delivery in the transaction being accepted, started
    // for `ws` if there is none yet. Few keys are scanned, newest first; many
    // are looked up by hashing.
    method DeliveryLocked(key: DeliveryKey, ws: seq<WatcherId>) returns (i: nat)
      requires |deliveries| == |deliveryKeys| && Distinct(deliveryKeys)
      requires Indexed(deliveryKeys, deliveryIndex)
      modifies `deliveries, `deliveryKeys, `deliveryIndex
      ensures i < |deliveries| == |deliveryKeys| && deliveryKeys[i] == key
      ensures Distinct(deliveryKeys) && Indexed(deliveryKeys, deliveryIndex)
      ensures key in old(deliveryKeys) ==> deliveries == old(deliveries) && deliveryKeys == old(deliveryKeys)
      ensures key !in old(deliveryKeys) ==>
                && deliveries == old(deliveries) + [Delivery(ws, [])]
                && deliveryKeys == old(deliveryKeys) + [key]
                && i == |old(deliveryKeys)|
    {
      if |deliveryKeys| <= INDEXED_DELIVERIES {
        i := |deliveryKeys|;
        while i > 0
          invariant i <= |deliveryKeys|
          invariant key !in deliveryKeys[i..]
        {
          i := i - 1;
          if deliveryKeys[i] == key {
            return;
          }
        }
      } else if key in deliveryIndex {
        return deliveryIndex[key];
      }
      deliveries := deliveries + [Delivery(ws, [])];
      deliveryKeys := deliveryKeys + [key];
      var n := |deliveryKeys|;
      if n == INDEXED_DELIVERIES + 1 {
        for j := 0 to n
          modifies `deliveryIndex
          invariant IndexedUpTo(deliveryKeys, deliveryIndex, j)
        {
          deliveryIndex := deliveryIndex[deliveryKeys[j] := j];
        }
      } else if n > INDEXED_DELIVERIES + 1 {
        deliveryIndex := deliveryIndex[key := n - 1];
      }
      i := |deliveries| - 1;
    }

    // Accept's first loop, for one change and one of its table's routes.
    method CollectOne(ghost cs: seq<Change>, ghost i: nat, c: Change, r: nat)
      requires i < |cs| && c == cs[i] && HasRoute(routes, DeliveryKey(c.table, r, ""))
      requires Indexed(deliveryKeys, deliveryIndex) && Collected(routes, deliveries, deliveryKeys, cs, i, r)
      modifies `deliveries, `deliveryKeys, `deliveryIndex
      ensures Indexed(deliveryKeys, deliveryIndex)
      ensures Collected(routes, deliveries, deliveryKeys, cs, i, r + 1)
    {
      var scope := ScopeOf(c, routes[c.table][r].scopeColumn);
      var key := DeliveryKey(c.table, r, scope);
      ghost var ds, ks := deliveries, deliveryKeys;
      if At(routes, key) == [] {
        CollectSkip(routes, ds, ks, cs, i, r);
        return;
      }
      var d := DeliveryLocked(key, At(routes, key));
      deliveries := deliveries[d := deliveries[d].(changes := deliveries[d].changes + [c])];
      if key !in ks {
        assert deliveries[d] == Delivery(At(routes, key), [c]);
        assert deliveries[..d] == ds;
        assert deliveries == ds + [Delivery(At(routes, key), [c])];
      }
      CollectStep(routes, ds, ks, deliveries, deliveryKeys, cs, i, r, d);
    }

    // Accept's first loop: sort the changes into one delivery per scope that
    // has watchers.
    method CollectLocked(t: Transaction)
      requires Valid()
      modifies `deliveries, `deliveryKeys, `deliveryIndex
      ensures Ready(Model(), t, deliveries)
      ensures OfferTo(Model(), t, Ids(deliveries)) == OfferTo(Model(), t, watchers)
    {
      var cs := t.changes;
      for i := 0 to |cs|
        invariant Indexed(deliveryKeys, deliveryIndex)
        invariant Collected(routes, deliveries, deliveryKeys, cs, i, 0)
      {
        var n := if cs[i].table in routes then |routes[cs[i].table]| else 0;
        for r := 0 to n
          invariant Indexed(deliveryKeys, deliveryIndex)
          invariant Collected(routes, deliveries, deliveryKeys, cs, i, r)
        {
          CollectOne(cs, i, cs[i], r);
        }
        CollectNext(routes, deliveries, deliveryKeys, cs, i);
      }
      CollectedIsReady(routes, Model(), deliveries, deliveryKeys, t);
    }

    // Hand one watcher its part, or drop it if its queue is full.
    method OfferLocked(w: WatcherId, t: Transaction, cs: seq<Change>)
      requires Registrations() && w in watchers
      requires cs == Changes(info[w].projection, info[w].scope, t.changes) != []
      modifies `watchers, `info, `routes
      ensures Registrations() && Model() == OfferTo(old(Model()), t, {w})
    {
      ghost var before := Model();
      if |info[w].queue| < queueSize {
        var me := info[w].(queue := info[w].queue + [Queued(t, cs)]);
        InfoUpdateAgrees(routes, watchers, info, w, me);
        info := info[w := me];
      } else {
        EndLocked(w, SlowWatcher);
      }
      assert watchers == OfferTo(before, t, {w}).watchers;
      assert info == OfferTo(before, t, {w}).info;
    }

    // Accept's second loop, for one delivery.
    method HandOutOne(ghost before: HubState, ghost earlier: set<WatcherId>, t: Transaction, d: Delivery)
      requires Registrations() && before.watchers <= before.info.Keys
      requires Deliverable(before, t, d, earlier)
      requires Model() == OfferTo(before, t, earlier)
      modifies `watchers, `info, `routes
      ensures Registrations() && Model() == OfferTo(before, t, earlier + Elements(d.watchers))
    {
      assert earlier + Elements(d.watchers[..0]) == earlier;
      for j := 0 to |d.watchers|
        invariant Registrations()
        invariant Model() == OfferTo(before, t, earlier + Elements(d.watchers[..j]))
      {
        OfferNext(before, t, d, earlier, j);
        OfferLocked(d.watchers[j], t, d.changes);
      }
      assert d.watchers[..|d.watchers|] == d.watchers;
    }

    // Accept's second loop: hand every delivery to its watchers.
    method HandOutLocked(t: Transaction)
      requires Registrations() && Ready(Model(), t, deliveries)
      modifies `watchers, `info, `routes
      ensures Registrations() && Model() == OfferTo(old(Model()), t, Ids(deliveries))
    {
      ghost var before := Model();
      OfferNone(before, t);
      for i := 0 to |deliveries|
        invariant Registrations()
        invariant Model() == OfferTo(before, t, Ids(deliveries[..i]))
      {
        assert deliveries[..i + 1][..i] == deliveries[..i];
        HandOutOne(before, Ids(deliveries[..i]), t, deliveries[i]);
      }
      assert deliveries[..|deliveries|] == deliveries;
    }

    method ClearScratch()
      requires Registrations()
      modifies `deliveries, `deliveryKeys, `deliveryIndex
      ensures Valid()
    {
      deliveries, deliveryKeys, deliveryIndex := [], [], map[];
    }

    method InvalidateAllLocked(tables: seq<string>, cursor: LSN)
      requires Registrations()
      modifies `stale, `watchers, `routes, `info, `floor, `lastEvicted
      ensures Registrations() && Model() == InvalidateAll(old(Model()), tables, cursor)
    {
      ghost var before := Model();
      for i := 0 to |tables|
        invariant Registrations()
        invariant Model() == InvalidateAll(before, tables[..i], cursor)
      {
        assert tables[..i + 1][..i] == tables[..i];
        InvalidateLocked(tables[i], cursor);
      }
      assert tables[..|tables|] == tables;
    }

    // Accept is the source's sink. It returns the tick to close after unlocking.
    method Accept(t: Transaction) returns (toClose: Option<nat>)
      requires Valid()
      modifies this
      ensures Valid() && Model() == HubSpec.Accept(old(Model()), t)
      ensures toClose == HubSpec.TickToClose(old(Model()), t)
    {
      hide RoutesAgree, HubSpec.Record, HubSpec.InvalidateAll, HubSpec.OfferTo, Ready;
      if received.Some? && t.cursor <= received.value {
        return None;
      }
      toClose := RecordLocked(t);
      InvalidateAllLocked(t.incompatible, t.cursor);
      CollectLocked(t);
      HandOutLocked(t);
      ClearScratch();
    }

    // position also marks the tick as taken.
    method Position() returns (position: Option<LSN>, current: nat)
      requires Valid()
      modifies `tickTaken
      ensures Valid() && Model() == HubSpec.TakeTick(old(Model()))
      ensures position == received && current == tick
    {
      tickTaken := true;
      return received, tick;
    }

    method ReplayableLocked(cursor: LSN) returns (ok: bool)
      ensures ok <==> HubSpec.Replayable(Model(), cursor)
    {
      if floor.None? {
        return false;
      }
      return cursor >= floor.value;
    }

    // recordSnapshotLocked sets the replay floor at the first snapshot.
    method RecordSnapshotLocked(cursor: LSN)
      requires Valid()
      modifies `floor
      ensures Valid() && Model() == HubSpec.RecordSnapshot(old(Model()), cursor)
    {
      if floor.Some? {
        return;
      }
      floor := Some(cursor);
      if lastEvicted.Some? && lastEvicted.value > cursor {
        floor := lastEvicted;
      }
    }

    method Unregister(w: WatcherId)
      requires Valid()
      modifies `watchers, `routes
      ensures Valid() && Model() == HubSpec.Remove(old(Model()), w)
    {
      var _ := RemoveLocked(w);
    }

    // resume's critical section: refused, or registered with the ring's backlog.
    method ResumeLocked(w: WatcherId, p: Projection, scope: string, cursor: LSN)
      returns (refused: Option<ResyncReason>, backlog: seq<Watch.Event>)
      requires Valid() && w !in info
      modifies `watchers, `info, `routes
      ensures Valid()
      ensures var (hub, pr) := Watch.EnterHub(old(Model()), w, p, scope, Some(cursor), false, true);
              && Model() == hub
              && (match refused
                  case Some(reason) => pr.place.Finished? && pr.sent == [Watch.Resync(reason)]
                  case None => pr.joined && pr.place == Watch.SendingOwed(backlog))
    {
      if p.table in stale {
        return Some(SchemaChanged), [];
      }
      var replayable := ReplayableLocked(cursor);
      if !replayable {
        return Some(CursorUnavailable), [];
      }
      backlog := Backlog(p, scope, ring, cursor);
      RegisterLocked(w, p, scope);
      refused := None;
    }

    // snapshot's first critical section: keep the scope's part of the ring, and
    // register before the rows are read.
    method SnapshotLocked(w: WatcherId, p: Projection, scope: string) returns (streamed: seq<Transaction>)
      requires Valid() && w !in info
      modifies `watchers, `info, `routes
      ensures Valid()
      ensures Model() == Watch.EnterHub(old(Model()), w, p, scope, None, false, true).0
      ensures streamed == RelevantPart(p, scope, old(ring))
    {
      streamed := [];
      for i := 0 to |ring|
        invariant streamed == RelevantPart(p, scope, ring[..i])
      {
        assert ring[..i + 1][..i] == ring[..i];
        if Changes(p, scope, ring[i].changes) != [] {
          streamed := streamed + [ring[i]];
        }
      }
      assert ring[..|ring|] == ring;
      RegisterLocked(w, p, scope);
    }

    // snapshot's second critical section, once its rows are read.
    method ClearStaleLocked(table: string)
      requires Valid()
      modifies `stale
      ensures Valid() && Model() == old(Model()).(stale := old(stale) - {table})
    {
      stale := stale - {table};
    }
  }

  // A log's transactions with a part in the scope.
  function RelevantPart(p: Projection, scope: string, log: seq<Transaction>): seq<Transaction> {
    if log == [] then []
    else RelevantPart(p, scope, log[..|log| - 1]) +
         if Relevant(p, scope, log[|log| - 1]) then [log[|log| - 1]] else []
  }

  method AppendBatch(p: Projection, scope: string, batches: seq<Watch.Event>, t: Transaction)
    returns (r: seq<Watch.Event>)
    ensures r == batches + if Relevant(p, scope, t) then [Watch.BatchOf(p, scope, t)] else []
  {
    r := batches;
    var changes := Changes(p, scope, t.changes);
    if changes != [] {
      r := r + [Watch.Batch(t.cursor, changes)];
    }
  }

  // resume's walk over the ring.
  method Backlog(p: Projection, scope: string, ring: seq<Transaction>, cursor: LSN)
    returns (backlog: seq<Watch.Event>)
    ensures backlog == Watch.Deliver(p, scope, Watch.AfterCursor(cursor), ring)
  {
    backlog := [];
    for i := 0 to |ring|
      invariant backlog == Watch.Deliver(p, scope, Watch.AfterCursor(cursor), ring[..i])
    {
      assert ring[..i + 1][..i] == ring[..i];
      if After(ring[i], cursor) {
        backlog := AppendBatch(p, scope, backlog, ring[i]);
      }
    }
    assert ring[..|ring|] == ring;
  }

  // snapshot's choice, once it knows what its rows cover, of what to send from
  // the transactions it kept: what the whole ring owes.
  method StreamedBatches(p: Projection, scope: string, ghost ring: seq<Transaction>, streamed: seq<Transaction>,
                         snapshot: Visibility.Snapshot)
    returns (batches: seq<Watch.Event>)
    requires streamed == RelevantPart(p, scope, ring)
    ensures batches == Watch.Deliver(p, scope, Watch.NotCovered(snapshot), ring)
  {
    batches := [];
    for i := 0 to |streamed|
      invariant batches == Watch.Deliver(p, scope, Watch.NotCovered(snapshot), streamed[..i])
    {
      assert streamed[..i + 1][..i] == streamed[..i];
      if !Visibility.Covers(snapshot, streamed[i]) {
        batches := AppendBatch(p, scope, batches, streamed[i]);
      }
    }
    assert streamed[..|streamed|] == streamed;
    RelevantPartOwes(p, scope, Watch.NotCovered(snapshot), ring);
  }

  lemma {:induction false} RelevantPartOwes(p: Projection, scope: string, need: Watch.Need, log: seq<Transaction>)
    ensures Watch.Deliver(p, scope, need, RelevantPart(p, scope, log)) == Watch.Deliver(p, scope, need, log)
  {
    if log != [] {
      RelevantPartOwes(p, scope, need, log[..|log| - 1]);
      var t, part := log[|log| - 1], RelevantPart(p, scope, log[..|log| - 1]);
      if Relevant(p, scope, t) {
        assert RelevantPart(p, scope, log) == part + [t];
        assert (part + [t])[..|part|] == part;
      } else {
        assert RelevantPart(p, scope, log) == part;
      }
    }
  }

  // The index reads only a watcher's projection and scope.
  lemma InfoUpdateAgrees(routes: Routes, watchers: set<WatcherId>, info: map<WatcherId, Watcher>,
                         w: WatcherId, me: Watcher)
    requires RoutesAgree(routes, watchers, info)
    requires w in info && me.projection == info[w].projection && me.scope == info[w].scope
    ensures RoutesAgree(routes, watchers, info[w := me])
  {
    forall k, x | x in At(routes, k) ensures x in watchers && Routed(routes, k, info[w := me][x]) {
      assert Routed(routes, k, info[x]);
    }
  }
}
