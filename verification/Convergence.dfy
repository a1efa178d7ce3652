// What a client ends up with: the rows of a snapshot plus the batches of a
// watch (internal/watch/hub.go, internal/cdc/types.go, sdk/go/watchd/store.go),
// against the source's own history applied in commit order.
module Convergence {
  import opened Cdc
  import opened HubSpec
  import opened HubInvariant
  import opened Visibility
  import opened Watch
  import opened WatchInvariant
  import Progress
  import opened Store

  // The server's conversion of a change for the wire.

  function WireRow(columns: seq<string>, values: seq<Value>): Row {
    if values == [] || |columns| < |values| then map[]
    else
      var n := |values| - 1;
      WireRow(columns, values[..n])[columns[n] := values[n]]
  }

  function WireOperation(o: Operation): SdkOperation {
    match o
    case Insert => SdkInsert
    case Update => SdkUpdate
    case Delete => SdkDelete
  }

  function Wire(cs: seq<Change>): (r: seq<RowChange>)
    ensures |r| == |cs|
  {
    seq(|cs|, i requires 0 <= i < |cs| =>
      RowChange(WireOperation(cs[i].operation), cs[i].key, WireRow(cs[i].columns, cs[i].values)))
  }

  // A projection's scope, with the primary key its rows are stored under.
  datatype Scoped = Scoped(primaryKey: seq<string>, projection: Projection, scope: string)

  // A transaction's part of a scope, as the client applies it.
  function Part(v: Scoped, t: Transaction): seq<RowChange> {
    Wire(Changes(v.projection, v.scope, t.changes))
  }

  // Every change in the scope names its row.
  predicate KeyedPart(v: Scoped, t: Transaction) {
    AllApplicable(v.primaryKey, Part(v, t))
  }

  predicate Keyed(v: Scoped, log: seq<Transaction>) {
    forall i :: 0 <= i < |log| ==> KeyedPart(v, log[i])
  }

  lemma KeyedSplit(v: Scoped, log: seq<Transaction>, n: nat)
    requires n <= |log| && Keyed(v, log)
    ensures Keyed(v, log[..n]) && Keyed(v, log[n..])
  {
    hide KeyedPart;
  }

  // A log's effect on the scope's rows, in commit order.
  function Fold(v: Scoped, rows: map<string, Row>, log: seq<Transaction>): map<string, Row>
    requires Keyed(v, log)
  {
    if log == [] then rows
    else
      var n := |log| - 1;
      assert forall i :: 0 <= i < n ==> log[..n][i] == log[i];
      ApplyAll(v.primaryKey, Fold(v, rows, log[..n]), Part(v, log[n]))
  }

  // The same for one row.
  function FoldRow(v: Scoped, id: string, log: seq<Transaction>, row: Option<Row>): Option<Row>
    requires Keyed(v, log)
  {
    if log == [] then row
    else
      var n := |log| - 1;
      assert forall i :: 0 <= i < n ==> log[..n][i] == log[i];
      RunRow(v.primaryKey, id, Part(v, log[n]), FoldRow(v, id, log[..n], row))
  }

  lemma {:induction false} FoldIsPerRow(v: Scoped, rows: map<string, Row>, log: seq<Transaction>, id: string)
    requires Keyed(v, log)
    ensures Lookup(Fold(v, rows, log), id) == FoldRow(v, id, log, Lookup(rows, id))
  {
    if log != [] {
      var n := |log| - 1;
      assert forall i :: 0 <= i < n ==> log[..n][i] == log[i];
      FoldIsPerRow(v, rows, log[..n], id);
      ApplyIsPerRow(v.primaryKey, Fold(v, rows, log[..n]), Part(v, log[n]), id);
    }
  }

  lemma {:induction false} FoldRowConcat(v: Scoped, id: string, a: seq<Transaction>, b: seq<Transaction>,
                                         row: Option<Row>)
    requires Keyed(v, a) && Keyed(v, b)
    ensures Keyed(v, a + b)
    ensures FoldRow(v, id, a + b, row) == FoldRow(v, id, b, FoldRow(v, id, a, row))
  {
    hide KeyedPart, RunRow, Part;
    if b == [] {
      assert a + b == a;
    } else {
      var n := |b| - 1;
      assert forall i :: 0 <= i < n ==> b[..n][i] == b[i];
      FoldRowConcat(v, id, a, b[..n], row);
      assert (a + b)[..|a + b| - 1] == a + b[..n];
    }
  }

  // Splitting a log by what a snapshot covers

  function Covered(snap: Snapshot, log: seq<Transaction>): seq<Transaction> {
    if log == [] then []
    else
      var n := |log| - 1;
      Covered(snap, log[..n]) + if Covers(snap, log[n]) then [log[n]] else []
  }

  function Uncovered(snap: Snapshot, log: seq<Transaction>): seq<Transaction> {
    if log == [] then []
    else
      var n := |log| - 1;
      Uncovered(snap, log[..n]) + if Covers(snap, log[n]) then [] else [log[n]]
  }

  lemma {:induction false} CoveredIn(snap: Snapshot, log: seq<Transaction>, t: Transaction)
    requires t in Covered(snap, log)
    ensures t in log && Covers(snap, t)
  {
    hide Covers;
    if t in Covered(snap, log[..|log| - 1]) { CoveredIn(snap, log[..|log| - 1], t); }
  }

  lemma {:induction false} UncoveredIn(snap: Snapshot, log: seq<Transaction>, t: Transaction)
    requires t in Uncovered(snap, log)
    ensures t in log && !Covers(snap, t)
  {
    hide Covers;
    if t in Uncovered(snap, log[..|log| - 1]) { UncoveredIn(snap, log[..|log| - 1], t); }
  }

  ghost predicate Touches(v: Scoped, t: Transaction, id: string)
    requires KeyedPart(v, t)
  {
    exists i :: 0 <= i < |Part(v, t)| && RowId(v.primaryKey, Part(v, t)[i].key) == id
  }

  // MVCC: a transaction the snapshot does not see cannot precede one it sees
  // that touches the same row.
  ghost predicate ConflictFree(v: Scoped, snap: Snapshot, log: seq<Transaction>)
    requires Keyed(v, log)
  {
    forall i, j, id :: 0 <= i < j < |log| && !Covers(snap, log[i]) && Covers(snap, log[j]) ==>
      !(Touches(v, log[i], id) && Touches(v, log[j], id))
  }

  lemma {:induction false} RunUntouched(primaryKey: seq<string>, id: string, cs: seq<RowChange>, row: Option<Row>)
    requires AllApplicable(primaryKey, cs)
    requires forall i :: 0 <= i < |cs| ==> RowId(primaryKey, cs[i].key) != id
    ensures RunRow(primaryKey, id, cs, row) == row
  {
    if cs != [] { RunUntouched(primaryKey, id, cs[..|cs| - 1], row); }
  }

  lemma {:induction false} FoldUntouched(v: Scoped, id: string, log: seq<Transaction>, row: Option<Row>)
    requires Keyed(v, log) && forall i :: 0 <= i < |log| ==> !Touches(v, log[i], id)
    ensures FoldRow(v, id, log, row) == row
  {
    if log != [] {
      var n := |log| - 1;
      assert forall i :: 0 <= i < n ==> log[..n][i] == log[i];
      FoldUntouched(v, id, log[..n], row);
      var part := Part(v, log[n]);
      assert !Touches(v, log[n], id);
      RunUntouched(v.primaryKey, id, part, row);
    }
  }

  lemma KeyedParts(v: Scoped, snap: Snapshot, log: seq<Transaction>)
    requires Keyed(v, log)
    ensures Keyed(v, Covered(snap, log)) && Keyed(v, Uncovered(snap, log))
  {
    hide KeyedPart, Covers;
    forall t | t in Covered(snap, log) ensures KeyedPart(v, t) {
      CoveredIn(snap, log, t);
    }
    forall t | t in Uncovered(snap, log) ensures KeyedPart(v, t) {
      UncoveredIn(snap, log, t);
    }
  }

  // A covered transaction may move in front of the uncovered ones before it.
  lemma MoveForward(v: Scoped, snap: Snapshot, log: seq<Transaction>, t: Transaction, id: string, row: Option<Row>)
    requires Keyed(v, log + [t]) && ConflictFree(v, snap, log + [t]) && Covers(snap, t)
    requires Keyed(v, Uncovered(snap, log)) && Keyed(v, [t])
    ensures FoldRow(v, id, Uncovered(snap, log), FoldRow(v, id, [t], row)) ==
            FoldRow(v, id, [t], FoldRow(v, id, Uncovered(snap, log), row))
  {
    hide Covers, Part, FoldRow, KeyedPart;
    var unc := Uncovered(snap, log);
    assert KeyedPart(v, t) by { assert [t][0] == t; }
    if Touches(v, t, id) {
      forall i | 0 <= i < |unc| ensures !Touches(v, unc[i], id) {
        UncoveredIn(snap, log, unc[i]);
        var j :| 0 <= j < |log| && log[j] == unc[i];
        assert (log + [t])[j] == unc[i] && (log + [t])[|log|] == t;
      }
      FoldUntouched(v, id, unc, row);
      FoldUntouched(v, id, unc, FoldRow(v, id, [t], row));
    } else {
      FoldUntouched(v, id, [t], row);
      FoldUntouched(v, id, [t], FoldRow(v, id, unc, row));
    }
  }

  // On one row, everything covered and then everything uncovered is the log.
  lemma {:induction false} Reorder(v: Scoped, snap: Snapshot, log: seq<Transaction>, id: string, row: Option<Row>)
    requires Keyed(v, log) && ConflictFree(v, snap, log)
    ensures Keyed(v, Covered(snap, log)) && Keyed(v, Uncovered(snap, log))
    ensures FoldRow(v, id, Uncovered(snap, log), FoldRow(v, id, Covered(snap, log), row)) == FoldRow(v, id, log, row)
  {
    hide Covers, Part, KeyedPart, Touches;
    KeyedParts(v, snap, log);
    if log != [] {
      var n := |log| - 1;
      var t := log[n];
      assert log == log[..n] + [t];
      ConflictFreePrefix(v, snap, log, n);
      KeyedSplit(v, log, n);
      assert log[n..] == [t];
      hide FoldRow, ConflictFree;
      Reorder(v, snap, log[..n], id, row);
      var cov, unc := Covered(snap, log[..n]), Uncovered(snap, log[..n]);
      FoldRowConcat(v, id, log[..n], [t], row);
      if Covers(snap, t) {
        FoldRowConcat(v, id, cov, [t], row);
        MoveForward(v, snap, log[..n], t, id, FoldRow(v, id, cov, row));
        assert Uncovered(snap, log) == unc;
      } else {
        FoldRowConcat(v, id, unc, [t], FoldRow(v, id, cov, row));
        assert Covered(snap, log) == cov;
      }
    }
  }

  lemma ConflictFreePrefix(v: Scoped, snap: Snapshot, log: seq<Transaction>, n: nat)
    requires n <= |log| && Keyed(v, log) && ConflictFree(v, snap, log)
    ensures Keyed(v, log[..n]) && ConflictFree(v, snap, log[..n])
  {
    hide KeyedPart, Touches, Covers;
    KeyedSplit(v, log, n);
  }

  // What a watch needs of a log, as transactions.
  function Needed(need: Need, log: seq<Transaction>): seq<Transaction> {
    if log == [] then []
    else
      var n := |log| - 1;
      Needed(need, log[..n]) + if Needs(need, log[n]) then [log[n]] else []
  }

  // A client applying the batches it is sent.
  ghost predicate BatchesKeyed(v: Scoped, batches: seq<Event>) {
    forall i :: 0 <= i < |batches| ==> batches[i].Batch? && AllApplicable(v.primaryKey, Wire(batches[i].changes))
  }

  function ClientRows(v: Scoped, rows: map<string, Row>, batches: seq<Event>): map<string, Row>
    requires BatchesKeyed(v, batches)
  {
    if batches == [] then rows
    else
      var n := |batches| - 1;
      ApplyAll(v.primaryKey, ClientRows(v, rows, batches[..n]), Wire(batches[n].changes))
  }

  // Applying the batches a log owes is folding the transactions they stand for.
  lemma {:induction false} ClientFolds(v: Scoped, rows: map<string, Row>, need: Need, log: seq<Transaction>)
    requires Keyed(v, log)
    ensures BatchesKeyed(v, Deliver(v.projection, v.scope, need, log)) && Keyed(v, Needed(need, log))
    ensures ClientRows(v, rows, Deliver(v.projection, v.scope, need, log)) == Fold(v, rows, Needed(need, log))
  {
    hide Needs;
    if log != [] {
      var n := |log| - 1;
      var t := log[n];
      KeyedSplit(v, log, n);
      ClientFolds(v, rows, need, log[..n]);
      assert KeyedPart(v, t);
      var before, some := Deliver(v.projection, v.scope, need, log[..n]), Needed(need, log[..n]);
      var all := Deliver(v.projection, v.scope, need, log);
      hide KeyedPart, AllApplicable, ApplyAll, Deliver, Wire, Changes, Fold, ClientRows, Keyed, BatchesKeyed;
      if !Needs(need, t) {
        assert Needed(need, log) == some && all == before by { DeliverOne(v, need, log); }
      } else {
        assert Needed(need, log) == some + [t] && (some + [t])[..|some|] == some;
        FoldOne(v, rows, some, t);
        DeliverOne(v, need, log);
        if Relevant(v.projection, v.scope, t) {
          assert all[..|before|] == before;
          ClientOne(v, rows, before, BatchOf(v.projection, v.scope, t));
        } else {
          assert all == before;
        }
      }
    }
  }

  lemma DeliverOne(v: Scoped, need: Need, log: seq<Transaction>)
    requires log != []
    ensures var t := log[|log| - 1];
            Deliver(v.projection, v.scope, need, log) == Deliver(v.projection, v.scope, need, log[..|log| - 1]) +
              if Relevant(v.projection, v.scope, t) && Needs(need, t) then [BatchOf(v.projection, v.scope, t)] else []
  {
  }

  lemma FoldOne(v: Scoped, rows: map<string, Row>, log: seq<Transaction>, t: Transaction)
    requires Keyed(v, log) && KeyedPart(v, t)
    ensures Keyed(v, log + [t])
    ensures Fold(v, rows, log + [t]) == ApplyAll(v.primaryKey, Fold(v, rows, log), Part(v, t))
    ensures !Relevant(v.projection, v.scope, t) ==> Fold(v, rows, log + [t]) == Fold(v, rows, log)
  {
    assert (log + [t])[..|log|] == log;
    if !Relevant(v.projection, v.scope, t) { assert Part(v, t) == []; }
  }

  lemma ClientOne(v: Scoped, rows: map<string, Row>, batches: seq<Event>, e: Event)
    requires BatchesKeyed(v, batches) && e.Batch? && AllApplicable(v.primaryKey, Wire(e.changes))
    ensures BatchesKeyed(v, batches + [e])
    ensures ClientRows(v, rows, batches + [e]) == ApplyAll(v.primaryKey, ClientRows(v, rows, batches), Wire(e.changes))
  {
    assert (batches + [e])[..|batches|] == batches;
  }

  // The transactions a snapshot covers and those that end at or before `cursor`,
  // in commit order.
  function Selected(snap: Snapshot, log: seq<Transaction>, cursor: LSN): seq<Transaction> {
    var through := Progress.Through(log, cursor);
    through + Covered(snap, log[|through|..])
  }

  lemma {:induction false} CoveredHolds(snap: Snapshot, log: seq<Transaction>, i: nat)
    requires i < |log| && Covers(snap, log[i])
    ensures log[i] in Covered(snap, log)
  {
    if i < |log| - 1 { CoveredHolds(snap, log[..|log| - 1], i); }
  }

  lemma SelectedIs(snap: Snapshot, log: seq<Transaction>, cursor: LSN, t: Transaction)
    requires SourceOrdered(log) && t in log
    ensures t in Selected(snap, log, cursor) <==> (Covers(snap, t) || t.cursor <= cursor)
  {
    Progress.ThroughIs(log, cursor);
    hide Covers, Progress.Through, SourceOrdered;
    var k := |Progress.Through(log, cursor)|;
    var i :| 0 <= i < |log| && log[i] == t;
    if i >= k && Covers(snap, t) {
      assert log[k..][i - k] == t;
      CoveredHolds(snap, log[k..], i - k);
    } else if i < k {
      assert Progress.Through(log, cursor)[i] == t;
    }
    if t in Covered(snap, log[k..]) {
      CoveredIn(snap, log[k..], t);
    } else if t in Progress.Through(log, cursor) {
      var j :| 0 <= j < k && Progress.Through(log, cursor)[j] == t;
      assert log[j] == t;
    }
  }

  lemma {:induction false} CoveredConcat(snap: Snapshot, a: seq<Transaction>, b: seq<Transaction>)
    ensures Covered(snap, a + b) == Covered(snap, a) + Covered(snap, b)
    ensures Uncovered(snap, a + b) == Uncovered(snap, a) + Uncovered(snap, b)
  {
    hide Covers;
    if b == [] {
      assert a + b == a;
    } else {
      CoveredConcat(snap, a, b[..|b| - 1]);
      assert (a + b)[..|a + b| - 1] == a + b[..|b| - 1];
    }
  }

  lemma {:induction false} CoveredTwice(snap: Snapshot, log: seq<Transaction>)
    ensures Covered(snap, Covered(snap, log)) == Covered(snap, log)
    ensures Uncovered(snap, Covered(snap, log)) == []
  {
    hide Covers;
    if log != [] {
      var n := |log| - 1;
      CoveredTwice(snap, log[..n]);
      if Covers(snap, log[n]) {
        CoveredConcat(snap, Covered(snap, log[..n]), [log[n]]);
        assert Covered(snap, [log[n]]) == [log[n]] && Uncovered(snap, [log[n]]) == [];
      } else {
        assert Covered(snap, log) == Covered(snap, log[..n]);
      }
    }
  }

  lemma {:induction false} NeededIsUncovered(snap: Snapshot, log: seq<Transaction>)
    ensures Needed(NotCovered(snap), log) == Uncovered(snap, log)
  {
    hide Covers;
    if log != [] { NeededIsUncovered(snap, log[..|log| - 1]); }
  }

  // Every covered transaction kept from the rest of a log stands somewhere in it.
  lemma {:induction false} CoveredFrom(snap: Snapshot, log: seq<Transaction>, i: nat) returns (j: nat)
    requires i < |Covered(snap, log)|
    ensures j < |log| && log[j] == Covered(snap, log)[i]
  {
    hide Covers;
    var n := |log| - 1;
    if i < |Covered(snap, log[..n])| {
      j := CoveredFrom(snap, log[..n], i);
    } else {
      j := n;
    }
  }

  lemma SelectedConflictFree(v: Scoped, snap: Snapshot, log: seq<Transaction>, cursor: LSN)
    requires Keyed(v, log) && ConflictFree(v, snap, log)
    ensures Keyed(v, Selected(snap, log, cursor)) && ConflictFree(v, snap, Selected(snap, log, cursor))
  {
    hide Covers, KeyedPart, Touches, Progress.Through;
    var k := |Progress.Through(log, cursor)|;
    var rest := log[k..];
    KeyedSplit(v, log, k);
    KeyedParts(v, snap, rest);
    var all := Selected(snap, log, cursor);
    assert Progress.Through(log, cursor) == log[..k];
    forall i, j, id | 0 <= i < j < |all| && !Covers(snap, all[i]) && Covers(snap, all[j])
      ensures !(Touches(v, all[i], id) && Touches(v, all[j], id))
    {
      if i >= k {
        CoveredIn(snap, rest, all[i]);
      } else if j >= k {
        var e := CoveredFrom(snap, rest, j - k);
        assert log[k + e] == all[j];
      }
    }
  }

  // A snapshot's rows, then the uncovered transactions through `cursor`, are the
  // selected transactions in commit order.
  lemma SnapshotReaches(v: Scoped, rows: map<string, Row>, snap: Snapshot, log: seq<Transaction>, cursor: LSN)
    requires Keyed(v, log) && ConflictFree(v, snap, log)
    ensures Keyed(v, Covered(snap, log)) && Keyed(v, Uncovered(snap, Progress.Through(log, cursor)))
    ensures Keyed(v, Selected(snap, log, cursor))
    ensures Fold(v, Fold(v, rows, Covered(snap, log)), Uncovered(snap, Progress.Through(log, cursor))) ==
            Fold(v, rows, Selected(snap, log, cursor))
  {
    hide Covers, KeyedPart, ConflictFree, Fold, FoldRow, Progress.Through;
    var through := Progress.Through(log, cursor);
    var k := |through|;
    KeyedParts(v, snap, log);
    KeyedSplit(v, log, k);
    assert through == log[..k];
    KeyedParts(v, snap, through);
    SelectedConflictFree(v, snap, log, cursor);
    var all := Selected(snap, log, cursor);
    CoveredConcat(snap, through, log[k..]);
    assert through + log[k..] == log;
    CoveredTwice(snap, log[k..]);
    CoveredConcat(snap, through, Covered(snap, log[k..]));
    assert Covered(snap, all) == Covered(snap, log) && Uncovered(snap, all) == Uncovered(snap, through);
    var start := Fold(v, rows, Covered(snap, log));
    forall id ensures Lookup(Fold(v, start, Uncovered(snap, through)), id) == Lookup(Fold(v, rows, all), id) {
      FoldIsPerRow(v, rows, Covered(snap, log), id);
      FoldIsPerRow(v, start, Uncovered(snap, through), id);
      FoldIsPerRow(v, rows, all, id);
      Reorder(v, snap, all, id, Lookup(rows, id));
    }
    SameLookups(Fold(v, start, Uncovered(snap, through)), Fold(v, rows, all));
  }

  lemma {:induction false} NoneCovered(snap: Snapshot, log: seq<Transaction>)
    requires forall i :: 0 <= i < |log| ==> !Covers(snap, log[i])
    ensures Covered(snap, log) == []
  {
    if log != [] { NoneCovered(snap, log[..|log| - 1]); }
  }

  // Nothing that ends after `cursor` is covered.
  lemma BeyondCovered(snap: Snapshot, log: seq<Transaction>, cursor: LSN)
    requires SourceOrdered(log)
    requires forall t :: t in log && Covers(snap, t) ==> t.cursor <= cursor
    ensures Covered(snap, log[|Progress.Through(log, cursor)|..]) == []
  {
    Progress.ThroughIs(log, cursor);
    hide Covers, Progress.Through, SourceOrdered;
    var k := |Progress.Through(log, cursor)|;
    assert forall i :: k <= i < |log| ==> log[i] in log && !Covers(snap, log[i]);
    NoneCovered(snap, log[k..]);
  }

  // That is the whole history through the position exactly when the position has
  // passed every covered transaction.
  lemma SelectedIsThrough(snap: Snapshot, log: seq<Transaction>, cursor: LSN)
    requires SourceOrdered(log)
    ensures Selected(snap, log, cursor) == Progress.Through(log, cursor) <==>
            forall t :: t in log && Covers(snap, t) ==> t.cursor <= cursor
  {
    Progress.ThroughIs(log, cursor);
    hide Covers, Progress.Through;
    var k := |Progress.Through(log, cursor)|;
    if i :| k <= i < |log| && Covers(snap, log[i]) {
      assert log[k..][i - k] == log[i];
      CoveredHolds(snap, log[k..], i - k);
      assert log[i] in log && log[i].cursor > cursor;
    } else {
      NoneCovered(snap, log[k..]);
    }
  }

  // Resuming

  // Replaying a stretch of the log over rows that already hold its covered part.
  lemma Absorbed(v: Scoped, snap: Snapshot, log: seq<Transaction>, id: string, row: Option<Row>)
    requires Keyed(v, log) && ConflictFree(v, snap, log)
    ensures Keyed(v, Covered(snap, log))
    ensures FoldRow(v, id, log, FoldRow(v, id, Covered(snap, log), row)) == FoldRow(v, id, log, row)
  {
    KeyedParts(v, snap, log);
    var cov := Covered(snap, log);
    Reorder(v, snap, log, id, row);
    Reorder(v, snap, log, id, FoldRow(v, id, cov, row));
    FoldRowIdempotent(v, id, cov, row);
  }

  // A log's changes to the scope, end to end.
  function Flat(v: Scoped, log: seq<Transaction>): seq<RowChange> {
    if log == [] then [] else Flat(v, log[..|log| - 1]) + Part(v, log[|log| - 1])
  }

  lemma {:induction false} FlatRuns(v: Scoped, id: string, log: seq<Transaction>, row: Option<Row>)
    requires Keyed(v, log)
    ensures AllApplicable(v.primaryKey, Flat(v, log))
    ensures FoldRow(v, id, log, row) == RunRow(v.primaryKey, id, Flat(v, log), row)
  {
    if log != [] {
      var n := |log| - 1;
      KeyedSplit(v, log, n);
      FlatRuns(v, id, log[..n], row);
      assert KeyedPart(v, log[n]);
      hide AllApplicable, Part;
      RunRowConcat(v.primaryKey, id, Flat(v, log[..n]), Part(v, log[n]), row);
    }
  }

  lemma FoldRowIdempotent(v: Scoped, id: string, log: seq<Transaction>, row: Option<Row>)
    requires Keyed(v, log)
    ensures FoldRow(v, id, log, FoldRow(v, id, log, row)) == FoldRow(v, id, log, row)
  {
    FlatRuns(v, id, log, row);
    FlatRuns(v, id, log, FoldRow(v, id, log, row));
    hide FoldRow, RunRow, Flat;
    RunRowIdempotent(v.primaryKey, id, Flat(v, log), row);
  }

  // A cursor cuts the history cleanly for a scope: what it does not follow or
  // precede is covered or does not concern the scope.
  ghost predicate CutsCleanly(v: Scoped, snap: Snapshot, log: seq<Transaction>, cursor: LSN) {
    forall i :: 0 <= i < |log| ==>
      || log[i].cursor <= cursor || After(log[i], cursor)
      || Covers(snap, log[i]) || !Relevant(v.projection, v.scope, log[i])
  }

  // Where a resume from `cursor` starts in an ordered log.
  function ResumeAt(log: seq<Transaction>, cursor: LSN): nat {
    var a := |Progress.Through(log, cursor)|;
    if a < |log| && !After(log[a], cursor) then a + 1 else a
  }

  lemma ResumePoint(log: seq<Transaction>, cursor: LSN)
    requires SourceOrdered(log)
    ensures ResumeAt(log, cursor) <= |log|
    ensures forall i :: 0 <= i < |log| ==> (After(log[i], cursor) <==> ResumeAt(log, cursor) <= i)
  {
    Progress.ThroughIs(log, cursor);
  }

  lemma {:induction false} NeededAfter(log: seq<Transaction>, cursor: LSN, b: nat)
    requires b <= |log| && forall i :: 0 <= i < |log| ==> (After(log[i], cursor) <==> b <= i)
    ensures Needed(AfterCursor(cursor), log) == log[b..]
  {
    if log != [] {
      var n := |log| - 1;
      if b <= n {
        NeededAfter(log[..n], cursor, b);
        assert log[b..] == log[..n][b..] + [log[n]];
      } else {
        NeededAfter(log[..n], cursor, n);
      }
    }
  }

  lemma ConflictFreeSlice(v: Scoped, snap: Snapshot, log: seq<Transaction>, a: nat, b: nat)
    requires a <= b <= |log| && Keyed(v, log) && ConflictFree(v, snap, log)
    ensures Keyed(v, log[a..b]) && ConflictFree(v, snap, log[a..b])
  {
    hide KeyedPart, Touches, Covers;
    var part := log[a..b];
    assert forall i :: 0 <= i < |part| ==> part[i] == log[a + i];
  }

  // The stretch between the two ends of the cut: at most one transaction, which
  // the rows already hold or which does not concern them.
  lemma StraddlerHeld(v: Scoped, snap: Snapshot, log: seq<Transaction>, cursor: LSN, id: string, row: Option<Row>)
    requires SourceOrdered(log) && Keyed(v, log) && CutsCleanly(v, snap, log, cursor)
    ensures var a, b := |Progress.Through(log, cursor)|, ResumeAt(log, cursor);
            && a <= b <= |log| && Keyed(v, log[a..b]) && Keyed(v, Covered(snap, log[a..b]))
            && FoldRow(v, id, Covered(snap, log[a..b]), row) == FoldRow(v, id, log[a..b], row)
  {
    ResumePoint(log, cursor);
    Progress.ThroughIs(log, cursor);
    hide Covers, SourceOrdered, Progress.Through;
    var a, b := |Progress.Through(log, cursor)|, ResumeAt(log, cursor);
    KeyedSplit(v, log, b);
    KeyedSplit(v, log[..b], a);
    assert log[..b][a..] == log[a..b];
    KeyedParts(v, snap, log[a..b]);
    if b == a + 1 {
      var t := log[a];
      assert log[a..b] == [t];
      assert Covered(snap, [t]) == if Covers(snap, t) then [t] else [];
      if !Covers(snap, t) {
        assert Part(v, t) == [];
        FoldUntouched(v, id, [t], row);
      }
    } else {
      assert log[a..b] == [];
    }
  }

  lemma ThroughTwice(log: seq<Transaction>, cursor: LSN, upTo: LSN)
    requires SourceOrdered(log) && cursor <= upTo
    ensures |Progress.Through(log, cursor)| <= |Progress.Through(log, upTo)|
    ensures Progress.Through(Progress.Through(log, upTo), cursor) == Progress.Through(log, cursor)
  {
    Progress.ThroughIs(log, cursor);
    Progress.ThroughIs(log, upTo);
    var within := Progress.Through(log, upTo);
    assert SourceOrdered(within);
    Progress.ThroughIs(within, cursor);
    hide Progress.Through, SourceOrdered;
    var a, k := |Progress.Through(log, cursor)|, |within|;
    assert a > 0 ==> log[a - 1].cursor <= cursor;
    if a < k { assert within[a].cursor > cursor; }
  }

  // What a cursor selects of a log is what it selects of a stretch that reaches
  // past it, and the covered part of the rest.
  lemma SelectedCut(snap: Snapshot, log: seq<Transaction>, cursor: LSN, within: seq<Transaction>,
                    rest: seq<Transaction>)
    requires log == within + rest && Progress.Through(within, cursor) == Progress.Through(log, cursor)
    ensures Selected(snap, log, cursor) == Selected(snap, within, cursor) + Covered(snap, rest)
  {
    hide Covers, Progress.Through, Covered;
    var a := |Progress.Through(log, cursor)|;
    assert log[a..] == within[a..] + rest;
    CoveredConcat(snap, within[a..], rest);
  }

  // Folding head, held and covered, where `held` does what `middle` does, and then
  // replaying what follows `middle`.
  lemma ReplayPieces(v: Scoped, snap: Snapshot, head: seq<Transaction>, middle: seq<Transaction>,
                     held: seq<Transaction>, rest: seq<Transaction>, id: string, row: Option<Row>)
    requires Keyed(v, head) && Keyed(v, middle) && Keyed(v, held) && Keyed(v, rest) && ConflictFree(v, snap, rest)
    requires FoldRow(v, id, held, FoldRow(v, id, head, row)) == FoldRow(v, id, middle, FoldRow(v, id, head, row))
    ensures Keyed(v, Covered(snap, rest)) && Keyed(v, head + held + Covered(snap, rest))
    ensures Keyed(v, head + middle + rest)
    ensures FoldRow(v, id, rest, FoldRow(v, id, head + held + Covered(snap, rest), row)) ==
            FoldRow(v, id, head + middle + rest, row)
  {
    KeyedParts(v, snap, rest);
    Absorbed(v, snap, rest, id, FoldRow(v, id, head + middle, row));
    hide KeyedPart, ConflictFree, Covered, FoldRow;
    FoldRowConcat(v, id, head, held, row);
    FoldRowConcat(v, id, head + held, Covered(snap, rest), row);
    FoldRowConcat(v, id, head, middle, row);
    FoldRowConcat(v, id, head + middle, rest, row);
  }

  // Replaying from the cut over rows that hold everything selected at it.
  lemma ReplayRow(v: Scoped, snap: Snapshot, log: seq<Transaction>, cursor: LSN, id: string, row: Option<Row>)
    requires SourceOrdered(log) && Keyed(v, log) && ConflictFree(v, snap, log) && CutsCleanly(v, snap, log, cursor)
    ensures ResumeAt(log, cursor) <= |log|
    ensures var replay := log[ResumeAt(log, cursor)..];
            && Keyed(v, Selected(snap, log, cursor)) && Keyed(v, replay)
            && FoldRow(v, id, replay, FoldRow(v, id, Selected(snap, log, cursor), row)) == FoldRow(v, id, log, row)
  {
    hide KeyedPart, SourceOrdered, Progress.Through, ResumeAt, CutsCleanly, ConflictFree, FoldRow, Covered;
    var a, b := |Progress.Through(log, cursor)|, ResumeAt(log, cursor);
    KeyedSplit(v, log, a);
    StraddlerHeld(v, snap, log, cursor, id, FoldRow(v, id, log[..a], row));
    ConflictFreeSlice(v, snap, log, b, |log|);
    var head, middle, rest := log[..a], log[a..b], log[b..];
    assert log[b..|log|] == rest;
    ReplayPieces(v, snap, head, middle, Covered(snap, middle), rest, id, row);
    assert head + middle + rest == log;
    assert log[a..] == middle + rest;
    CoveredConcat(snap, middle, rest);
    assert Progress.Through(log, cursor) == head;
    assert head + Covered(snap, middle) + Covered(snap, rest) == head + (Covered(snap, middle) + Covered(snap, rest));
  }

  // What a client holds that had everything selected at `cursor` and was then sent
  // everything after it through `upTo`.
  function Replayed(v: Scoped, rows: map<string, Row>, snap: Snapshot, log: seq<Transaction>, cursor: LSN, upTo: LSN)
    : map<string, Row>
    requires Keyed(v, Selected(snap, log, cursor))
    requires Keyed(v, Needed(AfterCursor(cursor), Progress.Through(log, upTo)))
  {
    Fold(v, Fold(v, rows, Selected(snap, log, cursor)), Needed(AfterCursor(cursor), Progress.Through(log, upTo)))
  }

  lemma {:induction false} NeededKeyed(v: Scoped, need: Need, log: seq<Transaction>)
    requires Keyed(v, log)
    ensures Keyed(v, Needed(need, log))
  {
    hide KeyedPart, Needs;
    if log != [] {
      KeyedSplit(v, log, |log| - 1);
      NeededKeyed(v, need, log[..|log| - 1]);
    }
  }

  lemma SelectedKeyed(v: Scoped, snap: Snapshot, log: seq<Transaction>, cursor: LSN)
    requires Keyed(v, log)
    ensures Keyed(v, Selected(snap, log, cursor)) && Keyed(v, Progress.Through(log, cursor))
  {
    hide KeyedPart, Covers, Progress.Through;
    var k := |Progress.Through(log, cursor)|;
    KeyedSplit(v, log, k);
    KeyedParts(v, snap, log[k..]);
    assert Progress.Through(log, cursor) == log[..k];
  }

  // None of a log's transactions changes the row.
  ghost predicate Untouched(v: Scoped, log: seq<Transaction>, id: string)
    requires Keyed(v, log)
  {
    forall i :: 0 <= i < |log| ==> !Touches(v, log[i], id)
  }

  // What a replay through `upTo` leaves of one row: the history through `upTo` if
  // no covered transaction that ends later changes it, and what is selected at
  // `upTo` if nothing replayed does. A row that both change may have moved back.
  lemma ReplayedRow(v: Scoped, snap: Snapshot, log: seq<Transaction>, cursor: LSN, upTo: LSN, id: string,
                    row: Option<Row>)
    requires SourceOrdered(log) && Keyed(v, log) && ConflictFree(v, snap, log) && CutsCleanly(v, snap, log, cursor)
    requires cursor <= upTo
    ensures var within := Progress.Through(log, upTo);
            var replay, beyond := Needed(AfterCursor(cursor), within), Covered(snap, log[|within|..]);
            && Keyed(v, Selected(snap, log, cursor)) && Keyed(v, Selected(snap, log, upTo))
            && Keyed(v, within) && Keyed(v, replay) && Keyed(v, beyond)
            && var now := FoldRow(v, id, replay, FoldRow(v, id, Selected(snap, log, cursor), row));
               && (Untouched(v, beyond, id) ==> now == FoldRow(v, id, within, row))
               && (Untouched(v, replay, id) ==> now == FoldRow(v, id, Selected(snap, log, upTo), row))
  {
    var within := Progress.Through(log, upTo);
    var rest := log[|within|..];
    ThroughTwice(log, cursor, upTo);
    Progress.ThroughIs(log, upTo);
    hide Covers, KeyedPart, Touches, Progress.Through, Selected, FoldRow, Covered;
    assert log == within + rest && within == log[0..|within|];
    ConflictFreeSlice(v, snap, log, 0, |within|);
    assert SourceOrdered(within) && CutsCleanly(v, snap, within, cursor);
    hide ConflictFree, CutsCleanly;
    ResumePoint(within, cursor);
    NeededAfter(within, cursor, ResumeAt(within, cursor));
    hide SourceOrdered, ResumeAt, Needed;
    SelectedCut(snap, log, cursor, within, rest);
    KeyedSplit(v, log, |within|);
    KeyedParts(v, snap, rest);
    ReplayRow(v, snap, within, cursor, id, row);
    SelectedAll(snap, within, rest, upTo);
    ReplayedPieces(v, id, Selected(snap, within, cursor), Covered(snap, rest), within[ResumeAt(within, cursor)..],
                   within, row);
  }

  lemma SelectedAll(snap: Snapshot, within: seq<Transaction>, rest: seq<Transaction>, upTo: LSN)
    requires Progress.Through(within + rest, upTo) == within
    ensures Selected(snap, within + rest, upTo) == within + Covered(snap, rest)
  {
    assert (within + rest)[|within|..] == rest;
  }

  lemma ReplayedPieces(v: Scoped, id: string, held: seq<Transaction>, beyond: seq<Transaction>,
                       replay: seq<Transaction>, within: seq<Transaction>, row: Option<Row>)
    requires Keyed(v, held) && Keyed(v, beyond) && Keyed(v, replay) && Keyed(v, within)
    requires FoldRow(v, id, replay, FoldRow(v, id, held, row)) == FoldRow(v, id, within, row)
    ensures Keyed(v, held + beyond) && Keyed(v, within + beyond)
    ensures var now := FoldRow(v, id, replay, FoldRow(v, id, held + beyond, row));
            && (Untouched(v, beyond, id) ==> now == FoldRow(v, id, within, row))
            && (Untouched(v, replay, id) ==> now == FoldRow(v, id, within + beyond, row))
  {
    hide KeyedPart, FoldRow, Touches;
    FoldRowConcat(v, id, held, beyond, row);
    FoldRowConcat(v, id, within, beyond, row);
    if Untouched(v, beyond, id) { FoldUntouched(v, id, beyond, FoldRow(v, id, held, row)); }
    if Untouched(v, replay, id) {
      FoldUntouched(v, id, replay, FoldRow(v, id, held, row));
      FoldUntouched(v, id, replay, FoldRow(v, id, held + beyond, row));
    }
  }

  // Resume convergence, on values: once `upTo` has passed every covered
  // transaction, the rows are the whole history through it.
  lemma ReplayReaches(v: Scoped, rows: map<string, Row>, snap: Snapshot, log: seq<Transaction>,
                      cursor: LSN, upTo: LSN)
    requires SourceOrdered(log) && Keyed(v, log) && ConflictFree(v, snap, log) && CutsCleanly(v, snap, log, cursor)
    requires cursor <= upTo && forall t :: t in log && Covers(snap, t) ==> t.cursor <= upTo
    ensures Keyed(v, Selected(snap, log, cursor)) && Keyed(v, Progress.Through(log, upTo))
    ensures Keyed(v, Needed(AfterCursor(cursor), Progress.Through(log, upTo)))
    ensures Replayed(v, rows, snap, log, cursor, upTo) == Fold(v, rows, Progress.Through(log, upTo))
  {
    BeyondCovered(snap, log, upTo);
    ReplayedRow(v, snap, log, cursor, upTo, "", None);
    hide Covers, KeyedPart, Touches, Progress.Through, ConflictFree, Fold, FoldRow, SourceOrdered, CutsCleanly,
         Needed, Selected, Covered;
    var within, held := Progress.Through(log, upTo), Selected(snap, log, cursor);
    var start, replay := Fold(v, rows, held), Needed(AfterCursor(cursor), within);
    forall id ensures Lookup(Fold(v, start, replay), id) == Lookup(Fold(v, rows, within), id) {
      ReplayedRow(v, snap, log, cursor, upTo, id, Lookup(rows, id));
      FoldIsPerRow(v, rows, held, id);
      FoldIsPerRow(v, start, replay, id);
      FoldIsPerRow(v, rows, within, id);
    }
    SameLookups(Fold(v, start, replay), Fold(v, rows, within));
  }
}
