// A client's connections, one after another, each cut after any message: what it
// was sent up to the cursor it then resumes from (internal/watch/hub.go,
// internal/watch/event.go, sdk/go/watchd/store.go).
module Sessions {
  import opened Cdc
  import opened HubSpec
  import opened Visibility
  import opened Watch
  import opened WatchInvariant
  import opened Convergence
  import Progress

  // What every reachable state says of the batches a watcher has been sent

  lemma {:induction false} DeliverItemsBoth(need: Need, a: seq<Queued>, b: seq<Queued>)
    ensures DeliverItems(need, a + b) == DeliverItems(need, a) + DeliverItems(need, b)
  {
    if b == [] {
      assert a + b == a;
    } else {
      var n := |b| - 1;
      DeliverItemsBoth(need, a, b[..n]);
      assert (a + b)[..|a + b| - 1] == a + b[..n];
    }
  }

  lemma SentIsDue(pr: Program)
    requires SentInv(pr) && pr.start.Some?
    ensures Batches(pr.sent) <= Due(pr)
  {
    hide Batches, Owed, DeliverItems;
  }

  // What is due is the beginning of what the log owes.
  lemma DueIsOwed(h: HubState, w: WatcherId, pr: Program)
    requires QueueInv(h, w, pr.projection, pr.scope, pr.past) && pr.start.Some?
    requires Progress.HeadCovered(h.accepted, pr)
    ensures Due(pr) <= Deliver(pr.projection, pr.scope, pr.start.value.need, h.accepted)
  {
    hide Deliver, DeliverItems, Items, EndedFor, Relevant, Needs;
    var need, past, log := pr.start.value.need, pr.past, h.accepted;
    var cut, j, e := past.joinedAt - |past.ringAt|, past.joinedAt, past.seenTo;
    DeliverItemsBoth(need, past.taken, h.info[w].queue);
    DeliverOfItems(pr.projection, pr.scope, need, log[j..e]);
    Progress.DeliverNothing(pr.projection, pr.scope, need, log[..cut]);
    DeliverConcat(pr.projection, pr.scope, need, log[..cut], past.ringAt);
    assert log[..cut] + past.ringAt == log[..j];
    DeliverConcat(pr.projection, pr.scope, need, log[..j], log[j..e]);
    assert log[..j] + log[j..e] == log[..e];
    DeliverConcat(pr.projection, pr.scope, need, log[..e], log[e..]);
    assert log[..e] + log[e..] == log;
  }

  // At any place, registered or not, a watcher has been sent the beginning of what
  // the log owes it: nothing skipped, nothing repeated, nothing out of order.
  lemma SentIsOwed(s: System, w: WatcherId)
    requires Reachable(s) && w in s.programs && s.programs[w].joined && s.programs[w].start.Some?
    requires Progress.HeadCovered(s.hub.accepted, s.programs[w])
    ensures var pr := s.programs[w];
            Batches(pr.sent) <= Deliver(pr.projection, pr.scope, pr.start.value.need, s.hub.accepted)
  {
    hide SystemInv, Reachable, HubInvariant.HubInv, QueueInv, SentInv, StartInv, LiveInv, ProgressInv, WakeInv,
         Progress.HeadCovered, Batches, Due, Deliver;
    ReachableInv(s);
    JoinedWatch(s, w);
    SentIsDue(s.programs[w]);
    DueIsOwed(s.hub, w, s.programs[w]);
  }

  // The i-th batch a log owes, and all before it, are what the log owes up to the
  // transaction it stands for.
  lemma {:induction false} DeliverAt(p: Projection, scope: string, need: Need, log: seq<Transaction>, i: nat)
    returns (j: nat)
    requires i < |Deliver(p, scope, need, log)|
    ensures j < |log| && Relevant(p, scope, log[j]) && Needs(need, log[j])
    ensures Deliver(p, scope, need, log)[i] == BatchOf(p, scope, log[j])
    ensures Deliver(p, scope, need, log)[..i + 1] == Deliver(p, scope, need, log[..j + 1])
  {
    hide Relevant, Needs;
    var n := |log| - 1;
    var before := Deliver(p, scope, need, log[..n]);
    if i < |before| {
      j := DeliverAt(p, scope, need, log[..n], i);
      assert log[..n][..j + 1] == log[..j + 1];
      assert Deliver(p, scope, need, log)[..i + 1] == before[..i + 1];
    } else {
      j := n;
      assert log[..j + 1] == log;
    }
  }

  lemma {:induction false} BatchesPrefix(received: seq<Event>, sent: seq<Event>)
    requires received <= sent
    ensures Batches(received) <= Batches(sent)
  {
    if |received| < |sent| {
      BatchesPrefix(received, sent[..|sent| - 1]);
    } else {
      assert received == sent;
    }
  }

  lemma ThroughAt(log: seq<Transaction>, j: nat)
    requires SourceOrdered(log) && j < |log|
    ensures Progress.Through(log, log[j].cursor) == log[..j + 1]
  {
    Progress.ThroughIs(log, log[j].cursor);
    var k := |Progress.Through(log, log[j].cursor)|;
    assert k == j + 1 by {
      if j + 1 < |log| { assert log[j].cursor <= log[j + 1].commitLSN; }
    }
  }

  // A cut

  // What a client had received when its connection was cut, and the cursor it then
  // holds: the batch's after a Batch, the position after a Progress. A Progress
  // counts if it is sound: nothing was skipped before the sample it reports. A client
  // that received less had received all that was sent in an earlier state.
  ghost predicate AfterBatch(pr: Program, received: seq<Event>, cursor: LSN) {
    && received <= pr.sent && received != []
    && received[|received| - 1].Batch? && received[|received| - 1].cursor == cursor
  }

  ghost predicate AfterReport(pr: Program, received: seq<Event>, cursor: LSN) {
    && pr.place.Reporting? && pr.start.Some? && cursor == pr.sample.position
    && received == pr.sent + [Watch.Progress(cursor)]
  }

  ghost predicate AfterProgress(log: seq<Transaction>, pr: Program, received: seq<Event>, cursor: LSN) {
    AfterReport(pr, received, cursor) && Progress.BaseOk(log, pr) && Progress.NothingSkipped(log, pr)
  }

  ghost predicate Cut(log: seq<Transaction>, pr: Program, received: seq<Event>, cursor: LSN) {
    AfterBatch(pr, received, cursor) || AfterProgress(log, pr, received, cursor)
  }

  // A watch of a scope, on a hub that has accepted the beginning of the history.
  ghost predicate WatchOf(s: System, w: WatcherId, v: Scoped, need: Need, log: seq<Transaction>) {
    && Reachable(s) && w in s.programs && s.hub.accepted <= log && SourceOrdered(log)
    && var pr := s.programs[w];
       && pr.joined && pr.projection == v.projection && pr.scope == v.scope
       && pr.start.Some? && pr.start.value.need == need
       && Progress.HeadCovered(s.hub.accepted, pr)
  }

  // A cursor that is an accepted transaction's.
  ghost predicate IsCommit(log: seq<Transaction>, cursor: LSN) {
    exists j :: 0 <= j < |log| && log[j].cursor == cursor
  }

  lemma BatchCutExact(s: System, w: WatcherId, v: Scoped, need: Need, log: seq<Transaction>,
                      received: seq<Event>, cursor: LSN)
    requires WatchOf(s, w, v, need, log) && AfterBatch(s.programs[w], received, cursor)
    ensures Batches(received) == Deliver(v.projection, v.scope, need, Progress.Through(log, cursor))
    ensures exists j :: 0 <= j < |log| && log[j].cursor == cursor && Needs(need, log[j])
  {
    var pr, i := s.programs[w], |Batches(received)| - 1;
    SentIsOwed(s, w);
    BatchesPrefix(received, pr.sent);
    hide Reachable, Progress.HeadCovered, Progress.BaseOk, SourceOrdered, Relevant, Needs;
    var accepted := s.hub.accepted;
    var owed := Deliver(v.projection, v.scope, need, accepted);
    assert Batches(received) <= owed && Batches(received)[i] == received[|received| - 1];
    var j := DeliverAt(v.projection, v.scope, need, accepted, i);
    hide Deliver, Batches;
    assert Batches(received) == owed[..i + 1] && owed[i] == Batches(received)[i];
    assert log[j] == accepted[j] && log[..j + 1] == accepted[..j + 1];
    ThroughAt(log, j);
  }

  // After a Progress, what the client received is one batch for each relevant
  // transaction it needs that ends by the position reported, if and only if nothing
  // was skipped before the sample.
  lemma ReportExactIff(s: System, w: WatcherId, v: Scoped, need: Need, log: seq<Transaction>, received: seq<Event>,
                       cursor: LSN)
    requires WatchOf(s, w, v, need, log) && AfterReport(s.programs[w], received, cursor)
    requires Progress.BaseOk(log, s.programs[w])
    ensures Batches(received) == Deliver(v.projection, v.scope, need, Progress.Through(log, cursor)) <==>
            Progress.NothingSkipped(log, s.programs[w])
  {
    var pr, future := s.programs[w], log[|s.hub.accepted|..];
    assert log == s.hub.accepted + future;
    assert received[..|pr.sent|] == pr.sent && Batches(received) == Batches(pr.sent);
    hide Reachable, Progress.HeadCovered, Progress.BaseOk, SourceOrdered, Batches, Deliver, Progress.Through;
    Progress.ProgressExactIff(s, w, future);
    SkippedAlike(s, w, log);
  }

  // What was skipped lies in what the hub had accepted.
  lemma SkippedAlike(s: System, w: WatcherId, log: seq<Transaction>)
    requires Reachable(s) && w in s.programs && s.programs[w].joined && s.programs[w].place.Reporting?
    requires s.programs[w].start.Some? && s.hub.accepted <= log
    ensures Progress.NothingSkipped(log, s.programs[w]) <==> Progress.NothingSkipped(s.hub.accepted, s.programs[w])
  {
    hide SystemInv, Reachable;
    ReachableInv(s);
    Progress.Reports(s, w);
    Progress.SampledBeforeDrained(s.hub.accepted, s.programs[w]);
    hide Progress.AboutToReport, Relevant, Needs;
    assert forall i :: 0 <= i < |s.hub.accepted| ==> log[i] == s.hub.accepted[i];
  }

  // Wherever the connection is cut, what the client received is one batch for each
  // relevant transaction it needs that ends by the cursor it holds, in order.
  lemma CutExact(s: System, w: WatcherId, v: Scoped, need: Need, log: seq<Transaction>, received: seq<Event>,
                 cursor: LSN)
    requires WatchOf(s, w, v, need, log) && Cut(log, s.programs[w], received, cursor)
    ensures Batches(received) == Deliver(v.projection, v.scope, need, Progress.Through(log, cursor))
  {
    hide Reachable, Progress.BaseOk, Progress.NothingSkipped, Batches, Deliver, Progress.Through;
    if AfterBatch(s.programs[w], received, cursor) {
      BatchCutExact(s, w, v, need, log, received, cursor);
    } else {
      ReportExactIff(s, w, v, need, log, received, cursor);
    }
  }

  // A watcher about to report has its base or an accepted cursor for its position.
  lemma ReportsAt(s: System, w: WatcherId, log: seq<Transaction>)
    requires Reachable(s) && w in s.programs && s.programs[w].joined && s.programs[w].place.Reporting?
    requires s.programs[w].start.Some? && s.hub.accepted <= log
    ensures var pr := s.programs[w];
            match pr.start.value.need
            case AfterCursor(from) =>
              pr.sample.position >= from && (pr.sample.position == from || IsCommit(log, pr.sample.position))
            case NotCovered(_) =>
              (pr.sample.position == pr.start.value.base && pr.sample.at == 0) || IsCommit(log, pr.sample.position)
  {
    hide SystemInv, Reachable;
    ReachableInv(s);
    Progress.Reports(s, w);
    hide Due, Batches, Items, SourceOrdered;
    var pr := s.programs[w];
    assert PositionAt(s.hub.accepted, pr.start.value, pr.sample, Max(pr.sample.at, pr.sample.drainedAt));
    if pr.sample.position != pr.start.value.base || !(pr.start.value.baseSafe || pr.sample.at == 0) {
      var j :| 0 <= j < |s.hub.accepted| && s.hub.accepted[j].cursor == pr.sample.position;
      assert log[j].cursor == pr.sample.position;
    }
  }

  lemma CommitCuts(v: Scoped, snap: Snapshot, log: seq<Transaction>, cursor: LSN)
    requires SourceOrdered(log) && IsCommit(log, cursor)
    ensures CutsCleanly(v, snap, log, cursor)
  {
    hide Covers, Relevant;
  }

  // A snapshot watch, cut

  // Every cursor a snapshot watch gives, with a batch or while registered, cuts the
  // history cleanly, so it can be resumed from.
  lemma SnapshotCutsCleanly(s: System, w: WatcherId, v: Scoped, snap: Snapshot, log: seq<Transaction>,
                            received: seq<Event>, cursor: LSN)
    requires WatchOf(s, w, v, NotCovered(snap), log) && Cut(log, s.programs[w], received, cursor)
    ensures CutsCleanly(v, snap, log, cursor)
  {
    if AfterBatch(s.programs[w], received, cursor) {
      BatchCutExact(s, w, v, NotCovered(snap), log, received, cursor);
      assert IsCommit(log, cursor);
      CommitCuts(v, snap, log, cursor);
    } else {
      ReportsAt(s, w, log);
      hide Reachable, Covers, Relevant, Progress.HeadCovered;
      if IsCommit(log, cursor) { CommitCuts(v, snap, log, cursor); }
    }
  }

  // Snapshot convergence at any cut: the snapshot's rows and the batches received
  // are the rows of exactly the transactions covered or ending by the cursor held.
  lemma SnapshotConverges(s: System, w: WatcherId, v: Scoped, snap: Snapshot, log: seq<Transaction>,
                    received: seq<Event>, cursor: LSN, rows: map<string, Row>)
    requires WatchOf(s, w, v, NotCovered(snap), log) && Cut(log, s.programs[w], received, cursor)
    requires Keyed(v, log) && ConflictFree(v, snap, log)
    ensures Keyed(v, Covered(snap, log)) && Keyed(v, Selected(snap, log, cursor)) && BatchesKeyed(v, Batches(received))
    ensures ClientRows(v, Fold(v, rows, Covered(snap, log)), Batches(received)) ==
            Fold(v, rows, Selected(snap, log, cursor))
  {
    hide WatchOf, Cut, KeyedPart, ConflictFree, Fold, ClientRows, Batches, Deliver, Progress.Through, Selected,
         Covered, SourceOrdered, BatchesKeyed;
    var through := Progress.Through(log, cursor);
    CutExact(s, w, v, NotCovered(snap), log, received, cursor);
    SnapshotReaches(v, rows, snap, log, cursor);
    KeyedSplit(v, log, |through|);
    assert through == log[..|through|];
    ClientFolds(v, Fold(v, rows, Covered(snap, log)), NotCovered(snap), through);
    NeededIsUncovered(snap, through);
  }

  // Resumed watches, cut, one after another

  // One connection of a client: the watch it was, what the client received of it,
  // and the cursor the client held when it was cut.
  datatype Session = Session(s: System, w: WatcherId, received: seq<Event>, cursor: LSN)

  // A session resumed from `from`. A client that received nothing still holds that.
  ghost predicate Resumed(x: Session, v: Scoped, from: LSN, log: seq<Transaction>) {
    && WatchOf(x.s, x.w, v, AfterCursor(from), log)
    && (Cut(log, x.s.programs[x.w], x.received, x.cursor) || (x.received == [] && x.cursor == from))
  }

  // For a resumed watch the two conditions on what came before hold by themselves.
  lemma ResumedIs(x: Session, v: Scoped, from: LSN, log: seq<Transaction>)
    requires Reachable(x.s) && x.w in x.s.programs && x.s.hub.accepted <= log && SourceOrdered(log)
    requires var pr := x.s.programs[x.w];
             && pr.joined && pr.projection == v.projection && pr.scope == v.scope
             && pr.start.Some? && pr.start.value.need == AfterCursor(from)
    requires Cut(log, x.s.programs[x.w], x.received, x.cursor) || (x.received == [] && x.cursor == from)
    ensures Resumed(x, v, from, log)
  {
    Progress.ResumeHeadCovered(x.s, x.w);
  }

  // Nothing at or before a cursor commits after it.
  lemma NothingAfter(v: Scoped, log: seq<Transaction>, cursor: LSN)
    requires SourceOrdered(log)
    ensures Deliver(v.projection, v.scope, AfterCursor(cursor), Progress.Through(log, cursor)) == []
  {
    Progress.ThroughIs(log, cursor);
    Progress.DeliverNothing(v.projection, v.scope, AfterCursor(cursor), Progress.Through(log, cursor));
  }

  lemma ResumedExact(x: Session, v: Scoped, from: LSN, log: seq<Transaction>)
    requires Resumed(x, v, from, log)
    ensures from <= x.cursor && (x.cursor == from || IsCommit(log, x.cursor))
    ensures Batches(x.received) ==
            Deliver(v.projection, v.scope, AfterCursor(from), Progress.Through(log, x.cursor))
  {
    if x.received == [] && x.cursor == from {
      NothingAfter(v, log, from);
    } else {
      CutExact(x.s, x.w, v, AfterCursor(from), log, x.received, x.cursor);
      if AfterBatch(x.s.programs[x.w], x.received, x.cursor) {
        BatchCutExact(x.s, x.w, v, AfterCursor(from), log, x.received, x.cursor);
      } else {
        ReportsAt(x.s, x.w, log);
      }
    }
  }

  // The cursor held after a number of sessions.
  function Held(from: LSN, sessions: seq<Session>): LSN {
    if sessions == [] then from else sessions[|sessions| - 1].cursor
  }

  // Each session resumes from the cursor the one before it left.
  ghost predicate Chain(v: Scoped, log: seq<Transaction>, from: LSN, sessions: seq<Session>) {
    sessions == [] ||
    (var n := |sessions| - 1;
     Chain(v, log, from, sessions[..n]) && Resumed(sessions[n], v, Held(from, sessions[..n]), log))
  }

  // All batches received over a number of sessions.
  function Received(sessions: seq<Session>): seq<Event> {
    if sessions == [] then []
    else Received(sessions[..|sessions| - 1]) + Batches(sessions[|sessions| - 1].received)
  }

  // Reconnecting loses and repeats nothing: however often a client resumes, and
  // wherever each connection is cut, it has received exactly what one watch would
  // have sent it.
  lemma {:induction false} ChainExact(v: Scoped, log: seq<Transaction>, from: LSN, sessions: seq<Session>)
    requires Chain(v, log, from, sessions) && SourceOrdered(log)
    ensures var held := Held(from, sessions);
            && from <= held && (held == from || IsCommit(log, held))
            && Received(sessions) == Deliver(v.projection, v.scope, AfterCursor(from), Progress.Through(log, held))
  {
    hide Resumed, Batches, Deliver, Progress.Through, SourceOrdered;
    if sessions == [] {
      NothingAfter(v, log, from);
    } else {
      var n := |sessions| - 1;
      var p := Held(from, sessions[..n]);
      ChainExact(v, log, from, sessions[..n]);
      ResumedExact(sessions[n], v, p, log);
      DeliverContinues(v, log, from, p, sessions[n].cursor);
    }
  }

  // From an accepted cursor p on, being after p and being after an earlier cursor agree.
  lemma SameAfter(log: seq<Transaction>, cursor: LSN, p: LSN)
    requires SourceOrdered(log) && cursor <= p && (p == cursor || IsCommit(log, p))
    ensures forall i :: 0 <= i < |Progress.Through(log, p)| ==> !After(log[i], p)
    ensures forall i :: |Progress.Through(log, p)| <= i < |log| ==> (After(log[i], p) <==> After(log[i], cursor))
  {
    Progress.ThroughIs(log, p);
  }

  lemma DeliverContinues(v: Scoped, log: seq<Transaction>, cursor: LSN, p: LSN, upTo: LSN)
    requires SourceOrdered(log) && cursor <= p <= upTo && (p == cursor || IsCommit(log, p))
    ensures Deliver(v.projection, v.scope, AfterCursor(cursor), Progress.Through(log, p)) +
            Deliver(v.projection, v.scope, AfterCursor(p), Progress.Through(log, upTo)) ==
            Deliver(v.projection, v.scope, AfterCursor(cursor), Progress.Through(log, upTo))
  {
    hide SourceOrdered, Progress.Through, Relevant, Deliver, After;
    SameAfter(log, cursor, p);
    ThroughTwice(log, p, upTo);
    var head, whole := Progress.Through(log, p), Progress.Through(log, upTo);
    assert head <= log && whole <= log;
    DeliverSplit(v, head, whole[|head|..], cursor, p);
    assert whole == head + whole[|head|..];
  }

  lemma DeliverSplit(v: Scoped, head: seq<Transaction>, tail: seq<Transaction>, cursor: LSN, p: LSN)
    requires forall i :: 0 <= i < |head| ==> !After(head[i], p)
    requires forall i :: 0 <= i < |tail| ==> (After(tail[i], p) <==> After(tail[i], cursor))
    ensures Deliver(v.projection, v.scope, AfterCursor(cursor), head) +
            Deliver(v.projection, v.scope, AfterCursor(p), head + tail) ==
            Deliver(v.projection, v.scope, AfterCursor(cursor), head + tail)
  {
    hide Relevant, Deliver, After;
    Progress.DeliverNothing(v.projection, v.scope, AfterCursor(p), head);
    SameNeed(v, AfterCursor(p), AfterCursor(cursor), tail);
    DeliverConcat(v.projection, v.scope, AfterCursor(cursor), head, tail);
    DeliverConcat(v.projection, v.scope, AfterCursor(p), head, tail);
  }

  lemma {:induction false} SameNeed(v: Scoped, a: Need, b: Need, log: seq<Transaction>)
    requires forall i :: 0 <= i < |log| ==> (Needs(a, log[i]) <==> Needs(b, log[i]))
    ensures Deliver(v.projection, v.scope, a, log) == Deliver(v.projection, v.scope, b, log)
  {
    if log != [] { SameNeed(v, a, b, log[..|log| - 1]); }
  }

  // Resume convergence: a client that installed a snapshot, and then resumed any
  // number of times, each connection cut after any message, holds what was selected
  // at the snapshot watch's cursor with everything after it replayed: the whole
  // history, once its cursor has passed every covered transaction.
  lemma ChainConverges(first: Session, v: Scoped, snap: Snapshot, log: seq<Transaction>, sessions: seq<Session>,
                       rows: map<string, Row>)
    requires WatchOf(first.s, first.w, v, NotCovered(snap), log)
    requires Cut(log, first.s.programs[first.w], first.received, first.cursor)
    requires Chain(v, log, first.cursor, sessions)
    requires Keyed(v, log) && ConflictFree(v, snap, log)
    ensures var held := Held(first.cursor, sessions);
            var through := Progress.Through(log, held);
            && Keyed(v, Covered(snap, log)) && BatchesKeyed(v, Batches(first.received))
            && BatchesKeyed(v, Received(sessions)) && Keyed(v, Selected(snap, log, first.cursor))
            && Keyed(v, Needed(AfterCursor(first.cursor), through)) && Keyed(v, through)
            && var now := ClientRows(v, ClientRows(v, Fold(v, rows, Covered(snap, log)), Batches(first.received)),
                                     Received(sessions));
               && now == Replayed(v, rows, snap, log, first.cursor, held)
               && ((forall t :: t in log && Covers(snap, t) ==> t.cursor <= held) ==> now == Fold(v, rows, through))
  {
    hide WatchOf, Cut, Chain, KeyedPart, ConflictFree, Fold, ClientRows, Batches, Progress.Through, Selected, Covers,
         Covered, BatchesKeyed, CutsCleanly, Deliver, Needed, Received, Held;
    assert SourceOrdered(log) by { WatchOrdered(first.s, first.w, v, NotCovered(snap), log); }
    hide SourceOrdered;
    var c, held := first.cursor, Held(first.cursor, sessions);
    SnapshotConverges(first.s, first.w, v, snap, log, first.received, c, rows);
    SnapshotCutsCleanly(first.s, first.w, v, snap, log, first.received, c);
    ChainExact(v, log, c, sessions);
    SelectedKeyed(v, snap, log, held);
    ClientFolds(v, Fold(v, rows, Selected(snap, log, c)), AfterCursor(c), Progress.Through(log, held));
    if forall t :: t in log && Covers(snap, t) ==> t.cursor <= held { ReplayReaches(v, rows, snap, log, c, held); }
  }

  lemma WatchOrdered(s: System, w: WatcherId, v: Scoped, need: Need, log: seq<Transaction>)
    requires WatchOf(s, w, v, need, log)
    ensures SourceOrdered(log)
  {
  }

  lemma {:induction false} ClientRowsBoth(v: Scoped, rows: map<string, Row>, a: seq<Event>, b: seq<Event>)
    requires BatchesKeyed(v, a) && BatchesKeyed(v, b)
    ensures BatchesKeyed(v, a + b)
    ensures ClientRows(v, rows, a + b) == ClientRows(v, ClientRows(v, rows, a), b)
  {
    hide Store.AllApplicable, Wire, Store.ApplyAll;
    if b == [] {
      assert a + b == a;
    } else {
      var n := |b| - 1;
      ClientRowsBoth(v, rows, a, b[..n]);
      assert (a + b)[..|a + b| - 1] == a + b[..n];
    }
  }

  // One more resumed session takes the rows from its cursor to the next.
  lemma ReplayedOn(x: Session, v: Scoped, snap: Snapshot, log: seq<Transaction>, cursor: LSN, from: LSN,
                   rows: map<string, Row>)
    requires Resumed(x, v, from, log) && Keyed(v, log) && cursor <= from && (from == cursor || IsCommit(log, from))
    ensures Keyed(v, Selected(snap, log, cursor)) && BatchesKeyed(v, Batches(x.received))
    ensures Keyed(v, Needed(AfterCursor(cursor), Progress.Through(log, from)))
    ensures Keyed(v, Needed(AfterCursor(cursor), Progress.Through(log, x.cursor)))
    ensures ClientRows(v, Replayed(v, rows, snap, log, cursor, from), Batches(x.received)) ==
            Replayed(v, rows, snap, log, cursor, x.cursor)
  {
    assert SourceOrdered(log) by { WatchOrdered(x.s, x.w, v, AfterCursor(from), log); }
    hide Resumed, KeyedPart, Fold, ClientRows, Batches, Progress.Through, Selected, BatchesKeyed, Deliver, Needed,
         SourceOrdered;
    ResumedExact(x, v, from, log);
    SelectedKeyed(v, snap, log, cursor);
    SelectedKeyed(v, snap, log, from);
    SelectedKeyed(v, snap, log, x.cursor);
    var held := Fold(v, rows, Selected(snap, log, cursor));
    ClientFolds(v, held, AfterCursor(cursor), Progress.Through(log, from));
    ClientFolds(v, held, AfterCursor(cursor), Progress.Through(log, x.cursor));
    ClientFolds(v, held, AfterCursor(from), Progress.Through(log, x.cursor));
    DeliverContinues(v, log, cursor, from, x.cursor);
    ClientRowsBoth(v, held, Deliver(v.projection, v.scope, AfterCursor(cursor), Progress.Through(log, from)),
                   Batches(x.received));
  }
}
