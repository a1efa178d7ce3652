// A whole Sync (sdk/go/watchd/client.go): any number of streams, each a resume from
// the stored cursor or a new snapshot, each cut anywhere or ended by a Resync.
module SyncRuns {
  import opened Cdc
  import opened HubSpec
  import opened Visibility
  import opened Watch
  import opened WatchInvariant
  import opened Convergence
  import opened Protocol
  import opened Sessions
  import opened EndToEnd
  import opened Sequences
  import Client
  import Progress
  import Store

  // One stream, by how far the client got: a resume, cut after any event; a snapshot
  // cut after a Batch or a Progress, right after SnapshotEnd, or before it.
  datatype Attempt =
    | Resumption(x: Session)
    | Snapshotted(x: Session, snap: Snapshot, scope: seq<Row>)
    | Installed(x: Session)
    | Abandoned(x: Session)

  // What the client's store stands for: nothing it could resume from, or what a
  // snapshot watch's cursor selected with everything after it replayed through `held`.
  datatype Holding = Nothing | Holding(snap: Snapshot, cut: LSN, held: LSN)

  // The history, and how the server writes cursors.
  datatype Source = Source(v: Scoped, log: seq<Transaction>, rows: map<string, Row>, text: LSN -> string)

  ghost predicate Sane(c: Source) {
    SourceOrdered(c.log) && Keyed(c.v, c.log)
  }

  ghost predicate Holds(c: Source, client: Client.State, h: Holding)
    requires Sane(c)
  {
    && client.writer.None?
    && match h
       case Nothing => client.cursor == ""
       case Holding(snap, cut, held) =>
         && ConflictFree(c.v, snap, c.log) && CutsCleanly(c.v, snap, c.log, cut)
         && cut <= held && (held == cut || IsCommit(c.log, held))
         && Keyed(c.v, Selected(snap, c.log, cut))
         && Keyed(c.v, Needed(AfterCursor(cut), Progress.Through(c.log, held)))
         && client.cursor == c.text(held) && client.rows == Replayed(c.v, c.rows, snap, c.log, cut, held)
  }

  ghost predicate Unfinished(received: seq<Event>) {
    HubMode(received) == Some(Unopened) || HubMode(received) == Some(InSnapshot)
  }

  // A stream the client can have had, given what it held. Without a cursor it can only
  // have asked for a snapshot.
  ghost predicate Possible(c: Source, h: Holding, a: Attempt)
    requires Sane(c)
  {
    match a
    case Resumption(x) => h.Holding? && Resumed(x, c.v, h.held, c.log)
    case Snapshotted(x, snap, scope) =>
      && WatchOf(x.s, x.w, c.v, NotCovered(snap), c.log) && Cut(c.log, x.s.programs[x.w], x.received, x.cursor)
      && ConflictFree(c.v, snap, c.log) && Keyed(c.v, Covered(snap, c.log))
      && ScopeRead(c.v, x.received, scope, Fold(c.v, c.rows, Covered(snap, c.log)))
    case Installed(x) =>
      && Reachable(x.s) && x.w in x.s.programs && x.received <= x.s.programs[x.w].sent
      && x.received != [] && x.received[|x.received| - 1].SnapshotEnd?
      && Store.AllKeyed(c.v.primaryKey, Concat(PagesOf(x.received)))
    case Abandoned(x) =>
      && Reachable(x.s) && x.w in x.s.programs && x.received <= x.s.programs[x.w].sent && Unfinished(x.received)
  }

  // The stream's messages. A snapshot may also be cut inside the messages of a page,
  // and any stream may end with a Resync.
  ghost predicate OnWire(c: Source, a: Attempt, messages: seq<Client.Event>) {
    exists parts :: EncodesAll(c.text, a.x.received, parts) && Receives(a, Concat(parts), messages)
  }

  ghost predicate Receives(a: Attempt, all: seq<Client.Event>, messages: seq<Client.Event>) {
    messages == all || messages == all + [Client.Resync] || (a.Abandoned? && messages <= all)
  }

  function After(h: Holding, a: Attempt): Holding {
    match a
    case Resumption(x) => if h.Holding? then h.(held := x.cursor) else Nothing
    case Snapshotted(x, snap, _) => Holding(snap, x.cursor, x.cursor)
    case Installed(_) => Nothing
    case Abandoned(_) => h
  }

  function AfterAll(h: Holding, run: seq<Attempt>): Holding {
    if run == [] then h else After(AfterAll(h, run[..|run| - 1]), run[|run| - 1])
  }

  ghost predicate SyncRun(c: Source, h: Holding, run: seq<Attempt>)
    requires Sane(c)
  {
    run == [] ||
    (var n := |run| - 1;
     SyncRun(c, h, run[..n]) && Possible(c, AfterAll(h, run[..n]), run[n]))
  }

  // What a stream leaves in the store

  // A Resync after a stream changes nothing in the store.
  lemma ResyncLeaves(primaryKey: seq<string>, client: Client.State, messages: seq<Client.Event>)
    ensures var was := Streamed(primaryKey, client, messages);
            var now := Streamed(primaryKey, client, messages + [Client.Resync]);
            now.rows == was.rows && now.cursor == was.cursor && now.writer.None?
  {
    hide Client.HandledAll;
    LastHandled(primaryKey, client.(progressed := false), messages, Client.Resync);
  }

  lemma LastHandled(primaryKey: seq<string>, s: Client.State, messages: seq<Client.Event>, e: Client.Event)
    ensures Client.HandledAll(primaryKey, s, messages + [e]) ==
            (var (before, end) := Client.HandledAll(primaryKey, s, messages);
             if end.Some? then (before, end) else Client.Handled(primaryKey, before, e))
  {
    assert (messages + [e])[..|messages|] == messages;
  }

  // Until SnapshotEnd, nothing in the store changes, even if a row is refused.
  lemma {:induction false} UnfinishedHidden(primaryKey: seq<string>, s: Client.State, messages: seq<Client.Event>)
    requires ClientMode(messages) == Some(Unopened) || ClientMode(messages) == Some(InSnapshot)
    ensures var now := Client.HandledAll(primaryKey, s, messages).0;
            now.rows == s.rows && now.cursor == s.cursor
  {
    if messages != [] {
      var n := |messages| - 1;
      UnfinishedHidden(primaryKey, s, messages[..n]);
      HiddenStep(primaryKey, Client.HandledAll(primaryKey, s, messages[..n]).0, messages[n]);
      hide Client.Handled;
    }
  }

  lemma HiddenStep(primaryKey: seq<string>, s: Client.State, e: Client.Event)
    requires e.SnapshotBegin? || e.SnapshotRows?
    ensures var now := Client.Handled(primaryKey, s, e).0;
            now.rows == s.rows && now.cursor == s.cursor
  {
    hide Store.PutAll, Store.AllKeyed;
  }

  lemma {:induction false} UnfinishedPrefix(head: seq<Client.Event>, messages: seq<Client.Event>)
    requires head <= messages
    requires ClientMode(messages) == Some(Unopened) || ClientMode(messages) == Some(InSnapshot)
    ensures ClientMode(head) == Some(Unopened) || ClientMode(head) == Some(InSnapshot)
  {
    if |head| < |messages| {
      UnfinishedPrefix(head, messages[..|messages| - 1]);
    } else {
      assert head == messages;
    }
  }

  lemma AbandonedLeaves(c: Source, x: Session, messages: seq<Client.Event>, parts: seq<seq<Client.Event>>,
                        client: Client.State)
    requires Unfinished(x.received) && EncodesAll(c.text, x.received, parts) && messages <= Concat(parts)
    ensures var now := Streamed(c.v.primaryKey, client, messages);
            now.rows == client.rows && now.cursor == client.cursor && now.writer.None?
  {
    hide EncodesAll, Concat, HubMode, ClientMode, Client.HandledAll;
    Carried(c.text, x.received, parts);
    CarriedMode(x.received, parts);
    UnfinishedPrefix(messages, Concat(parts));
    UnfinishedHidden(c.v.primaryKey, client.(progressed := false), messages);
  }

  // Right after SnapshotEnd the store holds the snapshot's rows and no cursor.
  lemma InstalledLeaves(c: Source, received: seq<Event>, parts: seq<seq<Client.Event>>, client: Client.State)
    requires HubMode(received).Some? && received != [] && received[|received| - 1].SnapshotEnd?
    requires Store.AllKeyed(c.v.primaryKey, Concat(PagesOf(received)))
    requires EncodesAll(c.text, received, parts) && client.writer.None?
    ensures var now := Streamed(c.v.primaryKey, client, Concat(parts));
            now.cursor == "" && now.writer.None?
  {
    var n := |received| - 1;
    var head := received[..n];
    assert Encodes(c.text, received[n], parts[n]) && parts[n] == [Client.SnapshotEnd];
    assert EncodesAll(c.text, head, parts[..n]);
    assert HubMode(head) == Some(InSnapshot) && PagesOf(received) == PagesOf(head);
    assert Concat(parts) == Concat(parts[..n]) + [Client.SnapshotEnd];
    hide EncodesAll, HubMode, PagesOf, Client.HandledAll, Store.AllKeyed, Concat;
    SnapshotUnderWay(c, head, parts[..n], client.(progressed := false));
    LastHandled(c.v.primaryKey, client.(progressed := false), Concat(parts[..n]), Client.SnapshotEnd);
  }

  lemma SnapshotUnderWay(c: Source, head: seq<Event>, parts: seq<seq<Client.Event>>, client: Client.State)
    requires EncodesAll(c.text, head, parts) && HubMode(head) == Some(InSnapshot) && client.writer.None?
    requires Store.AllKeyed(c.v.primaryKey, Concat(PagesOf(head)))
    ensures var (now, end) := Client.HandledAll(c.v.primaryKey, client, Concat(parts));
            end.None? && now.writer.Some?
  {
    EncodedRows(c.text, head, parts);
    Carried(c.text, head, parts);
    CarriedMode(head, parts);
    InSnapshotUnbatched(Concat(parts));
    hide HubMode, ClientMode, Store.AllKeyed, EncodesAll, Concat, PagesOf, Client.HandledAll, Client.RowsOf;
    ClientTracks(c.v.primaryKey, client, Concat(parts));
  }

  // Each stream keeps the store and what it stands for together

  lemma SnapshottedHolds(c: Source, h: Holding, a: Attempt, parts: seq<seq<Client.Event>>, client: Client.State)
    requires Sane(c) && a.Snapshotted? && Possible(c, h, a) && EncodesAll(c.text, a.x.received, parts)
    requires client.writer.None?
    ensures Holds(c, Streamed(c.v.primaryKey, client, Concat(parts)), After(h, a))
  {
    hide SourceOrdered, KeyedPart, ConflictFree, CutsCleanly, WatchOf, Cut, ScopeRead, EncodesAll, Covered, Selected,
         Fold, Needed, Progress.Through, IsCommit, Concat, Client.HandledAll;
    FreshFromSnapshot(a.x, c.v, a.snap, c.log, a.scope, c.rows, c.text, parts, client.(progressed := false));
    SnapshotCutsCleanly(a.x.s, a.x.w, c.v, a.snap, c.log, a.x.received, a.x.cursor);
    NothingReplayed(c.v, c.rows, a.snap, c.log, a.x.cursor);
    hide Replayed;
  }

  lemma ResumptionHolds(c: Source, h: Holding, a: Attempt, parts: seq<seq<Client.Event>>, client: Client.State)
    requires Sane(c) && a.Resumption? && Possible(c, h, a) && EncodesAll(c.text, a.x.received, parts)
    requires Holds(c, client, h)
    ensures Holds(c, Streamed(c.v.primaryKey, client, Concat(parts)), After(h, a))
  {
    hide SourceOrdered, KeyedPart, ConflictFree, CutsCleanly, Resumed, EncodesAll, Selected, Needed, Progress.Through,
         Concat, Streamed, Replayed;
    assert Encoded(c.text, a.x.received, Concat(parts));
    hide Encoded;
    StreamShown(a.x, c.v, h.snap, c.log, h.cut, h.held, c.rows, c.text, Concat(parts), client);
    ResumedExact(a.x, c.v, h.held, c.log);
    CommitAfter(c.log, h.cut, h.held, a.x.cursor);
  }

  lemma CommitAfter(log: seq<Transaction>, cut: LSN, held: LSN, cursor: LSN)
    requires cut <= held <= cursor && (held == cut || IsCommit(log, held)) && (cursor == held || IsCommit(log, cursor))
    ensures cut <= cursor && (cursor == cut || IsCommit(log, cursor))
  {
  }

  lemma WholeHolds(c: Source, h: Holding, a: Attempt, parts: seq<seq<Client.Event>>, client: Client.State)
    requires Sane(c) && Possible(c, h, a) && EncodesAll(c.text, a.x.received, parts) && Holds(c, client, h)
    ensures Holds(c, Streamed(c.v.primaryKey, client, Concat(parts)), After(h, a))
  {
    match a {
      case Resumption(_) => ResumptionHolds(c, h, a, parts, client);
      case Snapshotted(_, _, _) => SnapshottedHolds(c, h, a, parts, client);
      case Installed(x) =>
        WatchFollowsGrammar(x.s, x.w);
        ModePrefix(x.received, x.s.programs[x.w].sent);
        hide Reachable, HubMode, Client.HandledAll, Store.AllKeyed, Concat, PagesOf, EncodesAll;
        InstalledLeaves(c, x.received, parts, client);
      case Abandoned(x) =>
        hide Reachable, Concat, EncodesAll, Unfinished, Streamed;
        AbandonedLeaves(c, x, Concat(parts), parts, client);
    }
  }

  lemma AttemptHolds(c: Source, h: Holding, a: Attempt, messages: seq<Client.Event>, client: Client.State)
    requires Sane(c) && Possible(c, h, a) && OnWire(c, a, messages) && Holds(c, client, h)
    ensures Holds(c, Streamed(c.v.primaryKey, client, messages), After(h, a))
  {
    var parts :| EncodesAll(c.text, a.x.received, parts) && Receives(a, Concat(parts), messages);
    hide Sane, EncodesAll, Concat, Streamed, OnWire;
    WholeHolds(c, h, a, parts, client);
    ResyncLeaves(c.v.primaryKey, client, Concat(parts));
    if a.Abandoned? && messages <= Concat(parts) {
      AbandonedLeaves(c, a.x, messages, parts, client);
    }
    hide Possible;
  }

  // Over any run of streams, whatever the client asked for and wherever each ended, the
  // store's rows and cursor go together.
  lemma {:induction false} SyncHolds(c: Source, h: Holding, run: seq<Attempt>, streams: seq<seq<Client.Event>>,
                                     client: Client.State)
    requires Sane(c) && Holds(c, client, h) && SyncRun(c, h, run) && |streams| == |run|
    requires forall i :: 0 <= i < |run| ==> OnWire(c, run[i], streams[i])
    ensures Holds(c, StreamedAll(c.v.primaryKey, client, streams), AfterAll(h, run))
  {
    hide Sane, Holds, Possible, OnWire, Streamed, After;
    if run != [] {
      var n := |run| - 1;
      SyncHolds(c, h, run[..n], streams[..n], client);
      AttemptHolds(c, AfterAll(h, run[..n]), run[n], streams[n], StreamedAll(c.v.primaryKey, client, streams[..n]));
    }
  }

  // A whole Sync. If the store has a cursor, its rows are the source's whole history
  // through it, once it has passed every transaction the last snapshot covers.
  lemma SyncShows(c: Source, h: Holding, run: seq<Attempt>, streams: seq<seq<Client.Event>>, client: Client.State)
    requires Sane(c) && Holds(c, client, h) && SyncRun(c, h, run) && |streams| == |run|
    requires forall i :: 0 <= i < |run| ==> OnWire(c, run[i], streams[i])
    ensures var now, last := StreamedAll(c.v.primaryKey, client, streams), AfterAll(h, run);
            match last
            case Nothing => now.cursor == ""
            case Holding(snap, cut, held) =>
              && Keyed(c.v, Progress.Through(c.log, held)) && now.cursor == c.text(held)
              && ((forall t :: t in c.log && Covers(snap, t) ==> t.cursor <= held) ==>
                    now.rows == Fold(c.v, c.rows, Progress.Through(c.log, held)))
  {
    SyncHolds(c, h, run, streams, client);
    var now, last := StreamedAll(c.v.primaryKey, client, streams), AfterAll(h, run);
    hide SyncRun, OnWire, StreamedAll, AfterAll, KeyedPart, ConflictFree, CutsCleanly, Covers, Fold, Replayed, Selected,
         Needed, Progress.Through, SourceOrdered, IsCommit;
    if last.Holding? {
      SelectedKeyed(c.v, last.snap, c.log, last.held);
      if forall t :: t in c.log && Covers(last.snap, t) ==> t.cursor <= last.held {
        ReplayReaches(c.v, c.rows, last.snap, c.log, last.cut, last.held);
      }
    }
  }
}
