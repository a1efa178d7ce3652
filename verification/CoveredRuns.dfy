// Runs in which a snapshot covers transactions the hub has not accepted yet
// (internal/watch/hub.go, sdk/go/watchd/client.go, sdk/go/watchd/store.go): what a
// client then shows when it is told it is fresh.
module CoveredRuns {
  import opened Cdc
  import opened Sequences
  import opened HubSpec
  import opened HubInvariant
  import opened Visibility
  import opened Watch
  import opened WatchInvariant
  import opened Witness
  import opened Convergence
  import opened Sessions
  import opened Store
  import Client
  import EndToEnd
  import Progress
  import SyncRuns

  const KEY := ["s", "id"]
  const VIEW := Scoped(KEY, Projection("t", "s"), "a")
  const COLUMNS := ["s", "id", "v"]

  function Put(operation: Operation, id: string, value: string): Change {
    Change(operation, "t", map["s" := "a", "id" := id], COLUMNS, [Text("a"), Text(id), Text(value)])
  }

  // A snapshot reads its cursor first. Then r is inserted, r is updated and q
  // inserted, and only then its view of the table is fixed.
  const FROM: LSN := 10
  const T1 := Transaction(12, 11, 700, [Put(Insert, "r", "1")], [])
  const T2 := Transaction(14, 13, 701, [Put(Update, "r", "2"), Put(Insert, "q", "2")], [])
  const HISTORY := [T1, T2]

  // The rows

  function RowOf(id: string, value: string): Row {
    map["s" := Text("a"), "id" := Text(id), "v" := Text(value)]
  }

  function Id(id: string): string {
    Joined(["a", id], NUL)
  }

  // The snapshot covers both transactions, and reads q and r as the second left them.
  const PAGE := [RowOf("q", "2"), RowOf("r", "2")]
  const SEEN := Scan(Snapshot(FROM, Some(Visibility(702, 702, {}))), [SnapshotBegin, SnapshotRows(PAGE)])

  function Shows(r: string): map<string, Row> {
    map[Id("r") := RowOf("r", r), Id("q") := RowOf("q", "2")]
  }

  lemma IdsDiffer()
    ensures Id("q") != Id("r")
  {
    assert ["a", "q"][1..] == ["q"] && ["a", "r"][1..] == ["r"];
    assert Id("q") == "a" + [NUL] + "q" && Id("r") == "a" + [NUL] + "r";
    assert Id("q")[2] == 'q' && Id("r")[2] == 'r';
  }

  function Wired(operation: SdkOperation, id: string, values: Row): RowChange {
    RowChange(operation, map["s" := "a", "id" := id], values)
  }

  lemma Rowed(id: string)
    ensures HasKey(KEY, map["s" := "a", "id" := id]) && RowId(KEY, map["s" := "a", "id" := id]) == Id(id)
  {
    var key := map["s" := "a", "id" := id];
    assert KeyParts(KEY, key) == ["a", id];
  }

  lemma WiredRow(id: string, value: string)
    ensures WireRow(COLUMNS, [Text("a"), Text(id), Text(value)]) == RowOf(id, value)
  {
    var values := [Text("a"), Text(id), Text(value)];
    assert values[..2] == [Text("a"), Text(id)] && values[..2][..1] == [Text("a")] && [Text("a")][..0] == [];
    assert WireRow(COLUMNS, [Text("a")]) == map["s" := Text("a")];
    assert WireRow(COLUMNS, values[..2]) == map["s" := Text("a"), "id" := Text(id)];
  }

  lemma {:induction false} ChangesAll(p: Projection, scope: string, cs: seq<Change>)
    requires forall i :: 0 <= i < |cs| ==> Matches(p, scope, cs[i])
    ensures Changes(p, scope, cs) == cs
  {
    hide Matches;
    if cs != [] {
      ChangesAll(p, scope, cs[..|cs| - 1]);
      assert cs[..|cs| - 1] + [cs[|cs| - 1]] == cs;
    }
  }

  lemma Parts()
    ensures Changes(VIEW.projection, VIEW.scope, T1.changes) == T1.changes
    ensures Changes(VIEW.projection, VIEW.scope, T2.changes) == T2.changes
    ensures Part(VIEW, T1) == [Wired(SdkInsert, "r", RowOf("r", "1"))]
    ensures Part(VIEW, T2) == [Wired(SdkUpdate, "r", RowOf("r", "2")), Wired(SdkInsert, "q", RowOf("q", "2"))]
  {
    ChangesAll(VIEW.projection, VIEW.scope, T1.changes);
    ChangesAll(VIEW.projection, VIEW.scope, T2.changes);
    hide Changes;
    WiredRow("r", "1");
    WiredRow("r", "2");
    WiredRow("q", "2");
    hide WireRow, RowOf;
  }

  lemma AllKeyed(log: seq<Transaction>)
    requires forall i :: 0 <= i < |log| ==> log[i] == T1 || log[i] == T2
    ensures Keyed(VIEW, log)
  {
    Parts();
    Rowed("r");
    Rowed("q");
    hide Part;
  }

  // An insert or update of whole values sets the row.
  lemma PutOne(rows: map<string, Row>, c: RowChange, id: string, values: Row)
    requires c == Wired(SdkInsert, id, values) || c == Wired(SdkUpdate, id, values)
    requires forall column :: column in values ==> !values[column].Unchanged?
    ensures Applicable(KEY, c) && ApplyOne(KEY, rows, c) == rows[Id(id) := values]
  {
    Rowed(id);
    hide Id;
    assert Upserted(CurrentRow(rows, Id(id)), values) == values;
  }

  lemma AfterFirst(rows: map<string, Row>)
    ensures Keyed(VIEW, [T1]) && Fold(VIEW, rows, [T1]) == rows[Id("r") := RowOf("r", "1")]
  {
    hide Id;
    Parts();
    AllKeyed([T1]);
    var cs := Part(VIEW, T1);
    assert [T1][..0] == [] && cs[..0] == [];
    PutOne(rows, cs[0], "r", RowOf("r", "1"));
    hide Part, ApplyOne, Applicable, RowOf;
    assert ApplyAll(KEY, rows, cs) == ApplyOne(KEY, rows, cs[0]);
  }

  lemma SecondApplied(rows: map<string, Row>)
    ensures AllApplicable(KEY, Part(VIEW, T2))
    ensures ApplyAll(KEY, rows, Part(VIEW, T2)) == rows[Id("r") := RowOf("r", "2")][Id("q") := RowOf("q", "2")]
  {
    hide Id;
    Parts();
    var cs, r2 := Part(VIEW, T2), rows[Id("r") := RowOf("r", "2")];
    hide Part;
    assert cs[..1] == [cs[0]] && cs[..1][..0] == [];
    PutOne(rows, cs[0], "r", RowOf("r", "2"));
    PutOne(r2, cs[1], "q", RowOf("q", "2"));
    hide ApplyOne, Applicable, RowOf;
    assert ApplyAll(KEY, rows, cs[..1]) == r2;
  }

  lemma AfterBoth(rows: map<string, Row>)
    ensures Keyed(VIEW, HISTORY)
    ensures Fold(VIEW, rows, HISTORY) == rows[Id("r") := RowOf("r", "2")][Id("q") := RowOf("q", "2")]
  {
    hide Id, RowOf, Part, KeyedPart, ApplyAll, Fold, AllApplicable;
    AllKeyed(HISTORY);
    AfterFirst(rows);
    var first := rows[Id("r") := RowOf("r", "1")];
    SecondApplied(first);
    assert KeyedPart(VIEW, T2) by { assert HISTORY[1] == T2; }
    FoldOne(VIEW, rows, [T1], T2);
    assert [T1] + [T2] == HISTORY;
    assert first[Id("r") := RowOf("r", "2")] == rows[Id("r") := RowOf("r", "2")];
  }

  // The snapshot covers both, so the order in which they count does not matter.
  lemma BothCovered()
    ensures Covers(SEEN.snapshot, T1) && Covers(SEEN.snapshot, T2)
    ensures SourceOrdered(HISTORY) && Keyed(VIEW, HISTORY) && ConflictFree(VIEW, SEEN.snapshot, HISTORY)
  {
    AllKeyed(HISTORY);
    hide Touches;
  }

  lemma ThroughFirst()
    ensures Progress.Through(HISTORY, FROM) == [] && Progress.Through(HISTORY, T1.cursor) == [T1]
  {
    assert HISTORY[..1] == [T1] && [T1][..0] == [];
    assert Progress.Through([T1], FROM) == [];
  }

  lemma {:induction false} AllCovered(snap: Snapshot, log: seq<Transaction>)
    requires forall i :: 0 <= i < |log| ==> Covers(snap, log[i])
    ensures Covered(snap, log) == log
  {
    hide Covers;
    if log != [] {
      var n := |log| - 1;
      AllCovered(snap, log[..n]);
      assert log[..n] + [log[n]] == log;
    }
  }

  lemma SelectedBoth(cursor: LSN)
    ensures Selected(SEEN.snapshot, HISTORY, cursor) == HISTORY == Covered(SEEN.snapshot, HISTORY)
  {
    BothCovered();
    hide Covers, Progress.Through, ConflictFree, KeyedPart, Covered;
    var n := |Progress.Through(HISTORY, cursor)|;
    AllCovered(SEEN.snapshot, HISTORY);
    AllCovered(SEEN.snapshot, HISTORY[n..]);
    assert HISTORY[..n] + HISTORY[n..] == HISTORY;
  }

  // The page the snapshot read is what the covered transactions left.
  lemma PageIsCovered()
    ensures Store.AllKeyed(KEY, PAGE) && PutAll(KEY, map[], PAGE) == Shows("2")
    ensures Keyed(VIEW, Covered(SEEN.snapshot, HISTORY))
    ensures Fold(VIEW, map[], Covered(SEEN.snapshot, HISTORY)) == Shows("2")
  {
    IdsDiffer();
    AfterBoth(map[]);
    SelectedBoth(FROM);
    hide Covered, Fold, Id, KeyedPart;
    KeyOfPage("q");
    KeyOfPage("r");
    hide KeyOfRow, RowId;
    assert PAGE[..1] == [PAGE[0]] && PAGE[..1][..0] == [];
    assert PutAll(KEY, map[], PAGE[..1]) == map[Id("q") := RowOf("q", "2")];
  }

  lemma KeyOfPage(id: string)
    ensures KeyedRow(KEY, RowOf(id, "2")) && RowId(KEY, KeyOfRow(KEY, RowOf(id, "2"))) == Id(id)
  {
    Rowed(id);
    hide Id;
    assert KeyOfRow(KEY, RowOf(id, "2")) == map["s" := "a", "id" := id];
  }

  // Fresh, but not the history through the reported position

  const RECEIVED := [SnapshotBegin, SnapshotRows(PAGE), SnapshotEnd, Watch.Progress(FROM)]

  // The snapshot's watcher, about to report its snapshot's position.
  lemma SnapshotReporting() returns (s: System)
    ensures WatchOf(s, 0, VIEW, NotCovered(SEEN.snapshot), HISTORY) && Cut(HISTORY, s.programs[0], RECEIVED, FROM)
  {
    var p, scope := VIEW.projection, VIEW.scope;
    var steps := UpToReporting(p, scope, SEEN);
    s := Idle(FirstSample(p, scope, SEEN).(place := Reporting), true);
    assert Reachable(s);
    assert s.programs[0].sent + [Watch.Progress(FROM)] == RECEIVED;
    BothCovered();
    hide Reachable, KeyedPart, ConflictFree, Covers, Relevant;
  }

  // The stream as the wire carries it, a message to an event.
  function Opening(text: LSN -> string): seq<seq<Client.Event>> {
    [[Client.SnapshotBegin], [Client.SnapshotRows(PAGE)], [Client.SnapshotEnd], [Client.Progress(text(FROM))]]
  }

  lemma OpeningEncodes(text: LSN -> string)
    ensures EndToEnd.EncodesAll(text, RECEIVED, Opening(text))
  {
    var part := Opening(text)[1];
    assert part[..0] == [] && Client.RowsOf(part) == PAGE;
    hide RowOf;
  }

  lemma {:induction false} PagesOneMore(sent: seq<Event>, e: Event)
    ensures EndToEnd.PagesOf(sent + [e]) == EndToEnd.PagesOf(sent) + if e.SnapshotRows? then [e.rows] else []
  {
    assert (sent + [e])[..|sent|] == sent;
  }

  lemma PageIsRead()
    ensures EndToEnd.ScopeRead(VIEW, RECEIVED, PAGE, Shows("2"))
  {
    PageIsCovered();
    hide PutAll, Store.AllKeyed, Shows, RowOf;
    PagesOneMore([], SnapshotBegin);
    PagesOneMore([] + [SnapshotBegin], SnapshotRows(PAGE));
    PagesOneMore([] + [SnapshotBegin] + [SnapshotRows(PAGE)], SnapshotEnd);
    PagesOneMore([] + [SnapshotBegin] + [SnapshotRows(PAGE)] + [SnapshotEnd], Watch.Progress(FROM));
    assert [] + [SnapshotBegin] + [SnapshotRows(PAGE)] + [SnapshotEnd] + [Watch.Progress(FROM)] == RECEIVED;
    assert EndToEnd.PagesOf(RECEIVED) == [PAGE];
    assert Concat([PAGE]) == PAGE by { assert [PAGE][..0] == []; }
  }

  // A run of a hub that has accepted nothing, its stream, and any client that takes it
  // in: the client is told it is fresh at the snapshot's cursor and shows r and q,
  // while the history through that cursor is empty.
  lemma FreshBeyondPosition(text: LSN -> string, client: Client.State) returns (s: System)
    requires client.writer.None?
    ensures WatchOf(s, 0, VIEW, NotCovered(SEEN.snapshot), HISTORY) && Cut(HISTORY, s.programs[0], RECEIVED, FROM)
    ensures EndToEnd.EncodesAll(text, RECEIVED, Opening(text))
    ensures var (now, end) := Client.HandledAll(KEY, client, Concat(Opening(text)));
            && end.None? && now.rows == Shows("2") && now.cursor == text(FROM)
            && now.status == Client.Status(true, text(FROM))
    ensures Keyed(VIEW, Progress.Through(HISTORY, FROM)) && Fold(VIEW, map[], Progress.Through(HISTORY, FROM)) == map[]
  {
    s := SnapshotReporting();
    hide WatchOf, Cut, EndToEnd.EncodesAll, EndToEnd.ScopeRead, Client.HandledAll, Concat, KeyedPart, ConflictFree,
         Covers, ApplyAll, Selected, Covered, Progress.Through, Shows;
    BothCovered();
    OpeningEncodes(text);
    PageIsRead();
    PageIsCovered();
    SelectedBoth(FROM);
    ThroughFirst();
    EndToEnd.FreshFromSnapshot(Session(s, 0, RECEIVED, FROM), VIEW, SEEN.snapshot, HISTORY, PAGE, map[], text,
                               Opening(text), client);
  }

  // A resumed watch whose position has not passed what its client holds

  // The hub has accepted only T1, and watcher 1 is resuming.
  ghost predicate Resuming(s: System, pr: Program) {
    && s.hub.accepted == [T1] && s.hub.received == Some(T1.cursor)
    && 1 in s.hub.watchers && 1 in s.hub.info && s.hub.info[1].queue == []
    && 1 in s.programs && s.programs[1] == pr
  }

  lemma Advance(steps: seq<Step>, s: System, pr: Program, a: Action, pr': Program)
    requires Leads(Initial(1, 1), steps, s) && Resuming(s, pr) && !pr.place.Returning?
    requires CanAct(s, 1, a) && ActOnProgram(s, 1, a) == pr'
    ensures Leads(Initial(1, 1), steps + [Act(1, a)], Next(s, Act(1, a))) && Resuming(Next(s, Act(1, a)), pr')
  {
    Extend(Initial(1, 1), steps, s, Act(1, a), Next(s, Act(1, a)));
    hide Leads;
  }

  // T1 has been accepted while the snapshot's watcher waits.
  ghost predicate Accepted1(s: System) {
    && s.hub.accepted == [T1] && s.hub.ring == [T1] && s.hub.received == Some(T1.cursor) && s.hub.floor == Some(FROM)
    && s.hub.stale == {} && 1 !in s.hub.info && 1 !in s.programs
  }

  lemma FirstAccepted()
    ensures var s := Idle(Live(VIEW.projection, VIEW.scope, SEEN), true);
            Enabled(s, AcceptStep(T1)) && Accepted1(Next(s, AcceptStep(T1)))
  {
    var s := Idle(Live(VIEW.projection, VIEW.scope, SEEN), true);
    assert [] + [T1] == [T1];
    hide Offered, Overflows;
  }

  lemma UpToFirst() returns (steps: seq<Step>, s: System)
    ensures Leads(Initial(1, 1), steps, s) && Accepted1(s)
  {
    hide Leads, Accepted1, Next, Enabled;
    var s0 := Idle(Live(VIEW.projection, VIEW.scope, SEEN), true);
    steps := UpToLive(VIEW.projection, VIEW.scope, SEEN);
    FirstAccepted();
    s := Next(s0, AcceptStep(T1));
    Extend(Initial(1, 1), steps, s0, AcceptStep(T1), s);
    steps := steps + [AcceptStep(T1)];
  }

  function Resumer(place: Place, sent: seq<Event>): Program {
    Program(VIEW.projection, VIEW.scope, true, place, Some(Start(FROM, true, AfterCursor(FROM))), true, 0, sent,
            Past(1, [T1], 1, []), Sample(0, 0, 0, false, 0))
  }

  const BATCH := Batch(T1.cursor, T1.changes)

  lemma FirstOwed()
    ensures Owed(VIEW.projection, VIEW.scope, Start(FROM, true, AfterCursor(FROM)), Past(1, [T1], 1, [])) == [BATCH]
  {
    Parts();
    var p, scope, need := VIEW.projection, VIEW.scope, AfterCursor(FROM);
    assert [T1][..0] == [];
    assert Deliver(p, scope, need, [T1]) == Deliver(p, scope, need, []) + [BatchOf(p, scope, T1)];
  }

  lemma UpToResuming() returns (steps: seq<Step>, s: System)
    ensures Leads(Initial(1, 1), steps, s) && Resuming(s, Resumer(SendingOwed([BATCH]), []))
  {
    hide Leads, Owed;
    var s0: System;
    steps, s0 := UpToFirst();
    FirstOwed();
    var enter := Enter(1, VIEW.projection, VIEW.scope, Some(FROM), false, true);
    s := Next(s0, enter);
    Extend(Initial(1, 1), steps, s0, enter, s);
    steps := steps + [enter];
  }

  lemma UpToResumed() returns (steps: seq<Step>, s: System)
    ensures Leads(Initial(1, 1), steps, s)
    ensures 1 in s.programs && Resuming(s, Resumer(Reporting, [BATCH]).(sample := s.programs[1].sample))
    ensures s.programs[1].sample.position == T1.cursor && s.programs[1].sample.registered
  {
    hide Leads;
    steps, s := UpToResuming();
    assert [] + [BATCH] == [BATCH] && [BATCH][1..] == [];
    Advance(steps, s, Resumer(SendingOwed([BATCH]), []), Go(true), Resumer(SendingOwed([]), [BATCH]));
    steps, s := steps + [Act(1, Go(true))], Next(s, Act(1, Go(true)));
    Advance(steps, s, Resumer(SendingOwed([]), [BATCH]), Go(true), Resumer(Sampling, [BATCH]));
    steps, s := steps + [Act(1, Go(true))], Next(s, Act(1, Go(true)));
    var sampled := Resumer(Draining, [BATCH]).(sample := Sample(T1.cursor, s.hub.tick, 1, true, 0));
    Advance(steps, s, Resumer(Sampling, [BATCH]), Go(true), sampled);
    steps, s := steps + [Act(1, Go(true))], Next(s, Act(1, Go(true)));
    Advance(steps, s, sampled, Drained, FoundEmpty(sampled));
    steps, s := steps + [Act(1, Drained)], Next(s, Act(1, Drained));
  }

  lemma ResumedReporting() returns (x: Session)
    ensures Resumed(x, VIEW, FROM, HISTORY) && x.cursor == T1.cursor
    ensures x.received == [BATCH, Watch.Progress(T1.cursor)]
  {
    var steps, s := UpToResumed();
    assert Reachable(s);
    BothCovered();
    hide Leads, Reachable, KeyedPart, ConflictFree, Covers;
    x := Session(s, 1, s.programs[1].sent + [Watch.Progress(T1.cursor)], T1.cursor);
    ResumedIs(x, VIEW, FROM, HISTORY);
  }

  // Its rows: the snapshot's, with T1 replayed over them.
  lemma Mixture()
    ensures Keyed(VIEW, Selected(SEEN.snapshot, HISTORY, FROM))
    ensures Keyed(VIEW, Selected(SEEN.snapshot, HISTORY, T1.cursor))
    ensures Keyed(VIEW, Progress.Through(HISTORY, T1.cursor))
    ensures Keyed(VIEW, Needed(AfterCursor(FROM), Progress.Through(HISTORY, T1.cursor)))
    ensures Replayed(VIEW, map[], SEEN.snapshot, HISTORY, FROM, T1.cursor) == Shows("1")
    ensures Fold(VIEW, map[], Progress.Through(HISTORY, T1.cursor)) == map[Id("r") := RowOf("r", "1")]
    ensures Fold(VIEW, map[], Selected(SEEN.snapshot, HISTORY, T1.cursor)) == Shows("2")
  {
    hide Selected, Progress.Through, KeyedPart, Covers, Fold, Needed, Covered, PutAll, Shows, Id, RowOf;
    SelectedBoth(FROM);
    SelectedBoth(T1.cursor);
    ThroughFirst();
    PageIsCovered();
    AfterFirst(map[]);
    MovedBack();
  }

  lemma MovedBack()
    ensures Needed(AfterCursor(FROM), [T1]) == [T1] && Keyed(VIEW, [T1]) && Fold(VIEW, Shows("2"), [T1]) == Shows("1")
  {
    assert [T1][..0] == [];
    AfterFirst(Shows("2"));
    IdsDiffer();
    hide Id, RowOf, Fold, KeyedPart;
    assert Shows("2")[Id("r") := RowOf("r", "1")] == Shows("1");
  }

  function Resumption(text: LSN -> string): seq<seq<Client.Event>> {
    [[Client.Batch(Wire(T1.changes), text(T1.cursor))], [Client.Progress(text(T1.cursor))]]
  }

  // After the snapshot of the run above is cut, any client resumes from its cursor,
  // is sent T1 again, and is told it is fresh there. It shows r as T1 left it and q
  // as T2 did: neither the history through that position, nor what its snapshot had
  // selected with it.
  lemma FreshAtMixture(text: LSN -> string, client: Client.State) returns (first: Session, x: Session)
    requires client.writer.None?
    ensures WatchOf(first.s, first.w, VIEW, NotCovered(SEEN.snapshot), HISTORY) && first.received == RECEIVED
    ensures Cut(HISTORY, first.s.programs[first.w], first.received, FROM)
    ensures first.cursor == FROM && x.cursor == T1.cursor
    ensures Resumed(x, VIEW, FROM, HISTORY) && x.received == [BATCH, Watch.Progress(T1.cursor)]
    ensures EndToEnd.EncodesAll(text, first.received, Opening(text))
    ensures EndToEnd.EncodesAll(text, x.received, Resumption(text))
    ensures var start := EndToEnd.Streamed(KEY, client, Concat(Opening(text)));
            var (now, end) := Client.HandledAll(KEY, start.(progressed := false), Concat(Resumption(text)));
            && start.rows == Shows("2") && start.cursor == text(FROM)
            && end.None? && now.rows == Shows("1") && now.cursor == text(T1.cursor)
            && now.status == Client.Status(true, text(T1.cursor))
    ensures Keyed(VIEW, Progress.Through(HISTORY, T1.cursor))
    ensures Keyed(VIEW, Selected(SEEN.snapshot, HISTORY, T1.cursor))
    ensures Fold(VIEW, map[], Progress.Through(HISTORY, T1.cursor)) == map[Id("r") := RowOf("r", "1")]
    ensures Fold(VIEW, map[], Selected(SEEN.snapshot, HISTORY, T1.cursor)) == Shows("2")
  {
    hide WatchOf, Cut, EndToEnd.EncodesAll, Client.HandledAll, Concat, Resumed, Selected, Progress.Through, KeyedPart,
         ConflictFree, Covers, Fold, Shows, Id, RowOf, Opening, Resumption;
    var s := FreshBeyondPosition(text, client.(progressed := false));
    first := Session(s, 0, RECEIVED, FROM);
    x := ResumedReporting();
    ResumptionEncodes(text);
    Mixture();
    ResumesInto(text, x, EndToEnd.Streamed(KEY, client, Concat(Opening(text))));
  }

  lemma ResumptionEncodes(text: LSN -> string)
    ensures EndToEnd.EncodesAll(text, [BATCH, Watch.Progress(T1.cursor)], Resumption(text))
  {
    hide Wire;
  }

  // Any client that holds what the snapshot showed ends in the mixture.
  lemma ResumesInto(text: LSN -> string, x: Session, client: Client.State)
    requires Resumed(x, VIEW, FROM, HISTORY) && x.received == [BATCH, Watch.Progress(T1.cursor)]
    requires x.cursor == T1.cursor && client.writer.None? && client.rows == Shows("2")
    requires EndToEnd.EncodesAll(text, x.received, Resumption(text))
    ensures var (now, end) := Client.HandledAll(KEY, client.(progressed := false), Concat(Resumption(text)));
            && end.None? && now.rows == Shows("1") && now.cursor == text(T1.cursor)
            && now.status == Client.Status(true, text(T1.cursor))
  {
    hide EndToEnd.EncodesAll, Client.HandledAll, Concat, Resumed, Selected, Progress.Through, KeyedPart, ConflictFree,
         Covers, Fold, Needed, Covered, Shows, Id, RowOf, Replayed, CutsCleanly, SourceOrdered, Resumption;
    BothCovered();
    Mixture();
    StartsThere();
    EndToEnd.FreshFromResume(x, VIEW, SEEN.snapshot, HISTORY, FROM, FROM, map[], text, Resumption(text),
                             client.(progressed := false));
  }

  // The same by the theorem on a snapshot and the resumes after it.
  lemma MixtureConverges(text: LSN -> string, client: Client.State) returns (first: Session, x: Session)
    requires client.writer.None?
    ensures WatchOf(first.s, first.w, VIEW, NotCovered(SEEN.snapshot), HISTORY)
    ensures Cut(HISTORY, first.s.programs[first.w], first.received, FROM) && Chain(VIEW, HISTORY, FROM, [x])
    ensures EndToEnd.Encoded(text, first.received, Concat(Opening(text)))
    ensures EndToEnd.Encoded(text, x.received, Concat(Resumption(text)))
    ensures var start := EndToEnd.Streamed(KEY, client, Concat(Opening(text)));
            var now := EndToEnd.StreamedAll(KEY, start, [Concat(Resumption(text))]);
            now.rows == Shows("1") && now.cursor == text(T1.cursor)
  {
    hide WatchOf, Cut, Resumed, Chain, Held, EndToEnd.EncodesAll, EndToEnd.ScopeRead, KeyedPart, Covers, Fold, Concat,
         EndToEnd.Streamed, EndToEnd.StreamedAll, Client.HandledAll, Shows, Progress.Through, Selected, Covered, Needed,
         Replayed, PutAll, SourceOrdered, Opening, Resumption, RowOf, Id, ConflictFree, EndToEnd.Encoded;
    first, x := FreshAtMixture(text, client);
    OneResume(x);
    BothCovered();
    PageIsRead();
    PageIsCovered();
    Mixture();
    EncodedWhole(text, first.received, Opening(text));
    EncodedWhole(text, x.received, Resumption(text));
    EndToEnd.SyncConverges(first, VIEW, SEEN.snapshot, HISTORY, PAGE, [x], map[], text, Concat(Opening(text)),
                           [Concat(Resumption(text))], client);
  }

  lemma OneResume(x: Session)
    requires Resumed(x, VIEW, FROM, HISTORY)
    ensures Chain(VIEW, HISTORY, FROM, [x]) && Held(FROM, [x]) == x.cursor
  {
    hide Resumed;
    assert [x][..0] == [];
  }

  lemma EncodedWhole(text: LSN -> string, received: seq<Event>, parts: seq<seq<Client.Event>>)
    requires EndToEnd.EncodesAll(text, received, parts)
    ensures EndToEnd.Encoded(text, received, Concat(parts))
  {
    hide EndToEnd.EncodesAll;
  }

  // And as a run of Sync, on a store that starts without a cursor.
  lemma MixtureIsShown(text: LSN -> string, client: Client.State)
    returns (c: SyncRuns.Source, run: seq<SyncRuns.Attempt>, streams: seq<seq<Client.Event>>)
    requires client.writer.None? && client.cursor == ""
    ensures SyncRuns.Sane(c) && SyncRuns.Holds(c, client, SyncRuns.Nothing)
    ensures SyncRuns.SyncRun(c, SyncRuns.Nothing, run) && |run| == |streams| == 2
    ensures forall i :: 0 <= i < 2 ==> SyncRuns.OnWire(c, run[i], streams[i])
    ensures var now := EndToEnd.StreamedAll(KEY, client, streams);
            now.rows == Shows("1") && now.cursor == text(T1.cursor)
  {
    hide WatchOf, Cut, Resumed, EndToEnd.EncodesAll, KeyedPart, Covers, Fold, Concat, Client.HandledAll, Shows,
         Progress.Through, Selected, SourceOrdered, SyncRuns.Possible, SyncRuns.SyncRun, SyncRuns.OnWire, PutAll;
    var first, x := FreshAtMixture(text, client);
    c := SyncRuns.Source(VIEW, HISTORY, map[], text);
    var one, two := SyncRuns.Snapshotted(first, SEEN.snapshot, PAGE), SyncRuns.Resumption(x);
    run, streams := [one, two], [Concat(Opening(text)), Concat(Resumption(text))];
    BothCovered();
    hide ConflictFree;
    FirstPossible(c, first);
    assert SyncRuns.Possible(c, SyncRuns.Holding(SEEN.snapshot, FROM, FROM), two) by { SecondPossible(c, x); }
    WireWhole(c, one, Opening(text));
    WireWhole(c, two, Resumption(text));
    TwoStreams(c, one, two, streams, client);
    assert EndToEnd.Streamed(KEY, EndToEnd.Streamed(KEY, client, streams[0]), streams[1]).rows == Shows("1");
  }

  lemma FirstPossible(c: SyncRuns.Source, first: Session)
    requires c.v == VIEW && c.log == HISTORY && c.rows == map[] && SyncRuns.Sane(c)
    requires WatchOf(first.s, first.w, VIEW, NotCovered(SEEN.snapshot), HISTORY)
    requires Cut(HISTORY, first.s.programs[first.w], first.received, first.cursor) && first.received == RECEIVED
    ensures SyncRuns.Possible(c, SyncRuns.Nothing, SyncRuns.Snapshotted(first, SEEN.snapshot, PAGE))
  {
    hide WatchOf, Cut, EndToEnd.ScopeRead, KeyedPart, ConflictFree, Covers, Covered, Fold, Shows, SourceOrdered, PutAll;
    BothCovered();
    PageIsRead();
    PageIsCovered();
  }

  lemma SecondPossible(c: SyncRuns.Source, x: Session)
    requires c.v == VIEW && c.log == HISTORY && SyncRuns.Sane(c) && Resumed(x, VIEW, FROM, HISTORY)
    ensures SyncRuns.Possible(c, SyncRuns.Holding(SEEN.snapshot, FROM, FROM), SyncRuns.Resumption(x))
  {
    hide Resumed, SyncRuns.Sane;
  }

  lemma WireWhole(c: SyncRuns.Source, a: SyncRuns.Attempt, parts: seq<seq<Client.Event>>)
    requires EndToEnd.EncodesAll(c.text, a.x.received, parts)
    ensures SyncRuns.OnWire(c, a, Concat(parts))
  {
    hide EndToEnd.EncodesAll, Concat;
    assert SyncRuns.Receives(a, Concat(parts), Concat(parts));
  }

  lemma TwoStreams(c: SyncRuns.Source, one: SyncRuns.Attempt, two: SyncRuns.Attempt, streams: seq<seq<Client.Event>>,
                   client: Client.State)
    requires SyncRuns.Sane(c) && SyncRuns.Possible(c, SyncRuns.Nothing, one) && |streams| == 2
    requires SyncRuns.Possible(c, SyncRuns.After(SyncRuns.Nothing, one), two)
    ensures SyncRuns.SyncRun(c, SyncRuns.Nothing, [one, two])
    ensures EndToEnd.StreamedAll(KEY, client, streams) ==
            EndToEnd.Streamed(KEY, EndToEnd.Streamed(KEY, client, streams[0]), streams[1])
  {
    hide SyncRuns.Sane, SyncRuns.Possible, EndToEnd.Streamed;
    var run := [one, two];
    assert run[..1] == [one] && [one][..0] == [] && streams[..1] == [streams[0]] && [streams[0]][..0] == [];
    assert SyncRuns.AfterAll(SyncRuns.Nothing, []) == SyncRuns.Nothing;
    assert SyncRuns.SyncRun(c, SyncRuns.Nothing, [one]);
    assert SyncRuns.AfterAll(SyncRuns.Nothing, [one]) == SyncRuns.After(SyncRuns.Nothing, one);
    assert EndToEnd.StreamedAll(KEY, client, [streams[0]]) == EndToEnd.Streamed(KEY, client, streams[0]);
  }

  // Nothing is replayed up to the cursor itself, which cuts the history cleanly.
  lemma StartsThere()
    ensures CutsCleanly(VIEW, SEEN.snapshot, HISTORY, FROM)
    ensures Keyed(VIEW, Selected(SEEN.snapshot, HISTORY, FROM))
    ensures Keyed(VIEW, Needed(AfterCursor(FROM), Progress.Through(HISTORY, FROM)))
    ensures Replayed(VIEW, map[], SEEN.snapshot, HISTORY, FROM, FROM) == Shows("2")
  {
    BothCovered();
    SelectedBoth(FROM);
    ThroughFirst();
    PageIsCovered();
    hide Selected, Progress.Through, KeyedPart, ConflictFree, Covers, Fold, Covered, PutAll, Shows;
    EndToEnd.NothingReplayed(VIEW, map[], SEEN.snapshot, HISTORY, FROM);
  }
}
