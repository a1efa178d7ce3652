// One Watch stream as the SDK applies it (sdk/go/watchd/client.go): the events of
// a stream against the store, and the state reported to the application.
module Client {
  import opened Cdc
  import opened Store

  // A stream message.
  datatype Event =
    | SnapshotBegin
    | SnapshotRows(rows: seq<Row>)
    | SnapshotEnd
    | Batch(changes: seq<RowChange>, cursor: string)
    | Progress(cursor: string)
    | Resync
    | Unrecognized

  // Why the client ended a stream itself.
  datatype End = Resynced | StoreFailed | ProtocolError

  datatype Status = Status(isFresh: bool, cursor: string)

  // The store's rows and cursor, the rows of a snapshot being received, and the
  // syncer's own variables. `reports` are the calls to OnState.
  datatype State = State(rows: map<string, Row>, cursor: string, writer: Option<map<string, Row>>,
                         status: Status, reported: bool, progressed: bool, reports: seq<Status>)

  // setState reports a status only when it changes.
  function Reported(s: State, next: Status): State {
    if s.reported && next == s.status then s
    else s.(status := next, reported := true, reports := s.reports + [next])
  }

  // How many of the changes, from the front, can be applied.
  function ApplicableUpTo(primaryKey: seq<string>, cs: seq<RowChange>): (n: nat)
    ensures n <= |cs| && AllApplicable(primaryKey, cs[..n])
    ensures n < |cs| ==> !Applicable(primaryKey, cs[n])
  {
    if cs == [] || !Applicable(primaryKey, cs[0]) then 0
    else
      var n := 1 + ApplicableUpTo(primaryKey, cs[1..]);
      assert forall i :: 1 <= i < n ==> cs[..n][i] == cs[1..][..n - 1][i - 1];
      n
  }

  lemma FirstInapplicable(primaryKey: seq<string>, cs: seq<RowChange>, k: nat)
    requires k < |cs| && AllApplicable(primaryKey, cs[..k]) && !Applicable(primaryKey, cs[k])
    ensures ApplicableUpTo(primaryKey, cs) == k
  {
    var n := ApplicableUpTo(primaryKey, cs);
    assert forall i :: 0 <= i < k ==> cs[..k][i] == cs[i];
    assert forall i :: 0 <= i < n ==> cs[..n][i] == cs[i];
  }

  // The end of a stream aborts a snapshot that is not complete.
  function Ended(s: State): State {
    s.(writer := None)
  }

  // What one event does.
  function Handled(primaryKey: seq<string>, s: State, e: Event): (State, Option<End>) {
    match e
    case SnapshotBegin => (Reported(s, Status(false, "")).(writer := Some(map[])), None)
    case SnapshotRows(rows) =>
      if s.writer.None? then (s, Some(ProtocolError))
      else if !AllKeyed(primaryKey, rows) then (Ended(s), Some(StoreFailed))
      else (s.(writer := Some(PutAll(primaryKey, s.writer.value, rows))), None)
    case SnapshotEnd =>
      if s.writer.None? then (s, Some(ProtocolError))
      else (s.(rows := s.writer.value, cursor := "", writer := None), None)
    case Batch(changes, cursor) =>
      var n := ApplicableUpTo(primaryKey, changes);
      if s.writer.Some? then (Ended(s), Some(ProtocolError))
      else if n < |changes| then (s.(rows := ApplyAll(primaryKey, s.rows, changes[..n])), Some(StoreFailed))
      else (s.(rows := ApplyAll(primaryKey, s.rows, changes[..n]), cursor := cursor), None)
    case Progress(cursor) =>
      if s.writer.Some? then (Ended(s), Some(ProtocolError))
      else (Reported(s.(cursor := cursor, progressed := true), Status(true, cursor)), None)
    case Resync => (Ended(s), Some(Resynced))
    case Unrecognized => (Ended(s), Some(ProtocolError))
  }

  // The state after a stream's events, as far as the stream lasted.
  function HandledAll(primaryKey: seq<string>, s: State, events: seq<Event>): (State, Option<End>) {
    if events == [] then (s, None)
    else
      var (before, end) := HandledAll(primaryKey, s, events[..|events| - 1]);
      if end.Some? then (before, end) else Handled(primaryKey, before, events[|events| - 1])
  }

  // A stream opens without progress and without a snapshot under way.
  ghost predicate Opening(s: State) {
    s.writer.None? && !s.progressed && !s.status.isFresh
  }

  class Syncer {
    const store: MemoryStore
    var writer: MemorySnapshot?
    var status: Status
    var reported: bool
    var progressed: bool
    var reports: seq<Status>

    ghost predicate Valid()
      reads this, writer
    {
      writer != null ==> writer.store == store
    }

    ghost function Model(): State
      reads this, store, writer
    {
      State(store.rows, store.cursor, if writer == null then None else Some(writer.rows), status, reported, progressed,
            reports)
    }

    constructor (store: MemoryStore)
      ensures this.store == store && Valid() && Opening(Model())
      ensures Model() == State(store.rows, store.cursor, None, Status(false, ""), false, false, [])
    {
      this.store := store;
      writer := null;
      status, reported, progressed, reports := Status(false, ""), false, false, [];
    }

    method SetState(next: Status)
      requires Valid()
      modifies `status, `reported, `reports
      ensures Valid() && Model() == Reported(old(Model()), next)
    {
      if reported && next == status {
        return;
      }
      status, reported := next, true;
      reports := reports + [next];
    }

    method Rows(rows: seq<Row>) returns (end: Option<End>)
      requires Valid()
      modifies this, writer
      ensures Valid() && (writer == null || writer == old(writer))
      ensures (Model(), end) == Handled(store.primaryKey, old(Model()), SnapshotRows(rows))
    {
      if writer == null {
        return Some(ProtocolError);
      }
      var failed := writer.Put(rows);
      if failed {
        writer := null;
        return Some(StoreFailed);
      }
      end := None;
    }

    method ApplyBatch(changes: seq<RowChange>, cursor: string) returns (end: Option<End>)
      requires Valid()
      modifies this, store
      ensures Valid() && (writer == null || writer == old(writer))
      ensures (Model(), end) == Handled(store.primaryKey, old(Model()), Batch(changes, cursor))
    {
      if writer != null {
        writer := null;
        return Some(ProtocolError);
      }
      var failed := store.Apply(changes, cursor);
      ghost var n := ApplicableUpTo(store.primaryKey, changes);
      if failed.Some? {
        FirstInapplicable(store.primaryKey, changes, failed.value);
        return Some(StoreFailed);
      }
      assert changes[..n] == changes;
      end := None;
    }

    // One turn of stream's receive loop. Returning an end aborts the snapshot.
    method OnEvent(e: Event) returns (end: Option<End>)
      requires Valid()
      modifies this, store, writer
      ensures Valid() && (writer == null || writer == old(writer) || fresh(writer))
      ensures (Model(), end) == Handled(store.primaryKey, old(Model()), e)
    {
      match e {
        case SnapshotBegin =>
          SetState(Status(false, ""));
          writer := new MemorySnapshot(store);
          end := None;
        case SnapshotRows(rows) =>
          end := Rows(rows);
        case SnapshotEnd =>
          if writer == null {
            return Some(ProtocolError);
          }
          writer.Commit();
          writer := null;
          end := None;
        case Batch(changes, cursor) =>
          end := ApplyBatch(changes, cursor);
        case Progress(cursor) =>
          if writer != null {
            writer := null;
            return Some(ProtocolError);
          }
          store.SaveCursor(cursor);
          progressed := true;
          SetState(Status(true, cursor));
          end := None;
        case Resync =>
          writer := null;
          end := Some(Resynced);
        case Unrecognized =>
          writer := null;
          end := Some(ProtocolError);
      }
    }

    // stream, over the events received until it ends or the connection does, and
    // Sync's setState after it. It asks for a snapshot with no cursor, and otherwise
    // for what follows the stored one.
    method Stream(snapshot: bool, events: seq<Event>) returns (requested: string, end: Option<End>)
      requires Valid() && writer == null
      modifies this, store
      ensures Valid() && writer == null
      ensures requested == if snapshot then "" else old(store.cursor)
      ensures var (s, e) := HandledAll(store.primaryKey, old(Model()).(progressed := false), events);
              && end == e
              && Model() == Reported(Ended(s), Status(false, s.status.cursor))
      ensures Opening(Model().(progressed := false))
    {
      progressed := false;
      requested := "";
      if !snapshot {
        requested := store.cursor;
      }
      end := None;
      ghost var start := Model();
      var i := 0;
      while i < |events| && end.None?
        invariant i <= |events| && Valid() && (writer == null || fresh(writer))
        invariant (Model(), end) == HandledAll(store.primaryKey, start, events[..i])
      {
        assert events[..i + 1][..i] == events[..i];
        end := OnEvent(events[i]);
        i := i + 1;
      }
      StopsThere(store.primaryKey, start, events, i);
      writer := null;
      SetState(Status(false, status.cursor));
    }
  }

  // Events after the end of a stream are never looked at.
  lemma {:induction false} StopsThere(primaryKey: seq<string>, s: State, events: seq<Event>, n: nat)
    requires n <= |events| && (n == |events| || HandledAll(primaryKey, s, events[..n]).1.Some?)
    ensures HandledAll(primaryKey, s, events) == HandledAll(primaryKey, s, events[..n])
  {
    if n == |events| {
      assert events[..n] == events;
    } else {
      assert events[..|events| - 1][..n] == events[..n];
      StopsThere(primaryKey, s, events[..|events| - 1], n);
    }
  }

  // Freshness

  // The stream's latest Progress is at `cursor`, and no snapshot has begun since.
  ghost predicate Confirmed(events: seq<Event>, cursor: string) {
    exists i :: 0 <= i < |events| && events[i] == Progress(cursor)
                && forall j :: i < j < |events| ==> !events[j].Progress? && !events[j].SnapshotBegin?
  }

  // What an event that does not end the stream does to the status and its reports.
  lemma StatusStep(primaryKey: seq<string>, s: State, e: Event)
    requires Handled(primaryKey, s, e).1.None?
    ensures var s' := Handled(primaryKey, s, e).0;
            && (match e
                case SnapshotBegin => s'.status == Status(false, "") && s'.writer.Some?
                case Progress(cursor) => s'.status == Status(true, cursor) && s'.writer.None? && s.writer.None?
                case _ => s'.status == s.status && (s'.writer.Some? ==> s.writer.Some?))
            && (s'.reports == s.reports || s'.reports == s.reports + [s'.status])
  {
    hide ApplyAll, PutAll, AllKeyed, ApplicableUpTo;
  }

  lemma ConfirmedOn(events: seq<Event>, cursor: string)
    requires events != [] && Confirmed(events[..|events| - 1], cursor)
    requires !events[|events| - 1].Progress? && !events[|events| - 1].SnapshotBegin?
    ensures Confirmed(events, cursor)
  {
    var n := |events| - 1;
    var i :| 0 <= i < n && events[..n][i] == Progress(cursor)
             && forall j :: i < j < n ==> !events[..n][j].Progress? && !events[..n][j].SnapshotBegin?;
    assert events[i] == Progress(cursor);
    assert forall j :: i < j < n ==> events[j] == events[..n][j];
  }

  // A status is fresh only at a position the current stream has confirmed, with no
  // snapshot begun since.
  lemma {:induction false} FreshIsConfirmed(primaryKey: seq<string>, s: State, events: seq<Event>)
    requires Opening(s) && HandledAll(primaryKey, s, events).1.None?
    ensures var s' := HandledAll(primaryKey, s, events).0;
            && (s'.status.isFresh ==> Confirmed(events, s'.status.cursor) && s'.writer.None?)
            && (s'.writer.Some? ==> !s'.status.isFresh)
  {
    if events != [] {
      var n := |events| - 1;
      hide Handled;
      FreshIsConfirmed(primaryKey, s, events[..n]);
      var before := HandledAll(primaryKey, s, events[..n]).0;
      StatusStep(primaryKey, before, events[n]);
      if events[n].Progress? {
        assert Confirmed(events, events[n].cursor);
      } else if !events[n].SnapshotBegin? && before.status.isFresh {
        hide Confirmed;
        ConfirmedOn(events, before.status.cursor);
      }
    }
  }

  // Every report of freshness made during a stream was confirmed when it was made.
  lemma {:induction false} ReportsAreConfirmed(primaryKey: seq<string>, s: State, events: seq<Event>, k: nat)
    returns (n: nat)
    requires Opening(s) && HandledAll(primaryKey, s, events).1.None?
    requires |s.reports| <= k < |HandledAll(primaryKey, s, events).0.reports|
    ensures n <= |events|
    ensures var report := HandledAll(primaryKey, s, events).0.reports[k];
            && HandledAll(primaryKey, s, events[..n]).1.None?
            && HandledAll(primaryKey, s, events[..n]).0.status == report
            && (report.isFresh ==> Confirmed(events[..n], report.cursor))
  {
    hide Handled, Confirmed;
    var m := |events| - 1;
    var before := HandledAll(primaryKey, s, events[..m]).0;
    StatusStep(primaryKey, before, events[m]);
    if k < |before.reports| {
      n := ReportsAreConfirmed(primaryKey, s, events[..m], k);
      assert events[..m][..n] == events[..n];
    } else {
      n := |events|;
      assert events[..n] == events;
      FreshIsConfirmed(primaryKey, s, events);
    }
  }

  // Installing a snapshot

  ghost predicate AllRows(events: seq<Event>) {
    forall i :: 0 <= i < |events| ==> events[i].SnapshotRows?
  }

  function RowsOf(events: seq<Event>): seq<Row> {
    if events == [] then []
    else
      var e := events[|events| - 1];
      RowsOf(events[..|events| - 1]) + if e.SnapshotRows? then e.rows else []
  }

  lemma {:induction false} PutAllBoth(primaryKey: seq<string>, into: map<string, Row>, a: seq<Row>, b: seq<Row>)
    requires AllKeyed(primaryKey, a) && AllKeyed(primaryKey, b)
    ensures AllKeyed(primaryKey, a + b)
    ensures PutAll(primaryKey, into, a + b) == PutAll(primaryKey, PutAll(primaryKey, into, a), b)
  {
    if b == [] {
      assert a + b == a;
    } else {
      var n := |b| - 1;
      PutAllBoth(primaryKey, into, a, b[..n]);
      assert (a + b)[..|a + b| - 1] == a + b[..n];
    }
  }

  // While a snapshot is received, nobody sees it: the visible rows and the cursor
  // stay, and the rows collected are those received, however they were split.
  lemma {:induction false} SnapshotHidden(primaryKey: seq<string>, s: State, messages: seq<Event>)
    requires AllRows(messages)
    ensures var (s', end) := HandledAll(primaryKey, s, [SnapshotBegin] + messages);
            && s'.rows == s.rows && s'.cursor == s.cursor
            && (end.None? <==> AllKeyed(primaryKey, RowsOf(messages)))
            && (end.Some? ==> end == Some(StoreFailed))
            && (end.None? ==> s'.writer == Some(PutAll(primaryKey, map[], RowsOf(messages))))
  {
    var run := [SnapshotBegin] + messages;
    if messages == [] {
      assert run == [SnapshotBegin] && run[..0] == [];
      assert HandledAll(primaryKey, s, run) == Handled(primaryKey, s, SnapshotBegin);
    } else {
      var n := |messages| - 1;
      SnapshotHidden(primaryKey, s, messages[..n]);
      assert run[..|run| - 1] == [SnapshotBegin] + messages[..n];
      var a, b := RowsOf(messages[..n]), messages[n].rows;
      var (before, end) := HandledAll(primaryKey, s, [SnapshotBegin] + messages[..n]);
      KeyedBoth(primaryKey, a, b);
      if end.None? { RowsStep(primaryKey, before, a, b); }
      hide Handled, PutAll, AllKeyed;
    }
  }

  // One more message of rows joins those collected.
  lemma RowsStep(primaryKey: seq<string>, s: State, a: seq<Row>, b: seq<Row>)
    requires AllKeyed(primaryKey, a) && s.writer == Some(PutAll(primaryKey, map[], a))
    ensures var (s', end) := Handled(primaryKey, s, SnapshotRows(b));
            && s'.rows == s.rows && s'.cursor == s.cursor
            && (if AllKeyed(primaryKey, b)
                then end.None? && AllKeyed(primaryKey, a + b) && s'.writer == Some(PutAll(primaryKey, map[], a + b))
                else end == Some(StoreFailed))
  {
    if AllKeyed(primaryKey, b) { PutAllBoth(primaryKey, map[], a, b); }
    hide PutAll, AllKeyed;
  }

  lemma KeyedBoth(primaryKey: seq<string>, a: seq<Row>, b: seq<Row>)
    ensures AllKeyed(primaryKey, a + b) <==> AllKeyed(primaryKey, a) && AllKeyed(primaryKey, b)
  {
    hide KeyedRow;
    assert forall i :: 0 <= i < |a| ==> (a + b)[i] == a[i];
    assert forall i :: 0 <= i < |b| ==> (a + b)[|a| + i] == b[i];
  }

  // At SnapshotEnd the whole projection is replaced at once by the rows received.
  lemma SnapshotSwaps(primaryKey: seq<string>, s: State, messages: seq<Event>)
    requires AllRows(messages) && AllKeyed(primaryKey, RowsOf(messages))
    ensures var (s', end) := HandledAll(primaryKey, s, [SnapshotBegin] + messages + [SnapshotEnd]);
            && end.None? && s'.rows == PutAll(primaryKey, map[], RowsOf(messages)) && s'.cursor == "" && s'.writer.None?
  {
    var run := [SnapshotBegin] + messages;
    SnapshotHidden(primaryKey, s, messages);
    assert (run + [SnapshotEnd])[..|run|] == run;
  }

  // What a stream shows, read off its events: the rows received since the last
  // SnapshotBegin, those of the last complete snapshot, and the changes since it.

  function RowsSince(events: seq<Event>): seq<Row> {
    if events == [] then []
    else
      var e, rest := events[|events| - 1], events[..|events| - 1];
      match e
      case SnapshotBegin => []
      case SnapshotRows(rows) => RowsSince(rest) + rows
      case _ => RowsSince(rest)
  }

  function LastSnapshot(events: seq<Event>): Option<seq<Row>> {
    if events == [] then None
    else
      var e, rest := events[|events| - 1], events[..|events| - 1];
      if e.SnapshotEnd? then Some(RowsSince(rest)) else LastSnapshot(rest)
  }

  function ChangesSince(events: seq<Event>): seq<RowChange> {
    if events == [] then []
    else
      var e, rest := events[|events| - 1], events[..|events| - 1];
      match e
      case SnapshotEnd => []
      case Batch(changes, _) => ChangesSince(rest) + changes
      case _ => ChangesSince(rest)
  }

  ghost predicate Shown(primaryKey: seq<string>, rows: map<string, Row>, events: seq<Event>, now: map<string, Row>) {
    var last, changes := LastSnapshot(events), ChangesSince(events);
    && AllApplicable(primaryKey, changes) && (last.Some? ==> AllKeyed(primaryKey, last.value))
    && now == ApplyAll(primaryKey, if last.None? then rows else PutAll(primaryKey, map[], last.value), changes)
  }

  ghost predicate Collected(primaryKey: seq<string>, events: seq<Event>, writer: Option<map<string, Row>>) {
    writer.Some? ==>
      AllKeyed(primaryKey, RowsSince(events)) && writer.value == PutAll(primaryKey, map[], RowsSince(events))
  }

  lemma {:induction false} ApplyAllBoth(primaryKey: seq<string>, rows: map<string, Row>, a: seq<RowChange>,
                                        b: seq<RowChange>)
    requires AllApplicable(primaryKey, a) && AllApplicable(primaryKey, b)
    ensures AllApplicable(primaryKey, a + b)
    ensures ApplyAll(primaryKey, rows, a + b) == ApplyAll(primaryKey, ApplyAll(primaryKey, rows, a), b)
  {
    if b == [] {
      assert a + b == a;
    } else {
      var n := |b| - 1;
      ApplyAllBoth(primaryKey, rows, a, b[..n]);
      assert (a + b)[..|a + b| - 1] == a + b[..n];
    }
  }

  // A batch joins the changes since the last complete snapshot.
  lemma ShownBatch(primaryKey: seq<string>, rows: map<string, Row>, events: seq<Event>, before: State)
    requires events != [] && events[|events| - 1].Batch?
    requires Shown(primaryKey, rows, events[..|events| - 1], before.rows)
    requires AllApplicable(primaryKey, events[|events| - 1].changes)
    ensures Shown(primaryKey, rows, events, ApplyAll(primaryKey, before.rows, events[|events| - 1].changes))
  {
    var rest, e := events[..|events| - 1], events[|events| - 1];
    var last := LastSnapshot(rest);
    assert LastSnapshot(events) == last && ChangesSince(events) == ChangesSince(rest) + e.changes;
    hide LastSnapshot, ChangesSince;
    ApplyAllBoth(primaryKey, if last.None? then rows else PutAll(primaryKey, map[], last.value), ChangesSince(rest),
                 e.changes);
    hide ApplyAll, AllApplicable;
  }

  // Rows join those collected.
  lemma CollectedRows(primaryKey: seq<string>, events: seq<Event>, writer: map<string, Row>)
    requires events != [] && events[|events| - 1].SnapshotRows?
    requires Collected(primaryKey, events[..|events| - 1], Some(writer))
    requires AllKeyed(primaryKey, events[|events| - 1].rows)
    ensures Collected(primaryKey, events, Some(PutAll(primaryKey, writer, events[|events| - 1].rows)))
  {
    PutAllBoth(primaryKey, map[], RowsSince(events[..|events| - 1]), events[|events| - 1].rows);
    hide PutAll, AllKeyed;
  }

  lemma NothingSince(primaryKey: seq<string>, rows: map<string, Row>)
    ensures AllApplicable(primaryKey, []) && ApplyAll(primaryKey, rows, []) == rows
    ensures AllKeyed(primaryKey, []) && PutAll(primaryKey, rows, []) == rows
  {
  }

  // One more event, handled without an error.
  lemma ShownStep(primaryKey: seq<string>, rows: map<string, Row>, events: seq<Event>, before: State)
    requires events != []
    requires Shown(primaryKey, rows, events[..|events| - 1], before.rows)
    requires Collected(primaryKey, events[..|events| - 1], before.writer)
    requires Handled(primaryKey, before, events[|events| - 1]).1.None?
    ensures var now := Handled(primaryKey, before, events[|events| - 1]).0;
            Shown(primaryKey, rows, events, now.rows) && Collected(primaryKey, events, now.writer)
  {
    hide ApplyAll, PutAll, AllKeyed, AllApplicable;
    match events[|events| - 1]
    case Batch(changes, _) =>
      assert changes[..|changes|] == changes;
      ShownBatch(primaryKey, rows, events, before);
    case SnapshotRows(_) => CollectedRows(primaryKey, events, before.writer.value);
    case SnapshotEnd => NothingSince(primaryKey, before.writer.value);
    case SnapshotBegin => NothingSince(primaryKey, map[]);
    case _ =>
  }

  // Over any stream, in the grammar or not, as far as it is handled: the visible rows
  // are those of the last complete snapshot, or those the stream found, with every
  // change since applied in order. Nothing of an incomplete snapshot ever shows.
  lemma {:induction false} OnlyWholeSnapshotsShow(primaryKey: seq<string>, s: State, events: seq<Event>)
    requires s.writer.None? && HandledAll(primaryKey, s, events).1.None?
    ensures var now := HandledAll(primaryKey, s, events).0;
            Shown(primaryKey, s.rows, events, now.rows) && Collected(primaryKey, events, now.writer)
  {
    hide Shown, Collected, Handled;
    if events == [] {
      ShownFirst(primaryKey, s.rows);
    } else {
      OnlyWholeSnapshotsShow(primaryKey, s, events[..|events| - 1]);
      ShownStep(primaryKey, s.rows, events, HandledAll(primaryKey, s, events[..|events| - 1]).0);
    }
  }

  lemma ShownFirst(primaryKey: seq<string>, rows: map<string, Row>)
    ensures Shown(primaryKey, rows, [], rows) && Collected(primaryKey, [], None)
  {
  }

  // The event that ends a stream changes the visible rows only if it is a batch, and
  // then by the changes before the first it cannot apply.
  lemma {:induction false} RowsAtFailure(primaryKey: seq<string>, s: State, events: seq<Event>) returns (n: nat)
    requires HandledAll(primaryKey, s, events).1.Some?
    ensures n < |events| && HandledAll(primaryKey, s, events[..n]).1.None?
    ensures var before, now := HandledAll(primaryKey, s, events[..n]).0, HandledAll(primaryKey, s, events).0;
            && now.writer.None?
            && now.rows == if events[n].Batch? && before.writer.None?
                           then ApplyAll(primaryKey, before.rows,
                                         events[n].changes[..ApplicableUpTo(primaryKey, events[n].changes)])
                           else before.rows
  {
    var m := |events| - 1;
    if HandledAll(primaryKey, s, events[..m]).1.Some? {
      n := RowsAtFailure(primaryKey, s, events[..m]);
      assert events[..m][..n] == events[..n];
    } else {
      n := m;
    }
  }
}
