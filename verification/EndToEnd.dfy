// From the source's history to the rows an application sees: a watcher's stream
// (internal/watch/hub.go), carried by the server (internal/server/server.go) and
// applied by the SDK (sdk/go/watchd/client.go, sdk/go/watchd/store.go).
module EndToEnd {
  import opened Cdc
  import opened HubSpec
  import opened Visibility
  import opened Watch
  import opened WatchInvariant
  import opened Convergence
  import opened Protocol
  import opened Sessions
  import Client
  import opened Sequences
  import Paging
  import Progress
  import Store

  // What the batches among a stream's messages do to rows, in order.

  ghost predicate Appliable(primaryKey: seq<string>, messages: seq<Client.Event>) {
    forall i :: 0 <= i < |messages| && messages[i].Batch? ==> Store.AllApplicable(primaryKey, messages[i].changes)
  }

  function Applied(primaryKey: seq<string>, rows: map<string, Row>, messages: seq<Client.Event>)
    : map<string, Row>
    requires Appliable(primaryKey, messages)
  {
    if messages == [] then rows
    else
      var n := |messages| - 1;
      var before := Applied(primaryKey, rows, messages[..n]);
      if messages[n].Batch? then Store.ApplyAll(primaryKey, before, messages[n].changes) else before
  }

  predicate OpensSnapshot(messages: seq<Client.Event>) {
    messages != [] && messages[0].SnapshotBegin?
  }

  // The rows the batches are applied to: those of the stream's snapshot, or the
  // store's own if it resumed.
  function Base(primaryKey: seq<string>, s: Client.State, messages: seq<Client.Event>): map<string, Row>
    requires Store.AllKeyed(primaryKey, Client.RowsOf(messages))
  {
    if OpensSnapshot(messages) then Store.PutAll(primaryKey, map[], Client.RowsOf(messages)) else s.rows
  }

  // Where a stream in the grammar leaves the client.
  ghost predicate Tracks(primaryKey: seq<string>, s: Client.State, messages: seq<Client.Event>)
    requires Appliable(primaryKey, messages) && Store.AllKeyed(primaryKey, Client.RowsOf(messages))
  {
    var (now, end) := Client.HandledAll(primaryKey, s, messages);
    match ClientMode(messages)
    case Some(Unopened) => messages == [] && end.None? && now == s
    case Some(InSnapshot) =>
      && end.None? && OpensSnapshot(messages)
      && now.writer == Some(Base(primaryKey, s, messages))
      && Applied(primaryKey, Base(primaryKey, s, messages), messages) == Base(primaryKey, s, messages)
    case Some(Streaming) =>
      && end.None? && now.writer.None?
      && now.rows == Applied(primaryKey, Base(primaryKey, s, messages), messages)
    case _ => true
  }

  // The last message, on top of those before it.
  lemma LastMessage(primaryKey: seq<string>, s: Client.State, messages: seq<Client.Event>, base: map<string, Row>)
    requires messages != [] && Appliable(primaryKey, messages)
    ensures var n := |messages| - 1;
            var rest, e := messages[..n], messages[n];
            var before := Client.HandledAll(primaryKey, s, rest);
            && Appliable(primaryKey, rest)
            && Client.HandledAll(primaryKey, s, messages) ==
                 (if before.1.Some? then before else Client.Handled(primaryKey, before.0, e))
            && ClientMode(messages) == (if ClientMode(rest).None? || ClientKind(e).None? then None
                                        else Advance(ClientMode(rest).value, ClientKind(e).value))
            && Client.RowsOf(messages) == Client.RowsOf(rest) + (if e.SnapshotRows? then e.rows else [])
            && OpensSnapshot(messages) == (if rest == [] then e.SnapshotBegin? else OpensSnapshot(rest))
            && (e.Batch? ==> Store.AllApplicable(primaryKey, e.changes))
            && Applied(primaryKey, base, messages) ==
                 (if e.Batch? then Store.ApplyAll(primaryKey, Applied(primaryKey, base, rest), e.changes)
                  else Applied(primaryKey, base, rest))
  {
    hide Client.Handled, Store.ApplyAll, Store.AllApplicable;
  }

  lemma TrackBegin(primaryKey: seq<string>, s: Client.State, messages: seq<Client.Event>)
    requires messages != [] && s.writer.None? && messages[|messages| - 1].SnapshotBegin?
    requires Appliable(primaryKey, messages) && Store.AllKeyed(primaryKey, Client.RowsOf(messages))
    requires Appliable(primaryKey, messages[..|messages| - 1])
    requires Store.AllKeyed(primaryKey, Client.RowsOf(messages[..|messages| - 1]))
    requires Tracks(primaryKey, s, messages[..|messages| - 1])
    ensures Tracks(primaryKey, s, messages)
  {
    var rest := messages[..|messages| - 1];
    LastMessage(primaryKey, s, messages, Base(primaryKey, s, messages));
    if rest == [] { NothingPut(primaryKey, Base(primaryKey, s, messages)); }
    hide Client.HandledAll, ClientMode, Client.RowsOf, Applied, Appliable, OpensSnapshot,
         Store.ApplyAll, Store.PutAll, Store.AllKeyed, Store.AllApplicable, Client.ApplicableUpTo;
  }

  lemma TrackEnd(primaryKey: seq<string>, s: Client.State, messages: seq<Client.Event>)
    requires messages != [] && s.writer.None? && messages[|messages| - 1].SnapshotEnd?
    requires Appliable(primaryKey, messages) && Store.AllKeyed(primaryKey, Client.RowsOf(messages))
    requires Appliable(primaryKey, messages[..|messages| - 1])
    requires Store.AllKeyed(primaryKey, Client.RowsOf(messages[..|messages| - 1]))
    requires Tracks(primaryKey, s, messages[..|messages| - 1])
    ensures Tracks(primaryKey, s, messages)
  {
    var rest := messages[..|messages| - 1];
    LastMessage(primaryKey, s, messages, Base(primaryKey, s, messages));
    if rest == [] { NothingPut(primaryKey, s.rows); }
    hide Client.HandledAll, ClientMode, Client.RowsOf, Applied, Appliable, OpensSnapshot,
         Store.ApplyAll, Store.PutAll, Store.AllKeyed, Store.AllApplicable, Client.ApplicableUpTo;
    assert Client.RowsOf(messages) == Client.RowsOf(rest);
  }

  // One message of live events.
  lemma TrackLive(primaryKey: seq<string>, s: Client.State, messages: seq<Client.Event>)
    requires messages != [] && s.writer.None?
    requires messages[|messages| - 1].Batch? || messages[|messages| - 1].Progress?
    requires Appliable(primaryKey, messages) && Store.AllKeyed(primaryKey, Client.RowsOf(messages))
    requires Appliable(primaryKey, messages[..|messages| - 1])
    requires Store.AllKeyed(primaryKey, Client.RowsOf(messages[..|messages| - 1]))
    requires Tracks(primaryKey, s, messages[..|messages| - 1])
    ensures Tracks(primaryKey, s, messages)
  {
    hide Client.HandledAll, ClientMode, Client.RowsOf, Applied, Appliable, OpensSnapshot, Client.Handled,
         Store.ApplyAll, Store.PutAll, Store.AllKeyed, Store.AllApplicable;
    var n := |messages| - 1;
    var rest, e := messages[..n], messages[n];
    LastMessage(primaryKey, s, messages, Base(primaryKey, s, messages));
    if rest == [] { NothingPut(primaryKey, s.rows); }
    assert Client.RowsOf(messages) == Client.RowsOf(rest);
    assert Base(primaryKey, s, messages) == Base(primaryKey, s, rest);
    var before := Client.HandledAll(primaryKey, s, rest).0;
    if CanStream(ClientMode(rest)) {
      assert before.writer.None? && before.rows == Applied(primaryKey, Base(primaryKey, s, rest), rest);
      LiveStep(primaryKey, before, e);
    }
  }

  lemma LiveStep(primaryKey: seq<string>, s: Client.State, e: Client.Event)
    requires s.writer.None? && (e.Batch? || e.Progress?)
    requires e.Batch? ==> Store.AllApplicable(primaryKey, e.changes)
    ensures var (now, end) := Client.Handled(primaryKey, s, e);
            && end.None? && now.writer.None?
            && now.rows == if e.Batch? then Store.ApplyAll(primaryKey, s.rows, e.changes) else s.rows
  {
    if e.Batch? { AllOfThem(primaryKey, e.changes); }
    hide Store.ApplyAll, Store.AllApplicable, Client.ApplicableUpTo;
  }

  lemma TrackRows(primaryKey: seq<string>, s: Client.State, messages: seq<Client.Event>)
    requires messages != [] && s.writer.None? && messages[|messages| - 1].SnapshotRows?
    requires Appliable(primaryKey, messages) && Store.AllKeyed(primaryKey, Client.RowsOf(messages))
    requires Appliable(primaryKey, messages[..|messages| - 1])
    requires Store.AllKeyed(primaryKey, Client.RowsOf(messages[..|messages| - 1]))
    requires Tracks(primaryKey, s, messages[..|messages| - 1])
    ensures Tracks(primaryKey, s, messages)
  {
    var n := |messages| - 1;
    var rest, b := messages[..n], messages[n].rows;
    LastMessage(primaryKey, s, messages, Base(primaryKey, s, messages));
    hide Client.HandledAll, ClientMode, Client.RowsOf, Applied, Appliable, OpensSnapshot,
         Store.PutAll, Store.AllKeyed;
    Client.KeyedBoth(primaryKey, Client.RowsOf(rest), b);
    if ClientMode(rest) == Some(InSnapshot) {
      Client.PutAllBoth(primaryKey, map[], Client.RowsOf(rest), b);
      InSnapshotUnbatched(messages);
      UnbatchedApplies(primaryKey, Base(primaryKey, s, messages), messages);
    }
  }

  lemma TrackClosed(primaryKey: seq<string>, s: Client.State, messages: seq<Client.Event>)
    requires messages != [] && (messages[|messages| - 1].Resync? || messages[|messages| - 1].Unrecognized?)
    requires Appliable(primaryKey, messages) && Store.AllKeyed(primaryKey, Client.RowsOf(messages))
    ensures Tracks(primaryKey, s, messages)
  {
    assert ClientMode(messages) == None || ClientMode(messages) == Some(Over) by { ClosedMode(messages); }
    hide Client.HandledAll, Applied, ClientMode, Appliable, Base, Client.RowsOf, Store.AllKeyed;
  }

  lemma ClosedMode(messages: seq<Client.Event>)
    requires messages != [] && (messages[|messages| - 1].Resync? || messages[|messages| - 1].Unrecognized?)
    ensures ClientMode(messages) == None || ClientMode(messages) == Some(Over)
  {
  }

  lemma NothingPut(primaryKey: seq<string>, base: map<string, Row>)
    ensures Client.RowsOf([]) == [] && ClientMode([]) == Some(Unopened) && !OpensSnapshot([])
    ensures Store.AllKeyed(primaryKey, []) && Store.PutAll(primaryKey, map[], []) == map[]
    ensures Appliable(primaryKey, []) && Applied(primaryKey, base, []) == base
  {
  }

  lemma AllOfThem(primaryKey: seq<string>, cs: seq<Store.RowChange>)
    requires Store.AllApplicable(primaryKey, cs)
    ensures Client.ApplicableUpTo(primaryKey, cs) == |cs| && cs[..|cs|] == cs
  {
  }

  lemma {:induction false} InSnapshotUnbatched(messages: seq<Client.Event>)
    requires ClientMode(messages) == Some(InSnapshot)
    ensures forall i :: 0 <= i < |messages| ==> !messages[i].Batch?
  {
    var n := |messages| - 1;
    if ClientMode(messages[..n]) == Some(InSnapshot) {
      InSnapshotUnbatched(messages[..n]);
      assert forall i :: 0 <= i < n ==> messages[..n][i] == messages[i];
    } else {
      UnopenedEmpty(messages[..n]);
    }
  }

  lemma UnopenedEmpty(messages: seq<Client.Event>)
    requires ClientMode(messages) == Some(Unopened)
    ensures messages == []
  {
  }

  lemma {:induction false} UnbatchedApplies(primaryKey: seq<string>, rows: map<string, Row>,
                                            messages: seq<Client.Event>)
    requires forall i :: 0 <= i < |messages| ==> !messages[i].Batch?
    ensures Applied(primaryKey, rows, messages) == rows
  {
    if messages != [] { UnbatchedApplies(primaryKey, rows, messages[..|messages| - 1]); }
  }

  // The client, over a whole stream in the grammar: its rows are those of the
  // stream's snapshot, or its own, with every batch applied in order.
  lemma {:induction false} ClientTracks(primaryKey: seq<string>, s: Client.State, messages: seq<Client.Event>)
    requires s.writer.None? && ClientMode(messages).Some?
    requires Appliable(primaryKey, messages) && Store.AllKeyed(primaryKey, Client.RowsOf(messages))
    ensures Tracks(primaryKey, s, messages)
  {
    if messages != [] {
      var n := |messages| - 1;
      var e := messages[n];
      Client.KeyedBoth(primaryKey, Client.RowsOf(messages[..n]), if e.SnapshotRows? then e.rows else []);
      ClientTracks(primaryKey, s, messages[..n]);
      hide Tracks;
      match e {
        case SnapshotBegin => TrackBegin(primaryKey, s, messages);
        case SnapshotRows(_) => TrackRows(primaryKey, s, messages);
        case SnapshotEnd => TrackEnd(primaryKey, s, messages);
        case Batch(_, _) => TrackLive(primaryKey, s, messages);
        case Progress(_) => TrackLive(primaryKey, s, messages);
        case _ => TrackClosed(primaryKey, s, messages);
      }
    }
  }

  // The server's encoding of a stream

  // An event's messages, with cursors as text. A page's rows are split as the
  // server packs them, and stay the page's rows.
  ghost predicate Encodes(text: LSN -> string, e: Event, part: seq<Client.Event>) {
    && Carries(e, part)
    && (e.SnapshotRows? ==> Client.RowsOf(part) == e.rows)
    && (e.Batch? ==> part == [Client.Batch(Wire(e.changes), text(e.cursor))])
    && (e.Progress? ==> part == [Client.Progress(text(e.cursor))])
  }

  ghost predicate EncodesAll(text: LSN -> string, events: seq<Event>, parts: seq<seq<Client.Event>>) {
    |parts| == |events| && forall i :: 0 <= i < |events| ==> Encodes(text, events[i], parts[i])
  }

  lemma AppliedOne(primaryKey: seq<string>, rows: map<string, Row>, messages: seq<Client.Event>, e: Client.Event)
    requires Appliable(primaryKey, messages) && (e.Batch? ==> Store.AllApplicable(primaryKey, e.changes))
    ensures Appliable(primaryKey, messages + [e])
    ensures Applied(primaryKey, rows, messages + [e]) ==
            if e.Batch? then Store.ApplyAll(primaryKey, Applied(primaryKey, rows, messages), e.changes)
            else Applied(primaryKey, rows, messages)
  {
    hide Store.ApplyAll, Store.AllApplicable;
    assert (messages + [e])[..|messages|] == messages;
  }

  lemma {:induction false} AppliedRows(primaryKey: seq<string>, rows: map<string, Row>, messages: seq<Client.Event>,
                                       part: seq<Client.Event>)
    requires Appliable(primaryKey, messages) && forall i :: 0 <= i < |part| ==> part[i].SnapshotRows?
    ensures Appliable(primaryKey, messages + part)
    ensures Applied(primaryKey, rows, messages + part) == Applied(primaryKey, rows, messages)
  {
    if part == [] {
      assert messages + part == messages;
    } else {
      var n := |part| - 1;
      AppliedRows(primaryKey, rows, messages, part[..n]);
      AppliedOne(primaryKey, rows, messages + part[..n], part[n]);
      assert messages + part == (messages + part[..n]) + [part[n]];
    }
  }

  lemma ClientRowsOne(v: Scoped, rows: map<string, Row>, batches: seq<Event>, e: Event)
    requires e.Batch? && BatchesKeyed(v, batches + [e])
    ensures BatchesKeyed(v, batches) && Store.AllApplicable(v.primaryKey, Wire(e.changes))
    ensures ClientRows(v, rows, batches + [e]) ==
            Store.ApplyAll(v.primaryKey, ClientRows(v, rows, batches), Wire(e.changes))
  {
    hide Store.ApplyAll, Store.AllApplicable, Wire;
    var all := batches + [e];
    assert all[|batches|] == e && all[..|batches|] == batches;
    assert forall i :: 0 <= i < |batches| ==> all[i] == batches[i];
  }

  // Applying a stream's messages is applying the batches that were sent.
  lemma {:induction false} EncodedBatches(v: Scoped, text: LSN -> string, rows: map<string, Row>, sent: seq<Event>,
                                          parts: seq<seq<Client.Event>>)
    requires EncodesAll(text, sent, parts) && BatchesKeyed(v, Batches(sent))
    ensures Appliable(v.primaryKey, Concat(parts))
    ensures Applied(v.primaryKey, rows, Concat(parts)) == ClientRows(v, rows, Batches(sent))
  {
    if sent != [] {
      var n := |sent| - 1;
      var before, e, part := Concat(parts[..n]), sent[n], parts[n];
      assert Encodes(text, e, part);
      assert EncodesAll(text, sent[..n], parts[..n]);
      assert Concat(parts) == before + part;
      hide Applied, Appliable, ClientRows, BatchesKeyed, Store.ApplyAll, Store.AllApplicable, Wire, EncodesAll, Concat;
      BatchesKeep(v, rows, sent);
      EncodedBatches(v, text, rows, sent[..n], parts[..n]);
      hide Batches;
      if e.SnapshotRows? {
        AppliedRows(v.primaryKey, rows, before, part);
      } else {
        assert part == [part[0]];
        AppliedOne(v.primaryKey, rows, before, part[0]);
      }
    }
  }

  // The last event, on top of the batches before it.
  lemma BatchesKeep(v: Scoped, rows: map<string, Row>, sent: seq<Event>)
    requires sent != [] && BatchesKeyed(v, Batches(sent))
    ensures var rest, e := sent[..|sent| - 1], sent[|sent| - 1];
            && BatchesKeyed(v, Batches(rest))
            && (if e.Batch?
                then Store.AllApplicable(v.primaryKey, Wire(e.changes))
                     && ClientRows(v, rows, Batches(sent)) ==
                          Store.ApplyAll(v.primaryKey, ClientRows(v, rows, Batches(rest)), Wire(e.changes))
                else ClientRows(v, rows, Batches(sent)) == ClientRows(v, rows, Batches(rest)))
  {
    var rest, e := sent[..|sent| - 1], sent[|sent| - 1];
    hide ClientRows, Store.ApplyAll, Store.AllApplicable, Wire;
    if e.Batch? {
      ClientRowsOne(v, rows, Batches(rest), e);
    } else {
      assert Batches(sent) == Batches(rest);
    }
  }

  lemma {:induction false} EncodedOpens(text: LSN -> string, sent: seq<Event>, parts: seq<seq<Client.Event>>)
    requires EncodesAll(text, sent, parts) && CanStream(HubMode(sent))
    ensures OpensSnapshot(Concat(parts)) <==> Opened(sent)
    ensures Concat(parts) == [] <==> sent == []
  {
    if sent != [] {
      var n := |sent| - 1;
      assert Encodes(text, sent[n], parts[n]);
      if CanStream(HubMode(sent[..n])) {
        EncodedOpens(text, sent[..n], parts[..n]);
      } else {
        SnapshotOpens(text, sent[..n], parts[..n]);
      }
    }
  }

  lemma {:induction false} SnapshotOpens(text: LSN -> string, sent: seq<Event>, parts: seq<seq<Client.Event>>)
    requires EncodesAll(text, sent, parts) && HubMode(sent) == Some(InSnapshot)
    ensures OpensSnapshot(Concat(parts)) && Opened(sent)
  {
    var n := |sent| - 1;
    assert Encodes(text, sent[n], parts[n]);
    if HubMode(sent[..n]) == Some(InSnapshot) {
      SnapshotOpens(text, sent[..n], parts[..n]);
    } else {
      assert sent[n].SnapshotBegin? && HubMode(sent[..n]) == Some(Unopened);
      UnopenedUnsent(sent[..n]);
    }
  }

  lemma UnopenedUnsent(sent: seq<Event>)
    requires HubMode(sent) == Some(Unopened)
    ensures sent == []
  {
  }

  lemma Carried(text: LSN -> string, sent: seq<Event>, parts: seq<seq<Client.Event>>)
    requires EncodesAll(text, sent, parts)
    ensures CarriesAll(sent, parts)
  {
    hide Carries;
    forall i | 0 <= i < |sent| ensures Carries(sent[i], parts[i]) { assert Encodes(text, sent[i], parts[i]); }
  }

  // The pages a watcher was sent, one to each SnapshotRows.
  function PagesOf(sent: seq<Event>): seq<seq<Row>> {
    if sent == [] then []
    else
      var e := sent[|sent| - 1];
      PagesOf(sent[..|sent| - 1]) + if e.SnapshotRows? then [e.rows] else []
  }

  lemma {:induction false} RowsBoth(a: seq<Client.Event>, b: seq<Client.Event>)
    ensures Client.RowsOf(a + b) == Client.RowsOf(a) + Client.RowsOf(b)
  {
    if b == [] {
      assert a + b == a;
    } else {
      var n := |b| - 1;
      RowsBoth(a, b[..n]);
      assert (a + b)[..|a + b| - 1] == a + b[..n];
    }
  }

  // The rows in a stream's messages are those of the pages, in order.
  lemma {:induction false} EncodedRows(text: LSN -> string, sent: seq<Event>, parts: seq<seq<Client.Event>>)
    requires EncodesAll(text, sent, parts)
    ensures Client.RowsOf(Concat(parts)) == Concat(PagesOf(sent))
  {
    ConcatNone<Client.Event>();
    ConcatNone<Row>();
    if sent != [] {
      var n := |sent| - 1;
      var e, part := sent[n], parts[n];
      assert Encodes(text, e, part);
      assert EncodesAll(text, sent[..n], parts[..n]);
      EncodedRows(text, sent[..n], parts[..n]);
      RowsBoth(Concat(parts[..n]), part);
      if e.SnapshotRows? {
        ConcatOneMore(PagesOf(sent[..n]), e.rows);
      } else {
        assert part == [part[0]] && part[..0] == [] && Client.RowsOf(part) == [];
        assert PagesOf(sent) == PagesOf(sent[..n]);
      }
    }
  }

  // A client whose connection is cut

  lemma {:induction false} ModePrefix(received: seq<Event>, sent: seq<Event>)
    requires received <= sent && HubMode(sent).Some?
    ensures HubMode(received).Some?
  {
    if |received| < |sent| {
      ModePrefix(received, sent[..|sent| - 1]);
    } else {
      assert received == sent;
    }
  }

  // A cut after a Batch or a Progress is past the snapshot.
  lemma CutStreams(log: seq<Transaction>, s: System, w: WatcherId, received: seq<Event>, cursor: LSN)
    requires Reachable(s) && w in s.programs && Cut(log, s.programs[w], received, cursor)
    ensures HubMode(received) == Some(Streaming) && (Opened(received) <==> Opened(s.programs[w].sent))
    ensures StartedRight(s.programs[w])
  {
    hide Reachable;
    WatchFollowsGrammar(s, w);
    var sent := s.programs[w].sent;
    if received <= sent {
      ModePrefix(received, sent);
    } else {
      Sent(sent, Watch.Progress(cursor));
    }
  }

  ghost predicate EndsAt(received: seq<Event>, cursor: LSN) {
    received != [] &&
    match received[|received| - 1]
    case Batch(at, _) => at == cursor
    case Progress(at) => at == cursor
    case _ => false
  }

  // The last message leaves its cursor in the store, and a Progress its position
  // reported fresh.
  lemma LastCursor(v: Scoped, text: LSN -> string, received: seq<Event>, parts: seq<seq<Client.Event>>,
                   client: Client.State, cursor: LSN)
    requires EncodesAll(text, received, parts) && EndsAt(received, cursor)
    requires Client.HandledAll(v.primaryKey, client, Concat(parts)).1.None?
    ensures var now := Client.HandledAll(v.primaryKey, client, Concat(parts)).0;
            && now.cursor == text(cursor)
            && (received[|received| - 1].Progress? ==> now.status == Client.Status(true, text(cursor)))
  {
    var n := |received| - 1;
    assert Encodes(text, received[n], parts[n]);
    var messages, before := Concat(parts), Concat(parts[..n]);
    assert messages == before + [parts[n][0]] && messages[..|messages| - 1] == before;
    var (was, end) := Client.HandledAll(v.primaryKey, client, before);
    hide Client.HandledAll, EncodesAll, Encodes;
    CursorEffect(v.primaryKey, was, parts[n][0]);
    hide Client.Handled;
  }

  lemma CursorEffect(primaryKey: seq<string>, s: Client.State, e: Client.Event)
    requires e.Batch? || e.Progress?
    ensures var (now, end) := Client.Handled(primaryKey, s, e);
            end.None? ==> now.cursor == e.cursor && (e.Progress? ==> now.status == Client.Status(true, e.cursor))
  {
    hide Store.ApplyAll;
  }

  lemma AtCut(v: Scoped, text: LSN -> string, received: seq<Event>, parts: seq<seq<Client.Event>>,
              client: Client.State, cursor: LSN)
    requires EncodesAll(text, received, parts) && HubMode(received) == Some(Streaming) && EndsAt(received, cursor)
    requires BatchesKeyed(v, Batches(received)) && client.writer.None?
    requires Store.AllKeyed(v.primaryKey, Concat(PagesOf(received)))
    ensures var (now, end) := Client.HandledAll(v.primaryKey, client, Concat(parts));
            var base := if Opened(received) then Store.PutAll(v.primaryKey, map[], Concat(PagesOf(received)))
                        else client.rows;
            && end.None? && now.rows == ClientRows(v, base, Batches(received)) && now.cursor == text(cursor)
            && (received[|received| - 1].Progress? ==> now.status == Client.Status(true, text(cursor)))
  {
    hide EncodesAll, CarriesAll, BatchesKeyed, ClientRows, Client.RowsOf, Store.AllKeyed, Store.PutAll, HubMode,
         Batches, Concat, Opened, ClientMode, Applied, OpensSnapshot, Appliable, CanStream, PagesOf, EndsAt,
         Client.HandledAll;
    var messages := Concat(parts);
    EncodedRows(text, received, parts);
    Carried(text, received, parts);
    CarriedMode(received, parts);
    assert CanStream(HubMode(received)) by { StreamingStreams(); }
    EncodedOpens(text, received, parts);
    var base := if Opened(received) then Store.PutAll(v.primaryKey, map[], Client.RowsOf(messages)) else client.rows;
    EncodedBatches(v, text, base, received, parts);
    ClientTracks(v.primaryKey, client, messages);
    LastCursor(v, text, received, parts, client, cursor);
  }

  lemma StreamingStreams()
    ensures CanStream(Some(Streaming))
  {
  }

  lemma CutEnds(log: seq<Transaction>, pr: Program, received: seq<Event>, cursor: LSN)
    requires Cut(log, pr, received, cursor)
    ensures EndsAt(received, cursor)
  {
  }

  // A snapshot's rows reach the client: the pages it was sent are those of the
  // scanned scope, whose rows are what the covered transactions left.
  ghost predicate ScopeRead(v: Scoped, received: seq<Event>, scope: seq<Row>, covered: map<string, Row>) {
    && Concat(PagesOf(received)) == scope
    && Store.AllKeyed(v.primaryKey, scope) && Store.PutAll(v.primaryKey, map[], scope) == covered
  }

  // Freshness is true, from a snapshot. A client that receives a snapshot watch's
  // stream up to any Batch, or up to any Progress that skipped nothing, however rows
  // are split into messages, shows the source's history of the scope, covered
  // or through the cursor it then holds, in commit order; after a Progress it is
  // reported fresh there.
  lemma FreshFromSnapshot(x: Session, v: Scoped, snap: Snapshot, log: seq<Transaction>, scope: seq<Row>,
                          rows: map<string, Row>, text: LSN -> string, parts: seq<seq<Client.Event>>,
                          client: Client.State)
    requires WatchOf(x.s, x.w, v, NotCovered(snap), log) && Cut(log, x.s.programs[x.w], x.received, x.cursor)
    requires Keyed(v, log) && ConflictFree(v, snap, log) && Keyed(v, Covered(snap, log))
    requires ScopeRead(v, x.received, scope, Fold(v, rows, Covered(snap, log)))
    requires EncodesAll(text, x.received, parts) && client.writer.None?
    ensures var (now, end) := Client.HandledAll(v.primaryKey, client, Concat(parts));
            && Keyed(v, Selected(snap, log, x.cursor))
            && end.None? && now.rows == Fold(v, rows, Selected(snap, log, x.cursor)) && now.cursor == text(x.cursor)
            && x.received != []
            && (x.received[|x.received| - 1].Progress? ==> now.status == Client.Status(true, text(x.cursor)))
  {
    var pr := x.s.programs[x.w];
    CutEnds(log, pr, x.received, x.cursor);
    CutStreams(log, x.s, x.w, x.received, x.cursor);
    assert x.received != [] && pr.start == Some(pr.start.value) && pr.start.value.need == NotCovered(snap);
    assert Opened(x.received);
    hide WatchOf, Cut, KeyedPart, ConflictFree, Fold, ClientRows, Batches, Selected, Covered, BatchesKeyed,
         EncodesAll, EndsAt, Client.HandledAll, Store.AllKeyed, Store.PutAll, HubMode, Concat, Opened, PagesOf;
    SnapshotConverges(x.s, x.w, v, snap, log, x.received, x.cursor, rows);
    AtCut(v, text, x.received, parts, client, x.cursor);
  }

  // A stream that did not open with a snapshot carries no pages.
  lemma {:induction false} ResumedPageless(sent: seq<Event>)
    requires CanStream(HubMode(sent)) && !Opened(sent)
    ensures PagesOf(sent) == []
  {
    if sent != [] {
      var n := |sent| - 1;
      if HubMode(sent[..n]) == Some(InSnapshot) { InSnapshotOpened(sent[..n]); }
      ResumedPageless(sent[..n]);
    }
  }

  // Freshness is true, after any number of resumes. A client that holds what was
  // selected at a snapshot watch's cursor with everything after it replayed through
  // `from`, and resumes from there, holds the same through the cursor at which its
  // connection is cut: the whole history once that has passed every covered
  // transaction.
  lemma FreshFromResume(x: Session, v: Scoped, snap: Snapshot, log: seq<Transaction>, cursor: LSN, from: LSN,
                        rows: map<string, Row>, text: LSN -> string, parts: seq<seq<Client.Event>>,
                        client: Client.State)
    requires Resumed(x, v, from, log) && x.received != []
    requires Keyed(v, log) && ConflictFree(v, snap, log) && CutsCleanly(v, snap, log, cursor)
    requires cursor <= from && (from == cursor || IsCommit(log, from))
    requires Keyed(v, Selected(snap, log, cursor))
    requires Keyed(v, Needed(AfterCursor(cursor), Progress.Through(log, from)))
    requires client.rows == Replayed(v, rows, snap, log, cursor, from)
    requires EncodesAll(text, x.received, parts) && client.writer.None?
    ensures var (now, end) := Client.HandledAll(v.primaryKey, client, Concat(parts));
            var through := Progress.Through(log, x.cursor);
            && Keyed(v, Needed(AfterCursor(cursor), through)) && Keyed(v, through)
            && end.None? && now.rows == Replayed(v, rows, snap, log, cursor, x.cursor) && now.cursor == text(x.cursor)
            && (x.received[|x.received| - 1].Progress? ==> now.status == Client.Status(true, text(x.cursor)))
            && ((forall t :: t in log && Covers(snap, t) ==> t.cursor <= x.cursor) ==>
                  now.rows == Fold(v, rows, through))
  {
    var pr := x.s.programs[x.w];
    CutEnds(log, pr, x.received, x.cursor);
    CutStreams(log, x.s, x.w, x.received, x.cursor);
    assert pr.start == Some(pr.start.value) && pr.start.value.need == AfterCursor(from);
    assert !Opened(x.received);
    assert SourceOrdered(log);
    StreamingStreams();
    ResumedPageless(x.received);
    ConcatNone<Row>();
    assert Store.AllKeyed(v.primaryKey, []);
    hide Resumed, Cut, KeyedPart, ConflictFree, Fold, ClientRows, Batches, Selected, Covers, BatchesKeyed,
         EncodesAll, EndsAt, Client.HandledAll, Store.AllKeyed, Store.PutAll, HubMode, Concat, Opened, PagesOf,
         Progress.Through, CutsCleanly, SourceOrdered, Needed, Replayed;
    ReplayedOn(x, v, snap, log, cursor, from, rows);
    SelectedKeyed(v, snap, log, x.cursor);
    ResumedExact(x, v, from, log);
    AtCut(v, text, x.received, parts, client, x.cursor);
    if forall t :: t in log && Covers(snap, t) ==> t.cursor <= x.cursor {
      ReplayReaches(v, rows, snap, log, cursor, x.cursor);
    }
  }

  // A client's streams, one after another

  // The client once a stream has ended and Sync has set its state.
  function Streamed(primaryKey: seq<string>, client: Client.State, messages: seq<Client.Event>): Client.State {
    var s := Client.HandledAll(primaryKey, client.(progressed := false), messages).0;
    Client.Reported(Client.Ended(s), Client.Status(false, s.status.cursor))
  }

  function StreamedAll(primaryKey: seq<string>, client: Client.State, streams: seq<seq<Client.Event>>): Client.State {
    if streams == [] then client
    else
      var n := |streams| - 1;
      Streamed(primaryKey, StreamedAll(primaryKey, client, streams[..n]), streams[n])
  }

  ghost predicate Encoded(text: LSN -> string, received: seq<Event>, messages: seq<Client.Event>) {
    exists parts :: EncodesAll(text, received, parts) && Concat(parts) == messages
  }

  lemma NothingReplayed(v: Scoped, rows: map<string, Row>, snap: Snapshot, log: seq<Transaction>, cursor: LSN)
    requires SourceOrdered(log) && Keyed(v, Selected(snap, log, cursor))
    ensures Needed(AfterCursor(cursor), Progress.Through(log, cursor)) == []
    ensures Replayed(v, rows, snap, log, cursor, cursor) == Fold(v, rows, Selected(snap, log, cursor))
  {
    Progress.ThroughIs(log, cursor);
    var through := Progress.Through(log, cursor);
    NeededAfter(through, cursor, |through|);
  }

  // One more stream of a chain.
  lemma StreamShown(x: Session, v: Scoped, snap: Snapshot, log: seq<Transaction>, cursor: LSN, from: LSN,
                    rows: map<string, Row>, text: LSN -> string, messages: seq<Client.Event>, client: Client.State)
    requires Resumed(x, v, from, log)
    requires Keyed(v, log) && ConflictFree(v, snap, log) && CutsCleanly(v, snap, log, cursor)
    requires cursor <= from && (from == cursor || IsCommit(log, from))
    requires Keyed(v, Selected(snap, log, cursor))
    requires Keyed(v, Needed(AfterCursor(cursor), Progress.Through(log, from)))
    requires client.rows == Replayed(v, rows, snap, log, cursor, from) && client.cursor == text(from)
    requires Encoded(text, x.received, messages) && client.writer.None?
    ensures var now := Streamed(v.primaryKey, client, messages);
            && Keyed(v, Needed(AfterCursor(cursor), Progress.Through(log, x.cursor)))
            && now.writer.None? && now.rows == Replayed(v, rows, snap, log, cursor, x.cursor)
            && now.cursor == text(x.cursor)
  {
    hide KeyedPart, ConflictFree, CutsCleanly, Replayed, Selected, Needed, Progress.Through, Covers, IsCommit;
    var parts :| EncodesAll(text, x.received, parts) && Concat(parts) == messages;
    if x.received == [] {
      ConcatNone<Client.Event>();
    } else {
      FreshFromResume(x, v, snap, log, cursor, from, rows, text, parts, client.(progressed := false));
    }
    hide Resumed, EncodesAll, Concat, Encoded;
  }

  // Over any number of reconnections, each cut after any message, the application
  // is shown what the snapshot watch's cursor selected with everything after it
  // replayed, and the store resumes from the cursor that goes with it.
  lemma {:induction false} ChainShown(v: Scoped, snap: Snapshot, log: seq<Transaction>, cursor: LSN,
                                      sessions: seq<Session>, rows: map<string, Row>, text: LSN -> string,
                                      streams: seq<seq<Client.Event>>, client: Client.State)
    requires Chain(v, log, cursor, sessions) && |streams| == |sessions| && SourceOrdered(log)
    requires Keyed(v, log) && ConflictFree(v, snap, log) && CutsCleanly(v, snap, log, cursor)
    requires Keyed(v, Selected(snap, log, cursor)) && client.writer.None?
    requires client.rows == Fold(v, rows, Selected(snap, log, cursor)) && client.cursor == text(cursor)
    requires forall i :: 0 <= i < |sessions| ==> Encoded(text, sessions[i].received, streams[i])
    ensures var now, held := StreamedAll(v.primaryKey, client, streams), Held(cursor, sessions);
            && Keyed(v, Needed(AfterCursor(cursor), Progress.Through(log, held)))
            && now.writer.None? && now.rows == Replayed(v, rows, snap, log, cursor, held) && now.cursor == text(held)
  {
    hide Resumed, KeyedPart, ConflictFree, CutsCleanly, Fold, Replayed, Selected, Needed, Progress.Through, Encoded,
         Streamed, SourceOrdered, IsCommit;
    if sessions == [] {
      NothingReplayed(v, rows, snap, log, cursor);
      assert Keyed(v, []);
    } else {
      var n := |sessions| - 1;
      ChainShown(v, snap, log, cursor, sessions[..n], rows, text, streams[..n], client);
      ChainExact(v, log, cursor, sessions[..n]);
      StreamShown(sessions[n], v, snap, log, cursor, Held(cursor, sessions[..n]), rows, text, streams[n],
                  StreamedAll(v.primaryKey, client, streams[..n]));
    }
  }

  // A whole Sync: a snapshot's stream and then any number of resumed ones, each cut
  // after any message and encoded in any way. The application is shown exactly what
  // was covered or ended by the first cut, with everything after it replayed through
  // the cursor the store holds: the source's whole history through that cursor, once
  // it has passed every covered transaction.
  lemma SyncConverges(first: Session, v: Scoped, snap: Snapshot, log: seq<Transaction>, scope: seq<Row>,
                      sessions: seq<Session>, rows: map<string, Row>, text: LSN -> string,
                      opening: seq<Client.Event>, streams: seq<seq<Client.Event>>, client: Client.State)
    requires WatchOf(first.s, first.w, v, NotCovered(snap), log)
    requires Cut(log, first.s.programs[first.w], first.received, first.cursor)
    requires Keyed(v, log) && ConflictFree(v, snap, log) && Keyed(v, Covered(snap, log))
    requires ScopeRead(v, first.received, scope, Fold(v, rows, Covered(snap, log)))
    requires Chain(v, log, first.cursor, sessions) && |streams| == |sessions|
    requires Encoded(text, first.received, opening) && client.writer.None?
    requires forall i :: 0 <= i < |sessions| ==> Encoded(text, sessions[i].received, streams[i])
    ensures var now := StreamedAll(v.primaryKey, Streamed(v.primaryKey, client, opening), streams);
            var held := Held(first.cursor, sessions);
            var through := Progress.Through(log, held);
            && Keyed(v, Selected(snap, log, first.cursor)) && Keyed(v, through)
            && Keyed(v, Needed(AfterCursor(first.cursor), through))
            && now.cursor == text(held) && now.rows == Replayed(v, rows, snap, log, first.cursor, held)
            && ((forall t :: t in log && Covers(snap, t) ==> t.cursor <= held) ==> now.rows == Fold(v, rows, through))
  {
    hide KeyedPart, ConflictFree, CutsCleanly, Fold, Replayed, Selected, Needed, Progress.Through, Covers, Covered,
         WatchOf, Cut, Chain, ScopeRead, StreamedAll, EncodesAll;
    assert SourceOrdered(log) by { WatchOrdered(first.s, first.w, v, NotCovered(snap), log); }
    var parts :| EncodesAll(text, first.received, parts) && Concat(parts) == opening;
    hide Encoded, Concat, SourceOrdered;
    FreshFromSnapshot(first, v, snap, log, scope, rows, text, parts, client.(progressed := false));
    SnapshotCutsCleanly(first.s, first.w, v, snap, log, first.received, first.cursor);
    var start := Streamed(v.primaryKey, client, opening);
    ChainShown(v, snap, log, first.cursor, sessions, rows, text, streams, start);
    ChainExact(v, log, first.cursor, sessions);
    SelectedKeyed(v, snap, log, Held(first.cursor, sessions));
    if forall t :: t in log && Covers(snap, t) ==> t.cursor <= Held(first.cursor, sessions) {
      ReplayReaches(v, rows, snap, log, first.cursor, Held(first.cursor, sessions));
    }
  }

  // What sendRows makes of a page encodes it.

  function Plain(message: seq<Paging.Converted>): (r: seq<Row>)
    ensures |r| == |message| && forall i :: 0 <= i < |message| ==> r[i] == message[i].row
  {
    seq(|message|, i requires 0 <= i < |message| => message[i].row)
  }

  function RowMessages(messages: seq<seq<Paging.Converted>>): (r: seq<Client.Event>)
    ensures |r| == |messages|
  {
    seq(|messages|, i requires 0 <= i < |messages| => Client.SnapshotRows(Plain(messages[i])))
  }

  lemma {:induction false} RowMessagesHold(messages: seq<seq<Paging.Converted>>)
    ensures Client.RowsOf(RowMessages(messages)) == Plain(Concat(messages))
  {
    if messages != [] {
      var n := |messages| - 1;
      RowMessagesHold(messages[..n]);
      assert RowMessages(messages)[..n] == RowMessages(messages[..n]);
      assert Plain(Concat(messages)) == Plain(Concat(messages[..n])) + Plain(messages[n]);
    }
  }

  lemma PageEncodes(text: LSN -> string, page: seq<Row>, size: Row -> nat, messages: seq<seq<Paging.Converted>>)
    requires Concat(messages) == Paging.Encoded(page, size)
    ensures Encodes(text, Watch.SnapshotRows(page), RowMessages(messages))
  {
    RowMessagesHold(messages);
    assert Plain(Paging.Encoded(page, size)) == page;
  }
}
