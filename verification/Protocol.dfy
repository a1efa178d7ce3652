// The event stream as a protocol (internal/watch/event.go): one grammar, which
// everything Hub.Watch sends follows and which the SDK accepts
// (internal/watch/hub.go, internal/server/server.go, sdk/go/watchd/client.go).
module Protocol {
  import opened Cdc
  import HubSpec
  import opened Watch
  import opened WatchInvariant
  import Client
  import opened Sequences
  import Store

  datatype Kind = Begins | Rows | Ends | Changes | Confirms | Restarts

  // Nothing sent; inside a snapshot; past it, or resumed; ended by a Resync.
  datatype Mode = Unopened | InSnapshot | Streaming | Over

  function Advance(m: Mode, k: Kind): Option<Mode> {
    match k
    case Begins => if m.Unopened? then Some(InSnapshot) else None
    case Rows => if m.InSnapshot? then Some(InSnapshot) else None
    case Ends => if m.InSnapshot? then Some(Streaming) else None
    case Restarts => if m.Over? then None else Some(Over)
    case _ => if m.Unopened? || m.Streaming? then Some(Streaming) else None
  }

  function HubKind(e: Event): Kind {
    match e
    case SnapshotBegin => Begins
    case SnapshotRows(_) => Rows
    case SnapshotEnd => Ends
    case Batch(_, _) => Changes
    case Progress(_) => Confirms
    case Resync(_) => Restarts
  }

  // Where a sequence of events leaves the grammar, if it is in it.
  function HubMode(events: seq<Event>): Option<Mode> {
    if events == [] then Some(Unopened)
    else
      match HubMode(events[..|events| - 1])
      case None => None
      case Some(m) => Advance(m, HubKind(events[|events| - 1]))
  }

  lemma Sent(events: seq<Event>, e: Event)
    ensures HubMode(events + [e]) ==
            match HubMode(events)
            case None => None
            case Some(m) => Advance(m, HubKind(e))
  {
    assert (events + [e])[..|events|] == events;
  }

  predicate CanStream(m: Option<Mode>) {
    m == Some(Unopened) || m == Some(Streaming)
  }

  predicate Opened(sent: seq<Event>) {
    sent != [] && sent[0].SnapshotBegin?
  }

  // A stream inside a snapshot opened with one.
  lemma {:induction false} InSnapshotOpened(events: seq<Event>)
    requires HubMode(events) == Some(InSnapshot)
    ensures Opened(events)
  {
    var n := |events| - 1;
    if HubMode(events[..n]) == Some(InSnapshot) { InSnapshotOpened(events[..n]); }
  }

  // A watcher's stream opened with a snapshot exactly if it did not resume.
  ghost predicate StartedRight(pr: Program) {
    pr.start.Some? ==> (pr.start.value.need.NotCovered? <==> Opened(pr.sent))
  }

  ghost predicate Snapshotting(pr: Program) {
    pr.start.Some? ==> pr.start.value.need.NotCovered?
  }

  // What a watcher has sent, by where it stands.
  ghost predicate Follows(pr: Program) {
    match pr.place
    case BeginningSnapshot => pr.sent == [] && pr.start.None?
    case SendingOwed(pending) => CanStream(HubMode(pr.sent)) && AllBatches(pending) && StartedRight(pr)
    case Returning => HubMode(pr.sent).Some? && StartedRight(pr)
    case Finished => HubMode(pr.sent).Some? && StartedRight(pr)
    case _ => if InLive(pr.place) then CanStream(HubMode(pr.sent)) && StartedRight(pr)
              else HubMode(pr.sent) == Some(InSnapshot) && Snapshotting(pr)
  }

  lemma SendFollows(pr: Program, e: Event, ok: bool, next: Place)
    requires HubMode(pr.sent).Some? && Advance(HubMode(pr.sent).value, HubKind(e)).Some?
    ensures var r := Send(pr, e, ok, next);
            && (if ok then r.place == next && HubMode(r.sent) == Advance(HubMode(pr.sent).value, HubKind(e))
                else r.place == Returning && HubMode(r.sent) == HubMode(pr.sent))
  {
    Sent(pr.sent, e);
  }

  lemma ReadFollows(pr: Program, result: ReadResult, ok: bool)
    requires HubMode(pr.sent) == Some(InSnapshot) && Snapshotting(pr)
    ensures Follows(AfterRead(pr, result, ok))
  {
    hide HubMode;
    InSnapshotOpened(pr.sent);
    match result
    case WindowClosed => SendFollows(pr, Resync(HubSpec.SnapshotWindowClosed), ok, Returning);
    case Stopped => SendFollows(pr, Resync(HubSpec.SourceStopped), ok, Returning);
    case _ =>
  }

  lemma EndFollows(pr: Program, ok: bool)
    requires HubMode(pr.sent) == Some(InSnapshot) && pr.start.Some? && Snapshotting(pr)
    ensures Follows(Send(pr, SnapshotEnd, ok, SendingOwed(Owed(pr.projection, pr.scope, pr.start.value, pr.past))))
  {
    InSnapshotOpened(pr.sent);
    hide HubMode;
    DeliverBatches(pr.projection, pr.scope, pr.start.value.need, pr.past.ringAt);
    SendFollows(pr, SnapshotEnd, ok, SendingOwed(Owed(pr.projection, pr.scope, pr.start.value, pr.past)));
  }

  // Within a snapshot, moving on sends nothing.
  lemma MoveFollows(pr: Program, next: Place)
    requires HubMode(pr.sent) == Some(InSnapshot) && Snapshotting(pr)
    requires next.ClearingStale? || next.RecordingSnapshot? || next.EndingSnapshot?
    ensures Follows(pr.(place := next))
  {
    hide HubMode;
  }

  lemma BeginFollows(pr: Program, ok: bool)
    requires pr.sent == [] && pr.start.None?
    ensures Follows(Send(pr, SnapshotBegin, ok, ReadingRows))
  {
    EmptyMode();
    hide HubMode;
    SendFollows(pr, SnapshotBegin, ok, ReadingRows);
  }

  lemma RowsFollow(pr: Program, rows: seq<Row>, ok: bool)
    requires HubMode(pr.sent) == Some(InSnapshot) && Snapshotting(pr)
    ensures Follows(Send(pr, SnapshotRows(rows), ok, ReadingRows))
  {
    InSnapshotOpened(pr.sent);
    hide HubMode;
    SendFollows(pr, SnapshotRows(rows), ok, ReadingRows);
  }

  lemma RefusedFollows(pr: Program, reason: HubSpec.ResyncReason, ok: bool)
    requires HubMode(pr.sent) == Some(InSnapshot) && Snapshotting(pr)
    ensures Follows(SendLast(pr, Resync(reason), ok))
  {
    InSnapshotOpened(pr.sent);
    hide HubMode;
    SendFollows(pr, Resync(reason), ok, Returning);
  }

  lemma SnapshotFollows(s: System, w: HubSpec.WatcherId, a: Action)
    requires CanAct(s, w, a) && Follows(s.programs[w])
    requires !InLive(s.programs[w].place) && !s.programs[w].place.SendingOwed?
    ensures Follows(ActOnProgram(s, w, a))
  {
    var pr := s.programs[w];
    hide HubMode, Owed, AfterRead, AllBatches, CanStream, Send;
    match pr.place {
      case BeginningSnapshot => BeginFollows(pr, a.ok);
      case ReadingRows =>
        if a.SendRows? { RowsFollow(pr, a.rows, a.ok); } else { ReadFollows(pr, a.result, a.ok); }
      case RowsRead =>
        if s.hub.info[w].overflow.Some? { RefusedFollows(pr, s.hub.info[w].overflow.value, a.ok); }
        else { MoveFollows(pr, ClearingStale); }
      case ClearingStale => MoveFollows(pr, RecordingSnapshot);
      case RecordingSnapshot => MoveFollows(pr, EndingSnapshot);
      case EndingSnapshot => EndFollows(pr, a.ok);
      case _ =>
    }
  }

  lemma EmptyMode()
    ensures HubMode([]) == Some(Unopened)
  {
  }

  lemma OwedFollows(pr: Program, pending: seq<Event>, ok: bool)
    requires CanStream(HubMode(pr.sent)) && AllBatches(pending) && StartedRight(pr)
    ensures Follows(SendOwed(pr, pending, ok))
  {
    hide HubMode;
    if pending != [] { SendFollows(pr, pending[0], ok, SendingOwed(pending[1..])); }
  }

  lemma TakeFollows(pr: Program, item: HubSpec.Queued, ok: bool)
    requires CanStream(HubMode(pr.sent)) && pr.place.Draining? && pr.start.Some? && StartedRight(pr)
    ensures Follows(TakeItem(pr, item, ok))
  {
    hide HubMode, Needs;
    Sent(pr.sent, Batch(item.transaction.cursor, item.changes));
  }

  lemma ReportFollows(pr: Program, ok: bool)
    requires CanStream(HubMode(pr.sent)) && StartedRight(pr)
    ensures Follows(Report(pr, ok))
  {
    hide HubMode;
    Sent(pr.sent, Progress(pr.sample.position));
  }

  lemma WakeFollows(pr: Program, wakeup: Wakeup, overflow: Option<HubSpec.ResyncReason>, ok: bool)
    requires CanStream(HubMode(pr.sent)) && StartedRight(pr) && (wakeup.Overflow? ==> overflow.Some?)
    ensures Follows(WakeUp(pr, wakeup, overflow, ok))
  {
    hide HubMode;
    if overflow.Some? { SendFollows(pr, Resync(overflow.value), ok, Returning); }
    SendFollows(pr, Resync(HubSpec.SourceStopped), ok, Returning);
  }

  lemma LiveFollows(s: System, w: HubSpec.WatcherId, a: Action)
    requires CanAct(s, w, a) && Follows(s.programs[w])
    requires InLive(s.programs[w].place) || s.programs[w].place.SendingOwed?
    ensures Follows(ActOnProgram(s, w, a))
  {
    var pr := s.programs[w];
    hide HubMode, CanStream, AllBatches, SendOwed, TakeItem, Report, WakeUp, SamplePosition;
    match pr.place {
      case SendingOwed(pending) => OwedFollows(pr, pending, a.ok);
      case Draining => if a.Take? { TakeFollows(pr, s.hub.info[w].queue[0], a.ok); }
      case Reporting => ReportFollows(pr, a.ok);
      case Waiting => WakeFollows(pr, a.wakeup, s.hub.info[w].overflow, a.ok);
      case _ =>
    }
  }

  lemma EnterFollows(h: HubSpec.HubState, w: HubSpec.WatcherId, p: HubSpec.Projection, scope: string,
                     cursor: Option<LSN>, sawStopped: bool, ok: bool)
    ensures Follows(EnterHub(h, w, p, scope, cursor, sawStopped, ok).1)
  {
    var pr := NewProgram(h, p, scope);
    EmptyMode();
    hide HubMode;
    SendFollows(pr, Resync(HubSpec.SourceStopped), ok, Finished);
    SendFollows(pr, Resync(HubSpec.SchemaChanged), ok, Finished);
    SendFollows(pr, Resync(HubSpec.CursorUnavailable), ok, Finished);
    if cursor.Some? { DeliverBatches(p, scope, AfterCursor(cursor.value), pr.past.ringAt); }
  }

  ghost predicate AllFollow(s: System) {
    forall w :: w in s.programs ==> Follows(s.programs[w])
  }

  lemma NextFollows(s: System, l: Step)
    requires AllFollow(s) && Enabled(s, l)
    ensures AllFollow(Next(s, l))
  {
    hide Follows, ActOnProgram, EnterHub, CanAct, HubSpec.Accept;
    match l {
      case AcceptStep(t) =>
        forall w | w in s.programs ensures Follows(Next(s, l).programs[w]) { OfferFollows(s, w, t); }
      case Enter(w, p, scope, cursor, sawStopped, ok) =>
        EnterFollows(s.hub, w, p, scope, cursor, sawStopped, ok);
      case Act(w, a) =>
        assert w in s.programs by { CanActKnown(s, w, a); }
        if InLive(s.programs[w].place) || s.programs[w].place.SendingOwed? {
          LiveFollows(s, w, a);
        } else {
          SnapshotFollows(s, w, a);
        }
      case _ =>
    }
  }

  lemma CanActKnown(s: System, w: HubSpec.WatcherId, a: Action)
    requires CanAct(s, w, a)
    ensures w in s.programs && w in s.hub.info
  {
  }

  lemma OfferFollows(s: System, w: HubSpec.WatcherId, t: Transaction)
    requires w in s.programs && Follows(s.programs[w]) && s.hub.watchers <= s.hub.info.Keys
    ensures Follows(Offer(s.hub, HubSpec.Accept(s.hub, t), w, s.programs[w]))
  {
    hide HubMode, HubSpec.Accept;
  }

  lemma {:induction false} RunFollows(s: System, steps: seq<Step>)
    requires AllFollow(s) && IsRun(s, steps)
    ensures AllFollow(Reached(s, steps))
  {
    if steps != [] {
      RunFollows(s, steps[..|steps| - 1]);
      NextFollows(Reached(s, steps[..|steps| - 1]), steps[|steps| - 1]);
    }
  }

  // Everything any watcher is ever sent, in any run, is in the grammar, and opens
  // with a snapshot exactly if the watcher did not resume. One about to report is
  // past its snapshot.
  lemma WatchFollowsGrammar(s: System, w: HubSpec.WatcherId)
    requires Reachable(s) && w in s.programs
    ensures HubMode(s.programs[w].sent).Some?
    ensures StartedRight(s.programs[w])
    ensures s.programs[w].place.Reporting? ==> CanStream(HubMode(s.programs[w].sent))
  {
    var maxReplay: nat, queueSize: nat, steps :|
      && maxReplay >= 1 && queueSize >= 1
      && IsRun(Initial(maxReplay, queueSize), steps) && Reached(Initial(maxReplay, queueSize), steps) == s;
    hide IsRun, Reached;
    RunFollows(Initial(maxReplay, queueSize), steps);
    assert Follows(s.programs[w]);
    if HubMode(s.programs[w].sent) == Some(InSnapshot) { InSnapshotOpened(s.programs[w].sent); }
    EmptyMode();
    hide HubMode;
  }

  // The stream messages that carry the events

  // One event's messages: rows are split as the server packs them, possibly into
  // none; every other event is one message.
  ghost predicate Carries(e: Event, messages: seq<Client.Event>) {
    match e
    case SnapshotBegin => messages == [Client.SnapshotBegin]
    case SnapshotRows(_) => forall i :: 0 <= i < |messages| ==> messages[i].SnapshotRows?
    case SnapshotEnd => messages == [Client.SnapshotEnd]
    case Batch(_, _) => |messages| == 1 && messages[0].Batch?
    case Progress(_) => |messages| == 1 && messages[0].Progress?
    case Resync(_) => messages == [Client.Resync]
  }

  ghost predicate CarriesAll(events: seq<Event>, parts: seq<seq<Client.Event>>) {
    |parts| == |events| && forall i :: 0 <= i < |events| ==> Carries(events[i], parts[i])
  }

  function ClientKind(e: Client.Event): Option<Kind> {
    match e
    case SnapshotBegin => Some(Begins)
    case SnapshotRows(_) => Some(Rows)
    case SnapshotEnd => Some(Ends)
    case Batch(_, _) => Some(Changes)
    case Progress(_) => Some(Confirms)
    case Resync => Some(Restarts)
    case Unrecognized => None
  }

  function ClientMode(messages: seq<Client.Event>): Option<Mode> {
    if messages == [] then Some(Unopened)
    else
      var before, k := ClientMode(messages[..|messages| - 1]), ClientKind(messages[|messages| - 1]);
      if before.None? || k.None? then None else Advance(before.value, k.value)
  }

  lemma Received(messages: seq<Client.Event>, e: Client.Event)
    ensures ClientMode(messages + [e]) ==
            if ClientMode(messages).None? || ClientKind(e).None? then None
            else Advance(ClientMode(messages).value, ClientKind(e).value)
  {
    assert (messages + [e])[..|messages|] == messages;
  }

  // Splitting rows does not leave the snapshot.
  lemma {:induction false} RowsStay(messages: seq<Client.Event>, part: seq<Client.Event>)
    requires ClientMode(messages) == Some(InSnapshot) && forall i :: 0 <= i < |part| ==> part[i].SnapshotRows?
    ensures ClientMode(messages + part) == Some(InSnapshot)
  {
    if part == [] {
      assert messages + part == messages;
    } else {
      var n := |part| - 1;
      RowsStay(messages, part[..n]);
      Received(messages + part[..n], part[n]);
      assert messages + part == (messages + part[..n]) + [part[n]];
    }
  }

  // The messages end where the events do.
  lemma {:induction false} CarriedMode(events: seq<Event>, parts: seq<seq<Client.Event>>)
    requires CarriesAll(events, parts) && HubMode(events).Some?
    ensures ClientMode(Concat(parts)) == HubMode(events)
  {
    if events != [] {
      var n := |events| - 1;
      CarriedMode(events[..n], parts[..n]);
      var before := Concat(parts[..n]);
      assert Carries(events[n], parts[n]);
      if events[n].SnapshotRows? {
        RowsStay(before, parts[n]);
      } else {
        Received(before, parts[n][0]);
        assert parts[n] == [parts[n][0]];
      }
    }
  }

  lemma {:induction false} PrefixMode(messages: seq<Client.Event>, n: nat)
    requires n <= |messages| && ClientMode(messages).Some?
    ensures ClientMode(messages[..n]).Some?
  {
    if n < |messages| {
      PrefixMode(messages[..|messages| - 1], n);
      assert messages[..|messages| - 1][..n] == messages[..n];
    } else {
      assert messages[..n] == messages;
    }
  }

  // The client's own check agrees with the grammar.
  lemma {:induction false} ClientAgrees(primaryKey: seq<string>, s: Client.State, messages: seq<Client.Event>)
    requires Client.Opening(s) && ClientMode(messages).Some?
    ensures var (s', end) := Client.HandledAll(primaryKey, s, messages);
            && end != Some(Client.ProtocolError)
            && (end.None? ==> (s'.writer.Some? <==> ClientMode(messages) == Some(InSnapshot)))
            && (end.None? ==> ClientMode(messages) != Some(Over))
  {
    if messages != [] {
      var n := |messages| - 1;
      ClientAgrees(primaryKey, s, messages[..n]);
      var (before, end) := Client.HandledAll(primaryKey, s, messages[..n]);
      if end.None? { WriterStep(primaryKey, before, messages[n]); }
      hide Client.Handled;
    }
  }

  lemma WriterStep(primaryKey: seq<string>, s: Client.State, e: Client.Event)
    ensures var (s', end) := Client.Handled(primaryKey, s, e);
            match ClientKind(e)
            case None => end == Some(Client.ProtocolError)
            case Some(k) =>
              && (end == Some(Client.ProtocolError) <==>
                    if k == Rows || k == Ends then s.writer.None?
                    else (k == Changes || k == Confirms) && s.writer.Some?)
              && (end.None? ==> k != Restarts && (s'.writer.Some? <==> k == Begins || k == Rows))
  {
    hide Store.ApplyAll, Store.PutAll, Store.AllKeyed, Client.ApplicableUpTo;
  }

  // Protocol composition: whatever any watcher has been sent in any run, however
  // the server splits it into messages and wherever the connection is cut, the
  // SDK raises no protocol error on it.
  lemma NoProtocolError(s: System, w: HubSpec.WatcherId, parts: seq<seq<Client.Event>>, n: nat,
                        primaryKey: seq<string>, client: Client.State)
    requires Reachable(s) && w in s.programs && CarriesAll(s.programs[w].sent, parts)
    requires n <= |Concat(parts)| && Client.Opening(client)
    ensures Client.HandledAll(primaryKey, client, Concat(parts)[..n]).1 != Some(Client.ProtocolError)
  {
    hide Reachable, HubMode, ClientMode, CarriesAll, Concat, Client.HandledAll;
    WatchFollowsGrammar(s, w);
    CarriedMode(s.programs[w].sent, parts);
    PrefixMode(Concat(parts), n);
    ClientAgrees(primaryKey, client, Concat(parts)[..n]);
  }
}
