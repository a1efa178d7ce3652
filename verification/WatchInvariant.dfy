// What holds of the hub and of every watcher in every reachable state, whatever
// the interleaving.
module WatchInvariant {
  import opened Cdc
  import opened HubSpec
  import opened HubInvariant
  import opened Watch

  // What a stretch of the log puts in a watcher's queue.
  function Items(p: Projection, scope: string, log: seq<Transaction>): seq<Queued> {
    if log == [] then []
    else
      var t := log[|log| - 1];
      Items(p, scope, log[..|log| - 1]) +
        if Relevant(p, scope, t) then [Queued(t, Changes(p, scope, t.changes))] else []
  }

  // What taking queue items makes live send.
  function DeliverItems(need: Need, items: seq<Queued>): seq<Event> {
    if items == [] then []
    else
      var q := items[|items| - 1];
      DeliverItems(need, items[..|items| - 1]) +
        if Needs(need, q.transaction) then [Batch(q.transaction.cursor, q.changes)] else []
  }

  function Batches(sent: seq<Event>): seq<Event> {
    if sent == [] then []
    else Batches(sent[..|sent| - 1]) + if sent[|sent| - 1].Batch? then [sent[|sent| - 1]] else []
  }

  function Progresses(sent: seq<Event>): seq<LSN> {
    if sent == [] then []
    else Progresses(sent[..|sent| - 1]) +
           if sent[|sent| - 1].Progress? then [sent[|sent| - 1].cursor] else []
  }

  ghost predicate Increasing(s: seq<LSN>) {
    forall i, j :: 0 <= i < j < |s| ==> s[i] < s[j]
  }

  lemma SentOne(sent: seq<Event>, e: Event)
    ensures Batches(sent + [e]) == Batches(sent) + if e.Batch? then [e] else []
    ensures Progresses(sent + [e]) == Progresses(sent) + if e.Progress? then [e.cursor] else []
  {
    assert (sent + [e])[..|sent|] == sent;
  }

  predicate InLive(place: Place) {
    place.Sampling? || place.Draining? || place.Reporting? || place.Waiting?
  }

  predicate HasSample(place: Place) {
    place.Draining? || place.Reporting? || place.Waiting?
  }

  // A watcher's queue and what it has taken are exactly its part of the log
  // since it registered, up to where the hub ended it.
  ghost predicate QueueInv(h: HubState, w: WatcherId, p: Projection, scope: string, past: Past) {
    && w in h.info && h.info[w].projection == p && h.info[w].scope == scope
    && past.joinedAt <= past.seenTo <= |h.accepted|
    && |past.ringAt| <= past.joinedAt
    && past.ringAt == h.accepted[past.joinedAt - |past.ringAt|..past.joinedAt]
    && past.taken + h.info[w].queue == Items(p, scope, h.accepted[past.joinedAt..past.seenTo])
    && |h.info[w].queue| <= h.queueSize
    && (w in h.watchers ==> past.seenTo == |h.accepted|)
    && (forall i :: past.joinedAt <= i < past.seenTo ==> p.table !in h.accepted[i].incompatible)
    && EndedFor(h, w, p, scope, past.seenTo)
  }

  // The hub ends a watcher only at a transaction it could not queue, or at one
  // that reported its table.
  ghost predicate EndedFor(h: HubState, w: WatcherId, p: Projection, scope: string, seenTo: nat)
    requires w in h.info
  {
    h.info[w].overflow.Some? ==>
      && w !in h.watchers && seenTo < |h.accepted|
      && (h.info[w].overflow.value.SlowWatcher? || h.info[w].overflow.value.SchemaChanged?)
      && (h.info[w].overflow.value.SlowWatcher? ==>
            Relevant(p, scope, h.accepted[seenTo]) && p.table !in h.accepted[seenTo].incompatible)
      && (h.info[w].overflow.value.SchemaChanged? ==> p.table in h.accepted[seenTo].incompatible)
  }

  // The batches a watcher has been sent, given what it is owed and has taken.
  function Due(pr: Program): seq<Event>
    requires pr.start.Some?
  {
    Owed(pr.projection, pr.scope, pr.start.value, pr.past) + DeliverItems(pr.start.value.need, pr.past.taken)
  }

  ghost predicate SentInv(pr: Program) {
    match pr.place
    case BeginningSnapshot => pr.start.None? && pr.past.taken == [] && Batches(pr.sent) == []
    case ReadingRows => pr.start.None? && pr.past.taken == [] && Batches(pr.sent) == []
    case SendingOwed(pending) =>
      pr.start.Some? && pr.past.taken == [] && Batches(pr.sent) + pending == Due(pr)
    case Returning => if pr.start.None? then Batches(pr.sent) == [] else Batches(pr.sent) <= Due(pr)
    case Finished => if pr.start.None? then Batches(pr.sent) == [] else Batches(pr.sent) <= Due(pr)
    case _ =>
      pr.start.Some? && if InLive(pr.place) then Batches(pr.sent) == Due(pr)
                        else pr.past.taken == [] && Batches(pr.sent) == []
  }

  // A resumed watcher's cursor is past everything that had left the ring.
  ghost predicate StartInv(log: seq<Transaction>, start: Option<Start>, past: Past)
    requires |past.ringAt| <= past.joinedAt <= |log|
  {
    start.Some? ==>
      match start.value.need
      case AfterCursor(cursor) =>
        && start.value.base == cursor && start.value.baseSafe
        && (forall i :: 0 <= i < past.joinedAt - |past.ringAt| ==> !After(log[i], cursor))
      case NotCovered(snapshot) => start.value.base == snapshot.cursor && !start.value.baseSafe
  }

  // The position is the cursor of one of the log's first n transactions, or the
  // base where live may fall back on it.
  ghost predicate PositionAt(log: seq<Transaction>, start: Start, sample: Sample, n: nat) {
    || (sample.position == start.base && (start.baseSafe || sample.at == 0))
    || (exists j :: 0 <= j < n && j < |log| && log[j].cursor == sample.position)
  }

  // While draining (n = seenTo) and once drained (n = drainedAt): the position is
  // at or past all the hub had at the sample and all that has been taken.
  ghost predicate PositionInv(log: seq<Transaction>, registered: bool, start: Option<Start>, past: Past,
                              sample: Sample, n: nat)
  {
    && start.Some? && sample.at <= |log| && past.joinedAt <= sample.at
    && (sample.at > 0 ==> sample.position >= log[sample.at - 1].cursor)
    && (start.value.baseSafe ==> sample.position >= start.value.base)
    && (forall q :: q in past.taken ==> q.transaction.cursor <= sample.position)
    && PositionAt(log, start.value, sample, Max(sample.at, n))
    && (if sample.registered then sample.at <= n else n <= sample.at && !registered)
  }

  ghost predicate DrainedInv(log: seq<Transaction>, p: Projection, scope: string, past: Past, sample: Sample) {
    && past.joinedAt <= sample.drainedAt <= past.seenTo <= |log|
    && (!sample.registered ==> sample.drainedAt == past.seenTo)
    && past.taken == Items(p, scope, log[past.joinedAt..sample.drainedAt])
  }

  ghost predicate LiveInv(log: seq<Transaction>, registered: bool, pr: Program) {
    && (pr.place.Draining? ==> PositionInv(log, registered, pr.start, pr.past, pr.sample, pr.past.seenTo))
    && (pr.place.Reporting? ==>
          && PositionInv(log, registered, pr.start, pr.past, pr.sample, pr.sample.drainedAt)
          && DrainedInv(log, pr.projection, pr.scope, pr.past, pr.sample))
  }

  ghost predicate ProgressInv(place: Place, first: bool, progressed: LSN, sent: seq<Event>) {
    var cursors := Progresses(sent);
    && Increasing(cursors)
    && (first <==> cursors == [])
    && (!first ==> cursors[|cursors| - 1] == progressed)
  }

  // No lost wake-up: a watcher's tick has been closed, is about to be by the
  // Accept that replaced it, or is current with nothing accepted since.
  ghost predicate WakeInv(s: System, sample: Sample) {
    || sample.tick in s.closed
    || s.owed == Some(sample.tick)
    || (sample.tick == s.hub.tick && s.hub.tickTaken && sample.at == |s.hub.accepted|)
  }

  ghost predicate JoinedInv(s: System, w: WatcherId, pr: Program) {
    && QueueInv(s.hub, w, pr.projection, pr.scope, pr.past)
    && SentInv(pr)
    && StartInv(s.hub.accepted, pr.start, pr.past)
    && LiveInv(s.hub.accepted, w in s.hub.watchers, pr)
    && ProgressInv(pr.place, pr.first, pr.progressed, pr.sent)
    && (HasSample(pr.place) ==> WakeInv(s, pr.sample))
  }

  ghost predicate ProgramInv(s: System, w: WatcherId, pr: Program) {
    if pr.joined then JoinedInv(s, w, pr)
    else pr.place.Finished? && Batches(pr.sent) == [] && Progresses(pr.sent) == []
  }

  // Ticks are closed in the order they were made, each by the Accept that
  // replaced it.
  ghost predicate TickInv(s: System) {
    && (forall k :: k in s.closed ==> k < s.hub.tick)
    && (s.owed.Some? ==> s.owed.value < s.hub.tick && s.owed.value !in s.closed)
  }

  ghost predicate SystemInv(s: System) {
    && HubInv(s.hub)
    && TickInv(s)
    && (forall w :: w in s.hub.info ==> w in s.programs && s.programs[w].joined)
    && (forall w :: w in s.programs ==> ProgramInv(s, w, s.programs[w]))
  }

  lemma {:induction false} DeliverConcat(p: Projection, scope: string, need: Need, a: seq<Transaction>,
                                         b: seq<Transaction>)
    ensures Deliver(p, scope, need, a + b) == Deliver(p, scope, need, a) + Deliver(p, scope, need, b)
  {
    if b == [] {
      assert a + b == a;
    } else {
      var n := |b| - 1;
      DeliverConcat(p, scope, need, a, b[..n]);
      assert (a + b)[..|a + b| - 1] == a + b[..n];
    }
  }

  lemma {:induction false} DeliverOfItems(p: Projection, scope: string, need: Need, log: seq<Transaction>)
    ensures DeliverItems(need, Items(p, scope, log)) == Deliver(p, scope, need, log)
  {
    if log != [] {
      var n := |log| - 1;
      DeliverOfItems(p, scope, need, log[..n]);
      if Relevant(p, scope, log[n]) {
        var items := Items(p, scope, log);
        assert items[..|items| - 1] == Items(p, scope, log[..n]);
      } else {
        assert Items(p, scope, log) == Items(p, scope, log[..n]);
      }
    }
  }

  lemma ItemsOneMore(p: Projection, scope: string, log: seq<Transaction>, from: nat, t: Transaction)
    requires from <= |log|
    ensures Items(p, scope, (log + [t])[from..|log| + 1]) == Items(p, scope, log[from..]) +
              if Relevant(p, scope, t) then [Queued(t, Changes(p, scope, t.changes))] else []
  {
    var more := (log + [t])[from..|log| + 1];
    assert more[..|more| - 1] == log[from..];
  }

  // Every item comes from a transaction of the log.
  lemma {:induction false} ItemFrom(p: Projection, scope: string, log: seq<Transaction>, q: Queued) returns (i: nat)
    requires q in Items(p, scope, log)
    ensures i < |log| && q == Queued(log[i], Changes(p, scope, log[i].changes)) && Relevant(p, scope, log[i])
  {
    var n := |log| - 1;
    if q in Items(p, scope, log[..n]) {
      i := ItemFrom(p, scope, log[..n], q);
    } else {
      i := n;
    }
  }

  // Accept

  // A registered watcher's queue grows by exactly the transaction's part.
  lemma AcceptQueues(h: HubState, t: Transaction, r: HubState, w: WatcherId,
                     p: Projection, scope: string, past: Past)
    requires r.accepted == h.accepted + [t] && r.queueSize == h.queueSize && w in r.info
    requires QueueInv(h, w, p, scope, past) && OfferedRight(h, t, r, w) && w in h.watchers && w in r.watchers
    ensures QueueInv(r, w, p, scope, past.(seenTo := |r.accepted|))
  {
    assert r.accepted[past.joinedAt - |past.ringAt|..past.joinedAt] == past.ringAt;
    assert h.accepted[past.joinedAt..] == h.accepted[past.joinedAt..past.seenTo];
    ItemsOneMore(p, scope, h.accepted, past.joinedAt, t);
    var more := if Relevant(p, scope, t) then [Queued(t, Changes(p, scope, t.changes))] else [];
    assert r.info[w].queue == h.info[w].queue + more;
    assert past.taken + r.info[w].queue == past.taken + h.info[w].queue + more;
  }

  // One that is not, or no longer, registered keeps what it had.
  lemma AcceptSkips(h: HubState, t: Transaction, r: HubState, w: WatcherId,
                    p: Projection, scope: string, past: Past)
    requires r.accepted == h.accepted + [t] && r.queueSize == h.queueSize && w in r.info
    requires QueueInv(h, w, p, scope, past) && OfferedRight(h, t, r, w) && !(w in h.watchers && w in r.watchers)
    ensures QueueInv(r, w, p, scope, past)
  {
    assert r.accepted[past.joinedAt - |past.ringAt|..past.joinedAt] == past.ringAt;
    assert r.accepted[past.joinedAt..past.seenTo] == h.accepted[past.joinedAt..past.seenTo];
    assert r.info[w].queue == h.info[w].queue;
  }

  lemma PositionGrows(log: seq<Transaction>, t: Transaction, start: Start, sample: Sample, n: nat, n': nat)
    requires n <= n' && PositionAt(log, start, sample, n)
    ensures PositionAt(log + [t], start, sample, n')
  {
    if !(sample.position == start.base && (start.baseSafe || sample.at == 0)) {
      var j :| 0 <= j < n && j < |log| && log[j].cursor == sample.position;
      assert (log + [t])[j].cursor == sample.position;
    }
  }

  lemma AcceptKeepsLive(h: HubState, t: Transaction, r: HubState, w: WatcherId, pr: Program)
    requires r.accepted == h.accepted + [t] && (w in r.watchers ==> w in h.watchers)
    requires w in h.watchers ==> pr.past.seenTo == |h.accepted|
    requires LiveInv(h.accepted, w in h.watchers, pr)
    ensures LiveInv(r.accepted, w in r.watchers, Offer(h, r, w, pr))
  {
    var pr' := Offer(h, r, w, pr);
    if pr.place.Draining? {
      PositionGrows(h.accepted, t, pr.start.value, pr.sample, Max(pr.sample.at, pr.past.seenTo),
                    Max(pr.sample.at, pr'.past.seenTo));
    } else if pr.place.Reporting? {
      PositionGrows(h.accepted, t, pr.start.value, pr.sample, Max(pr.sample.at, pr.sample.drainedAt),
                    Max(pr.sample.at, pr.sample.drainedAt));
      assert r.accepted[pr.past.joinedAt..pr.sample.drainedAt] == h.accepted[pr.past.joinedAt..pr.sample.drainedAt];
    }
  }

  // What has been sent does not depend on how far the log has been offered.
  lemma SentFrame(pr: Program, seenTo: nat)
    requires SentInv(pr)
    ensures SentInv(pr.(past := pr.past.(seenTo := seenTo)))
  {
    hide Batches, Deliver, DeliverItems;
  }

  lemma AcceptKeepsProgram(s: System, t: Transaction, s': System, w: WatcherId, pr: Program)
    requires Accepted(s.hub, t, s'.hub) && ProgramInv(s, w, pr)
    requires s'.closed == s.closed && s.owed.None?
    requires s'.owed == if s.hub.tickTaken then Some(s.hub.tick) else None
    ensures ProgramInv(s', w, Offer(s.hub, s'.hub, w, pr))
  {
    hide SentInv, LiveInv, ProgressInv;
    if pr.joined {
      assert OfferedRight(s.hub, t, s'.hub, w);
      if w in s.hub.watchers && w in s'.hub.watchers {
        AcceptQueues(s.hub, t, s'.hub, w, pr.projection, pr.scope, pr.past);
        SentFrame(pr, |s'.hub.accepted|);
      } else {
        AcceptSkips(s.hub, t, s'.hub, w, pr.projection, pr.scope, pr.past);
      }
      AcceptKeepsLive(s.hub, t, s'.hub, w, pr);
    }
  }

  lemma AfterAcceptKeeps(s: System, t: Transaction, r: HubState)
    requires SystemInv(s) && s.owed.None? && HubInv(r) && Accepted(s.hub, t, r)
    ensures SystemInv(AfterAccept(s, r, if s.hub.tickTaken then Some(s.hub.tick) else None))
  {
    hide ProgramInv, OfferedRight;
    var s' := AfterAccept(s, r, if s.hub.tickTaken then Some(s.hub.tick) else None);
    forall w | w in s'.programs ensures ProgramInv(s', w, s'.programs[w]) {
      AcceptKeepsProgram(s, t, s', w, s.programs[w]);
    }
  }

  lemma AcceptKeeps(s: System, t: Transaction)
    requires SystemInv(s) && Enabled(s, AcceptStep(t))
    ensures SystemInv(Next(s, AcceptStep(t)))
  {
    if Duplicate(s.hub, t) {
      DuplicateKeeps(s, t);
    } else {
      AcceptKeepsInv(s.hub, t);
      AcceptSummary(s.hub, t);
      AfterAcceptKeeps(s, t, Accept(s.hub, t));
    }
  }

  // A resent transaction changes nothing at all.
  lemma DuplicateKeeps(s: System, t: Transaction)
    requires SystemInv(s) && Enabled(s, AcceptStep(t)) && Duplicate(s.hub, t)
    ensures Next(s, AcceptStep(t)) == s
  {
    forall w | w in s.programs && w in s.hub.watchers ensures s.programs[w].past.seenTo == |s.hub.accepted| {
      assert ProgramInv(s, w, s.programs[w]);
    }
    assert Next(s, AcceptStep(t)).programs == s.programs;
  }

  // Watcher steps

  // All a watcher's invariant reads of the hub.
  ghost predicate SameView(h: HubState, h': HubState, w: WatcherId) {
    && h'.accepted == h.accepted && h'.queueSize == h.queueSize
    && w in h.info && w in h'.info && h'.info[w] == h.info[w]
    && (w in h'.watchers <==> w in h.watchers)
  }

  // Another watcher's step is invisible.
  lemma OthersFrame(s: System, s': System, x: WatcherId, pr: Program)
    requires ProgramInv(s, x, pr)
    requires pr.joined ==> SameView(s.hub, s'.hub, x)
    requires s'.closed == s.closed && s'.owed == s.owed
    requires s'.hub.tick == s.hub.tick && (s.hub.tickTaken ==> s'.hub.tickTaken)
    ensures ProgramInv(s', x, pr)
  {
  }

  // Sending one event that is neither a batch nor progress.
  lemma SendOther(pr: Program, e: Event, ok: bool, next: Place)
    requires !e.Batch? && !e.Progress?
    ensures Batches(Send(pr, e, ok, next).sent) == Batches(pr.sent)
    ensures Progresses(Send(pr, e, ok, next).sent) == Progresses(pr.sent)
  {
    SentOne(pr.sent, e);
  }

  ghost predicate AllBatches(events: seq<Event>) {
    forall e :: e in events ==> e.Batch?
  }

  lemma {:induction false} DeliverBatches(p: Projection, scope: string, need: Need, log: seq<Transaction>)
    ensures AllBatches(Deliver(p, scope, need, log))
  {
    if log != [] { DeliverBatches(p, scope, need, log[..|log| - 1]); }
  }

  // One turn of the loop that sends what is owed from the ring.
  lemma SendOwedKeeps(pr: Program, ok: bool)
    requires pr.place.SendingOwed? && SentInv(pr)
    ensures SentInv(SendOwed(pr, pr.place.pending, ok))
    ensures Progresses(SendOwed(pr, pr.place.pending, ok).sent) == Progresses(pr.sent)
  {
    var pending := pr.place.pending;
    if pending != [] {
      DeliverBatches(pr.projection, pr.scope, pr.start.value.need, pr.past.ringAt);
      assert pending[0] == Due(pr)[|Batches(pr.sent)|];
      assert pending[0] in Owed(pr.projection, pr.scope, pr.start.value, pr.past);
      SentOne(pr.sent, pending[0]);
      assert pending == [pending[0]] + pending[1..];
    }
  }

  // Taking an item sends its batch exactly when it is needed.
  lemma TakeKeepsSent(pr: Program, item: Queued, ok: bool)
    requires pr.place.Draining? && SentInv(pr)
    ensures SentInv(TakeItem(pr, item, ok))
    ensures Progresses(TakeItem(pr, item, ok).sent) == Progresses(pr.sent)
  {
    var taken := pr.past.taken + [item];
    assert taken[..|taken| - 1] == pr.past.taken;
    SentOne(pr.sent, Batch(item.transaction.cursor, item.changes));
    var need := pr.start.value.need;
    assert Due(TakeItem(pr, item, ok)) == Due(pr) +
      if Needs(need, item.transaction) then [Batch(item.transaction.cursor, item.changes)] else [];
  }

  predicate InSnapshot(place: Place) {
    place.BeginningSnapshot? || place.ReadingRows? || place.RowsRead? || place.ClearingStale?
    || place.RecordingSnapshot? || place.EndingSnapshot?
  }

  lemma ReadKeepsSent(pr: Program, result: ReadResult, ok: bool)
    requires pr.place.ReadingRows? && SentInv(pr)
    ensures SentInv(AfterRead(pr, result, ok))
    ensures Progresses(AfterRead(pr, result, ok).sent) == Progresses(pr.sent)
  {
    hide Batches, Progresses, Owed, DeliverItems;
    SendOther(pr, Resync(SnapshotWindowClosed), ok, Returning);
    SendOther(pr, Resync(SourceStopped), ok, Returning);
  }

  // Every step keeps the account of what has been sent.
  lemma SnapshotKeepsSent(s: System, w: WatcherId, a: Action)
    requires CanAct(s, w, a) && SentInv(s.programs[w]) && InSnapshot(s.programs[w].place)
    ensures SentInv(ActOnProgram(s, w, a))
    ensures Progresses(ActOnProgram(s, w, a).sent) == Progresses(s.programs[w].sent)
  {
    hide Batches, Progresses, Owed, AfterRead;
    var pr := s.programs[w];
    match pr.place
    case BeginningSnapshot => SendOther(pr, SnapshotBegin, a.ok, ReadingRows);
    case ReadingRows =>
      if a.SendRows? {
        SendOther(pr, SnapshotRows(a.rows), a.ok, ReadingRows);
      } else {
        ReadKeepsSent(pr, a.result, a.ok);
      }
    case RowsRead =>
      if s.hub.info[w].overflow.Some? {
        SendOther(pr, Resync(s.hub.info[w].overflow.value), a.ok, Returning);
      }
    case EndingSnapshot =>
      SendOther(pr, SnapshotEnd, a.ok, SendingOwed(Owed(pr.projection, pr.scope, pr.start.value, pr.past)));
    case _ =>
  }

  lemma ActKeepsSent(s: System, w: WatcherId, a: Action)
    requires CanAct(s, w, a) && SentInv(s.programs[w])
    ensures SentInv(ActOnProgram(s, w, a))
    ensures s.programs[w].place.Reporting? || Progresses(ActOnProgram(s, w, a).sent) == Progresses(s.programs[w].sent)
  {
    hide Batches, Progresses, Deliver, DeliverItems;
    var pr := s.programs[w];
    if InSnapshot(pr.place) {
      SnapshotKeepsSent(s, w, a);
    } else {
      match pr.place
      case SendingOwed(pending) => SendOwedKeeps(pr, a.ok);
      case Draining => if a.Take? { TakeKeepsSent(pr, s.hub.info[w].queue[0], a.ok); }
      case Reporting => SentOne(pr.sent, Progress(pr.sample.position));
      case Waiting =>
        SendOther(pr, Resync(SourceStopped), a.ok, Returning);
        if a.wakeup.Overflow? { SendOther(pr, Resync(s.hub.info[w].overflow.value), a.ok, Returning); }
      case _ =>
    }
  }

  // Progress cursors only ever grow.
  lemma ActKeepsProgress(s: System, w: WatcherId, a: Action)
    requires CanAct(s, w, a)
    requires var pr := s.programs[w];
             SentInv(pr) && ProgressInv(pr.place, pr.first, pr.progressed, pr.sent)
    ensures var pr := ActOnProgram(s, w, a);
            ProgressInv(pr.place, pr.first, pr.progressed, pr.sent)
  {
    hide Progresses, SentInv, ActOnProgram, ProgressInv;
    var pr := s.programs[w];
    if pr.place.Reporting? {
      ReportGrows(pr, a.ok);
      ActReports(s, w, a);
    } else {
      ActKeepsSent(s, w, a);
      ActReports(s, w, a);
      SameProgress(pr, ActOnProgram(s, w, a));
    }
  }

  lemma ReportGrows(pr: Program, ok: bool)
    requires ProgressInv(pr.place, pr.first, pr.progressed, pr.sent)
    ensures var r := Report(pr, ok);
            ProgressInv(r.place, r.first, r.progressed, r.sent)
  {
    hide Progresses, Batches;
    SentOne(pr.sent, Progress(pr.sample.position));
  }

  // Only a report moves what a watcher has reported.
  lemma ActReports(s: System, w: WatcherId, a: Action)
    requires CanAct(s, w, a)
    ensures var pr, r := s.programs[w], ActOnProgram(s, w, a);
            if pr.place.Reporting? then r == Report(pr, a.ok) else r.first == pr.first && r.progressed == pr.progressed
  {
    hide Owed, Needs;
  }

  lemma SameProgress(pr: Program, r: Program)
    requires ProgressInv(pr.place, pr.first, pr.progressed, pr.sent)
    requires r.first == pr.first && r.progressed == pr.progressed && Progresses(r.sent) == Progresses(pr.sent)
    ensures ProgressInv(r.place, r.first, r.progressed, r.sent)
  {
    hide Progresses;
  }

  // What a step leaves of the hub, for the watcher that takes it.
  lemma ActOnHubView(s: System, w: WatcherId, a: Action)
    requires CanAct(s, w, a) && s.hub.watchers <= s.hub.info.Keys
    ensures var pr := s.programs[w];
            var h := ActOnHub(s.hub, w, pr, a);
            && h.accepted == s.hub.accepted && h.queueSize == s.hub.queueSize
            && h.tick == s.hub.tick && (s.hub.tickTaken ==> h.tickTaken)
            && h.info.Keys == s.hub.info.Keys
            && h.watchers == (if pr.place.Returning? then s.hub.watchers - {w} else s.hub.watchers)
            && (forall x :: x in s.hub.info && x != w ==> h.info[x] == s.hub.info[x])
            && h.info[w] == (if pr.place.Draining? && a.Take?
                             then s.hub.info[w].(queue := s.hub.info[w].queue[1..]) else s.hub.info[w])
  {
  }

  lemma ActOnProgramPast(s: System, w: WatcherId, a: Action)
    requires CanAct(s, w, a)
    ensures var pr := s.programs[w];
            var pr' := ActOnProgram(s, w, a);
            && pr'.projection == pr.projection && pr'.scope == pr.scope && pr'.joined == pr.joined
            && pr'.past == (if pr.place.Draining? && a.Take?
                            then pr.past.(taken := pr.past.taken + [s.hub.info[w].queue[0]]) else pr.past)
            && (pr'.start == pr.start || (pr.place.ReadingRows? && a.FinishRead? && a.result.Read?
                && pr'.start == Some(Start(a.result.snapshot.cursor, false, NotCovered(a.result.snapshot)))))
  {
    hide Owed;
  }

  lemma ActKeepsQueue(s: System, w: WatcherId, a: Action)
    requires CanAct(s, w, a) && s.hub.watchers <= s.hub.info.Keys
    requires QueueInv(s.hub, w, s.programs[w].projection, s.programs[w].scope, s.programs[w].past)
    requires StartInv(s.hub.accepted, s.programs[w].start, s.programs[w].past)
    ensures var pr := ActOnProgram(s, w, a);
            && QueueInv(ActOnHub(s.hub, w, s.programs[w], a), w, pr.projection, pr.scope, pr.past)
            && StartInv(s.hub.accepted, pr.start, pr.past)
  {
    ActOnHubView(s, w, a);
    ActOnProgramPast(s, w, a);
    hide ActOnHub, ActOnProgram, CanAct, Items;
    var pr := s.programs[w];
    if pr.place.Draining? && a.Take? {
      var q := s.hub.info[w].queue;
      assert q == [q[0]] + q[1..];
      assert (pr.past.taken + [q[0]]) + q[1..] == pr.past.taken + q;
    }
  }

  lemma TakenFrom(h: HubState, w: WatcherId, pr: Program, q: Queued) returns (j: nat)
    requires QueueInv(h, w, pr.projection, pr.scope, pr.past) && q in pr.past.taken
    ensures j < |h.accepted| && h.accepted[j] == q.transaction
  {
    hide Items, EndedFor;
    assert q in pr.past.taken + h.info[w].queue;
    var i := ItemFrom(pr.projection, pr.scope, h.accepted[pr.past.joinedAt..pr.past.seenTo], q);
    j := pr.past.joinedAt + i;
  }

  lemma ReceivedCovers(h: HubState, j: nat)
    requires HubInv(h) && j < |h.accepted|
    ensures h.received.Some? && h.accepted[j].cursor <= h.received.value
  {
    if j < |h.accepted| - 1 { assert h.accepted[j].cursor <= h.accepted[|h.accepted| - 1].commitLSN; }
  }

  // Whatever a watcher has taken, the hub received no later than its newest.
  lemma TakenReceived(h: HubState, w: WatcherId, pr: Program, q: Queued)
    requires HubInv(h) && QueueInv(h, w, pr.projection, pr.scope, pr.past) && q in pr.past.taken
    ensures h.received.Some? && q.transaction.cursor <= h.received.value
  {
    hide HubInv, QueueInv;
    var j := TakenFrom(h, w, pr, q);
    ReceivedCovers(h, j);
  }

  // A sample is at or past everything the watcher has taken.
  lemma SampleKeepsLive(h: HubState, w: WatcherId, pr: Program)
    requires HubInv(h) && pr.start.Some? && QueueInv(h, w, pr.projection, pr.scope, pr.past)
    ensures LiveInv(h.accepted, w in h.watchers, TakeSample(h, w, pr))
  {
    forall q | q in pr.past.taken ensures h.received.Some? && q.transaction.cursor <= h.received.value {
      TakenReceived(h, w, pr, q);
    }
    if h.received.Some? {
      assert h.accepted[|h.accepted| - 1].cursor == h.received.value;
    }
    hide Items;
  }

  lemma TakeKeepsLive(h: HubState, w: WatcherId, pr: Program, ok: bool)
    requires QueueInv(h, w, pr.projection, pr.scope, pr.past) && h.info[w].queue != []
    requires pr.place.Draining? && LiveInv(h.accepted, w in h.watchers, pr)
    ensures LiveInv(h.accepted, w in h.watchers, TakeItem(pr, h.info[w].queue[0], ok))
  {
    var q := h.info[w].queue[0];
    assert q in pr.past.taken + h.info[w].queue;
    var i := ItemFrom(pr.projection, pr.scope, h.accepted[pr.past.joinedAt..pr.past.seenTo], q);
    assert h.accepted[pr.past.joinedAt + i] == q.transaction;
    TakeKeepsPosition(h.accepted, w in h.watchers, pr, q, ok, pr.past.joinedAt + i);
  }

  lemma TakeKeepsPosition(log: seq<Transaction>, registered: bool, pr: Program, q: Queued, ok: bool, j: nat)
    requires pr.place.Draining? && LiveInv(log, registered, pr)
    requires j < |log| && j < pr.past.seenTo && log[j] == q.transaction
    ensures LiveInv(log, registered, TakeItem(pr, q, ok))
  {
    hide Needs;
    var pr' := TakeItem(pr, q, ok);
    var n := Max(pr.sample.at, pr.past.seenTo);
    if pr'.place.Draining? {
      if q.transaction.cursor > pr.sample.position {
        assert PositionAt(log, pr.start.value, pr'.sample, n);
      } else {
        assert pr'.sample == pr.sample;
      }
    }
  }

  lemma DrainKeepsLive(h: HubState, w: WatcherId, pr: Program)
    requires QueueInv(h, w, pr.projection, pr.scope, pr.past) && h.info[w].queue == []
    requires pr.place.Draining? && LiveInv(h.accepted, w in h.watchers, pr)
    ensures LiveInv(h.accepted, w in h.watchers, FoundEmpty(pr))
  {
    assert pr.past.taken + h.info[w].queue == pr.past.taken;
    var n := Max(pr.sample.at, pr.past.seenTo);
    assert PositionAt(h.accepted, pr.start.value, FoundEmpty(pr).sample, n);
  }

  // Which steps sample, take, and find the queue empty.
  lemma ActCases(s: System, w: WatcherId, a: Action)
    requires CanAct(s, w, a)
    ensures var pr := s.programs[w];
            var pr' := ActOnProgram(s, w, a);
            && (pr.place.Sampling? ==> pr'.place.Draining? && pr' == TakeSample(s.hub, w, pr))
            && (pr.place.Draining? && a.Take? ==>
                  s.hub.info[w].queue != [] && pr' == TakeItem(pr, s.hub.info[w].queue[0], a.ok))
            && (pr.place.Draining? && !a.Take? ==> s.hub.info[w].queue == [] && pr' == FoundEmpty(pr))
            && (pr.place.Reporting? ==> pr' == Report(pr, a.ok))
            && (pr'.place.Draining? ==> pr.place.Sampling? || pr.place.Draining?)
            && (pr'.place.Reporting? ==> pr.place.Draining?)
            && (pr'.place.Waiting? ==> pr.place.Reporting?)
  {
    hide Owed;
  }

  lemma ActKeepsLive(s: System, w: WatcherId, a: Action)
    requires HubInv(s.hub) && CanAct(s, w, a)
    requires QueueInv(s.hub, w, s.programs[w].projection, s.programs[w].scope, s.programs[w].past)
    requires LiveInv(s.hub.accepted, w in s.hub.watchers, s.programs[w])
    ensures var h := ActOnHub(s.hub, w, s.programs[w], a);
            LiveInv(h.accepted, w in h.watchers, ActOnProgram(s, w, a))
  {
    var pr := s.programs[w];
    ActOnHubView(s, w, a);
    ActCases(s, w, a);
    hide ActOnHub, ActOnProgram, PositionInv, DrainedInv, QueueInv, HubInv;
    if pr.place.Sampling? {
      SampleKeepsLive(s.hub, w, pr);
    } else if pr.place.Draining? && a.Take? {
      TakeKeepsLive(s.hub, w, pr, a.ok);
    } else if pr.place.Draining? {
      DrainKeepsLive(s.hub, w, pr);
    }
  }

  lemma ActKeepsWake(s: System, w: WatcherId, a: Action)
    requires CanAct(s, w, a) && s.hub.watchers <= s.hub.info.Keys
    requires HasSample(s.programs[w].place) ==> WakeInv(s, s.programs[w].sample)
    ensures var h := ActOnHub(s.hub, w, s.programs[w], a);
            var pr := ActOnProgram(s, w, a);
            HasSample(pr.place) ==> WakeInv(s.(hub := h), pr.sample)
  {
    ActOnHubView(s, w, a);
    ActCases(s, w, a);
    assert s.programs[w].place.Sampling? ==> ActOnHub(s.hub, w, s.programs[w], a).tickTaken;
    hide ActOnHub, ActOnProgram, CanAct;
  }

  lemma JoinedOf(s: System, w: WatcherId)
    requires SystemInv(s) && w in s.hub.info
    ensures HubInv(s.hub) && w in s.programs && s.programs[w].joined && JoinedInv(s, w, s.programs[w])
  {
    hide HubInv, JoinedInv;
    assert ProgramInv(s, w, s.programs[w]);
  }

  lemma ActKeepsJoined(s: System, w: WatcherId, a: Action)
    requires HubInv(s.hub) && CanAct(s, w, a) && JoinedInv(s, w, s.programs[w])
    ensures JoinedInv(s.(hub := ActOnHub(s.hub, w, s.programs[w], a)), w, ActOnProgram(s, w, a))
  {
    hide SentInv, LiveInv, ProgressInv, WakeInv;
    ActKeepsQueue(s, w, a);
    ActKeepsSent(s, w, a);
    ActKeepsLive(s, w, a);
    ActKeepsProgress(s, w, a);
    ActKeepsWake(s, w, a);
    ActOnHubView(s, w, a);
    hide ActOnHub, ActOnProgram, HubInv, QueueInv, StartInv;
  }

  // The hub's own invariant reads only the log, the ring and the floor.
  lemma HubFrame(h: HubState, h': HubState)
    requires HubInv(h) && WellFormed(h')
    requires h' == h.(watchers := h'.watchers, info := h'.info, stale := h'.stale, tickTaken := h'.tickTaken)
    ensures HubInv(h')
  {
  }

  lemma ActWellFormed(h: HubState, w: WatcherId, pr: Program, a: Action)
    requires WellFormed(h) && w in h.info
    ensures var h' := ActOnHub(h, w, pr, a);
            && WellFormed(h')
            && (h' == h.(watchers := h'.watchers, info := h'.info, stale := h'.stale, tickTaken := h'.tickTaken)
                || (pr.place.RecordingSnapshot? && pr.start.Some? && h' == RecordSnapshot(h, pr.start.value.base)))
  {
  }

  lemma ActKeepsHub(s: System, w: WatcherId, a: Action)
    requires HubInv(s.hub) && CanAct(s, w, a)
    ensures HubInv(ActOnHub(s.hub, w, s.programs[w], a))
    ensures FloorMonotone(s.hub, ActOnHub(s.hub, w, s.programs[w], a))
  {
    hide HubInv;
    HubInvForm(s.hub);
    ActWellFormed(s.hub, w, s.programs[w], a);
    hide ActOnHub, CanAct;
    var h' := ActOnHub(s.hub, w, s.programs[w], a);
    if s.programs[w].place.RecordingSnapshot? && s.programs[w].start.Some?
       && h' == RecordSnapshot(s.hub, s.programs[w].start.value.base) {
      RecordSnapshotKeepsInv(s.hub, s.programs[w].start.value.base);
    } else {
      HubFrame(s.hub, h');
    }
  }

  lemma ActKeeps(s: System, w: WatcherId, a: Action)
    requires SystemInv(s) && CanAct(s, w, a)
    ensures SystemInv(Next(s, Act(w, a)))
  {
    hide HubInv, JoinedInv;
    JoinedOf(s, w);
    hide CanAct;
    ActKeepsHub(s, w, a);
    ActKeepsJoined(s, w, a);
    assert s.hub.watchers <= s.hub.info.Keys by { HubInvForm(s.hub); }
    ActOnHubView(s, w, a);
    ActOnProgramPast(s, w, a);
    hide ActOnHub, ActOnProgram, ProgramInv;
    var s' := Next(s, Act(w, a));
    JoinedFrame(s.(hub := s'.hub), s', w, s'.programs[w]);
    forall x | x in s'.programs ensures ProgramInv(s', x, s'.programs[x]) {
      if x == w {
        JoinedIs(s', x);
      } else {
        if s.programs[x].joined { JoinedHas(s, x); }
        OthersFrame(s, s', x, s.programs[x]);
      }
    }
  }

  lemma HubInvForm(h: HubState)
    requires HubInv(h)
    ensures WellFormed(h)
  {
  }

  lemma JoinedIs(s: System, w: WatcherId)
    requires w in s.programs && s.programs[w].joined && JoinedInv(s, w, s.programs[w])
    ensures ProgramInv(s, w, s.programs[w])
  {
    hide JoinedInv;
  }

  // A program's invariant does not read the other programs.
  lemma JoinedFrame(s: System, s': System, w: WatcherId, pr: Program)
    requires JoinedInv(s, w, pr) && s'.hub == s.hub && s'.closed == s.closed && s'.owed == s.owed
    ensures JoinedInv(s', w, pr)
  {
    hide QueueInv, SentInv, LiveInv, ProgressInv, StartInv;
  }

  // Watch's first critical section

  // A new registration has been offered nothing yet, and holds the ring.
  lemma NewQueueKeeps(h: HubState, w: WatcherId, p: Projection, scope: string)
    requires HubInv(h) && w !in h.info
    ensures QueueInv(Register(h, w, p, scope), w, p, scope, NewProgram(h, p, scope).past)
  {
    var n := |h.accepted|;
    assert h.accepted[n..n] == [];
  }

  lemma EnterSnapshotKeeps(s: System, w: WatcherId, p: Projection, scope: string)
    requires HubInv(s.hub) && w !in s.hub.info
    ensures JoinedInv(s.(hub := Register(s.hub, w, p, scope)), w,
                      NewProgram(s.hub, p, scope).(joined := true, place := BeginningSnapshot))
  {
    NewQueueKeeps(s.hub, w, p, scope);
    hide HubInv, Items;
  }

  lemma ResumeStartKeeps(h: HubState, p: Projection, scope: string, cursor: LSN)
    requires HubInv(h) && Replayable(h, cursor)
    ensures |h.ring| <= |h.accepted|
    ensures StartInv(h.accepted, Some(Start(cursor, true, AfterCursor(cursor))), NewProgram(h, p, scope).past)
  {
    ReplayableIsComplete(h, cursor);
  }

  lemma EnterResumeKeeps(s: System, w: WatcherId, p: Projection, scope: string, cursor: LSN)
    requires HubInv(s.hub) && w !in s.hub.info && Replayable(s.hub, cursor)
    ensures var pr := NewProgram(s.hub, p, scope);
            var start := Start(cursor, true, AfterCursor(cursor));
            JoinedInv(s.(hub := Register(s.hub, w, p, scope)), w,
                      pr.(joined := true, start := Some(start),
                          place := SendingOwed(Owed(p, scope, start, pr.past))))
  {
    NewQueueKeeps(s.hub, w, p, scope);
    ResumeStartKeeps(s.hub, p, scope, cursor);
    hide HubInv, Items, QueueInv, StartInv, Replayable, Owed;
  }

  lemma RefusedKeeps(s: System, w: WatcherId, pr: Program, reason: ResyncReason, ok: bool)
    requires !pr.joined && pr.sent == []
    ensures ProgramInv(s, w, Refused(pr, reason, ok))
  {
    SentOne([], Resync(reason));
    assert [] + [Resync(reason)] == [Resync(reason)];
  }

  lemma EnterKeepsOwn(s: System, l: Step)
    requires SystemInv(s) && l.Enter? && Enabled(s, l)
    ensures ProgramInv(Next(s, l), l.w, Next(s, l).programs[l.w])
  {
    hide HubInv, JoinedInv, Refused, Owed;
    var s', pr := Next(s, l), NewProgram(s.hub, l.p, l.scope);
    RefusedKeeps(s', l.w, pr, SourceStopped, l.ok);
    RefusedKeeps(s', l.w, pr, SchemaChanged, l.ok);
    RefusedKeeps(s', l.w, pr, CursorUnavailable, l.ok);
    if l.sawStopped {
    } else if l.cursor.None? {
      EnterSnapshotKeeps(s, l.w, l.p, l.scope);
      JoinedFrame(s.(hub := s'.hub), s', l.w, s'.programs[l.w]);
    } else if l.p.table !in s.hub.stale && Replayable(s.hub, l.cursor.value) {
      EnterResumeKeeps(s, l.w, l.p, l.scope, l.cursor.value);
      JoinedFrame(s.(hub := s'.hub), s', l.w, s'.programs[l.w]);
    }
  }

  lemma EnterHubView(s: System, l: Step)
    requires HubInv(s.hub) && l.Enter? && Enabled(s, l)
    ensures var s' := Next(s, l);
            && HubInv(s'.hub)
            && (s'.hub == s.hub || s'.hub == Register(s.hub, l.w, l.p, l.scope))
            && (l.w in s'.hub.info ==> s'.programs[l.w].joined)
            && s'.programs == s.programs[l.w := s'.programs[l.w]]
            && s'.closed == s.closed && s'.owed == s.owed
  {
    hide HubInv, Owed, Refused;
    HubInvForm(s.hub);
    HubFrame(s.hub, Register(s.hub, l.w, l.p, l.scope));
  }

  lemma EnterKeeps(s: System, l: Step)
    requires SystemInv(s) && l.Enter? && Enabled(s, l)
    ensures SystemInv(Next(s, l))
  {
    hide ProgramInv, HubInv;
    EnterKeepsOwn(s, l);
    EnterHubView(s, l);
    hide Next, Enabled;
    var s' := Next(s, l);
    forall x | x in s'.programs ensures ProgramInv(s', x, s'.programs[x]) {
      if x != l.w {
        if s.programs[x].joined { JoinedHas(s, x); }
        OthersFrame(s, s', x, s.programs[x]);
      }
    }
  }

  lemma JoinedHas(s: System, w: WatcherId)
    requires w in s.programs && s.programs[w].joined && ProgramInv(s, w, s.programs[w])
    ensures w in s.hub.info
  {
  }

  // Closing a tick, stopping

  lemma CloseKeeps(s: System)
    requires SystemInv(s) && Enabled(s, CloseTick)
    ensures SystemInv(Next(s, CloseTick))
    // The channel closed here was open, so no tick is ever closed twice.
    ensures s.owed.value !in s.closed
  {
    hide HubInv, QueueInv, SentInv, LiveInv, ProgressInv, StartInv;
  }

  lemma StopKeeps(s: System)
    requires SystemInv(s)
    ensures SystemInv(Next(s, Stop))
  {
    hide HubInv, QueueInv, SentInv, LiveInv, ProgressInv, StartInv;
  }

  lemma NextKeeps(s: System, l: Step)
    requires SystemInv(s) && Enabled(s, l)
    ensures SystemInv(Next(s, l))
  {
    hide SystemInv, Next;
    match l
    case AcceptStep(t) => AcceptKeeps(s, t);
    case CloseTick => CloseKeeps(s);
    case Stop => StopKeeps(s);
    case Enter(_, _, _, _, _, _) => EnterKeeps(s, l);
    case Act(w, a) => ActKeeps(s, w, a);
  }

  // The invariant holds in every state of every run.
  lemma {:induction false} RunKeeps(s: System, steps: seq<Step>)
    requires SystemInv(s) && IsRun(s, steps)
    ensures SystemInv(Reached(s, steps))
    decreases |steps|
  {
    if steps != [] {
      var n := |steps| - 1;
      RunKeeps(s, steps[..n]);
      hide SystemInv, Next, Enabled;
      NextKeeps(Reached(s, steps[..n]), steps[n]);
    }
  }

  lemma InitialInv(maxReplay: nat, queueSize: nat)
    requires maxReplay >= 1 && queueSize >= 1
    ensures SystemInv(Initial(maxReplay, queueSize))
  {
  }

  // Some run of some hub ends here.
  ghost predicate Reachable(s: System) {
    exists maxReplay: nat, queueSize: nat, steps ::
      && maxReplay >= 1 && queueSize >= 1
      && IsRun(Initial(maxReplay, queueSize), steps) && Reached(Initial(maxReplay, queueSize), steps) == s
  }

  lemma InitialReachable(maxReplay: nat, queueSize: nat)
    requires maxReplay >= 1 && queueSize >= 1
    ensures Reachable(Initial(maxReplay, queueSize))
  {
    assert IsRun(Initial(maxReplay, queueSize), []);
    assert Reached(Initial(maxReplay, queueSize), []) == Initial(maxReplay, queueSize);
  }

  lemma ReachableNext(s: System, l: Step)
    requires Reachable(s) && Enabled(s, l)
    ensures Reachable(Next(s, l))
  {
    var maxReplay: nat, queueSize: nat, steps :|
      && maxReplay >= 1 && queueSize >= 1
      && IsRun(Initial(maxReplay, queueSize), steps) && Reached(Initial(maxReplay, queueSize), steps) == s;
    hide Enabled, Next;
    assert (steps + [l])[..|steps|] == steps;
    assert IsRun(Initial(maxReplay, queueSize), steps + [l]);
    assert Reached(Initial(maxReplay, queueSize), steps + [l]) == Next(s, l);
  }

  lemma ReachableInv(s: System)
    requires Reachable(s)
    ensures SystemInv(s)
  {
    var maxReplay: nat, queueSize: nat, steps :|
      && maxReplay >= 1 && queueSize >= 1
      && IsRun(Initial(maxReplay, queueSize), steps) && Reached(Initial(maxReplay, queueSize), steps) == s;
    hide SystemInv;
    InitialInv(maxReplay, queueSize);
    RunKeeps(Initial(maxReplay, queueSize), steps);
  }

  // What every reachable state says of a registered watcher

  lemma JoinedWatch(s: System, w: WatcherId)
    requires SystemInv(s) && w in s.programs && s.programs[w].joined
    ensures HubInv(s.hub) && JoinedInv(s, w, s.programs[w])
  {
    hide HubInv, JoinedInv;
    assert ProgramInv(s, w, s.programs[w]);
  }

  // Fan-out, over whole runs: what a watcher has taken and what waits in its
  // queue are its part of the log since it registered, in order: all of it while
  // it is registered, and a strict prefix of it once it was dropped as slow.
  lemma FanOutExact(s: System, w: WatcherId)
    requires Reachable(s) && w in s.programs && s.programs[w].joined
    ensures var pr, log := s.programs[w], s.hub.accepted;
            && w in s.hub.info && pr.past.joinedAt <= |log| && |s.hub.info[w].queue| <= s.hub.queueSize
            && var had := pr.past.taken + s.hub.info[w].queue;
               var all := Items(pr.projection, pr.scope, log[pr.past.joinedAt..]);
               && had <= all
               && (w in s.hub.watchers ==> had == all)
               && (s.hub.info[w].overflow == Some(SlowWatcher) ==> had < all)
  {
    hide SystemInv, Reachable, HubInv, SentInv, LiveInv, ProgressInv, StartInv, WakeInv, Items;
    ReachableInv(s);
    JoinedWatch(s, w);
    var pr, log := s.programs[w], s.hub.accepted;
    var j, e := pr.past.joinedAt, pr.past.seenTo;
    assert log[j..] == log[j..e] + log[e..];
    ItemsConcat(pr.projection, pr.scope, log[j..e], log[e..]);
    if s.hub.info[w].overflow == Some(SlowWatcher) {
      ItemsNonEmpty(pr.projection, pr.scope, log[e..], 0);
    } else if w in s.hub.watchers {
      assert log[j..e] == log[j..];
    }
  }

  lemma {:induction false} ItemsConcat(p: Projection, scope: string, a: seq<Transaction>, b: seq<Transaction>)
    ensures Items(p, scope, a + b) == Items(p, scope, a) + Items(p, scope, b)
  {
    if b == [] {
      assert a + b == a;
    } else {
      ItemsConcat(p, scope, a, b[..|b| - 1]);
      assert (a + b)[..|a + b| - 1] == a + b[..|b| - 1];
    }
  }

  lemma {:induction false} ItemsNonEmpty(p: Projection, scope: string, log: seq<Transaction>, i: nat)
    requires i < |log| && Relevant(p, scope, log[i])
    ensures Items(p, scope, log) != []
  {
    if i < |log| - 1 { ItemsNonEmpty(p, scope, log[..|log| - 1], i); }
  }

  // No lost wake-up: the tick a watcher holds is closed, or the Accept that owes its
  // close is still running, or it is the hub's current one, marked taken, and the
  // hub has accepted nothing since the watcher sampled. No tick is closed twice.
  lemma NoLostWakeup(s: System, w: WatcherId)
    requires Reachable(s) && w in s.programs && s.programs[w].joined && HasSample(s.programs[w].place)
    ensures var sample := s.programs[w].sample;
            || sample.tick in s.closed
            || s.owed == Some(sample.tick)
            || (sample.tick == s.hub.tick && s.hub.tickTaken && sample.at == |s.hub.accepted|)
    ensures s.owed.Some? ==> s.owed.value !in s.closed
  {
    ReachableInv(s);
    JoinedWatch(s, w);
    hide Reachable, HubInv, QueueInv, SentInv, LiveInv, ProgressInv, StartInv, ProgramInv;
  }

  // The cursors a watcher has been told are fresh only ever grow.
  lemma ProgressIncreases(s: System, w: WatcherId)
    requires Reachable(s) && w in s.programs
    ensures Increasing(Progresses(s.programs[w].sent))
  {
    ReachableInv(s);
    assert ProgramInv(s, w, s.programs[w]);
    hide HubInv, QueueInv, SentInv, LiveInv, StartInv;
  }

  // No schema change of the watcher's table among log[from..].
  ghost predicate Unreported(log: seq<Transaction>, table: string, from: nat) {
    forall i :: from <= i < |log| ==> table !in log[i].incompatible
  }

  // A watch that goes on is registered, or the hub has ended it and said why.
  ghost predicate Accounted(s: System) {
    forall w :: w in s.programs && s.programs[w].joined && w in s.hub.info ==>
      w in s.hub.watchers || s.hub.info[w].overflow.Some? || s.programs[w].place.Finished?
  }

  lemma AccountedAccept(s: System, t: Transaction)
    requires HubInv(s.hub) && Accounted(s) && Enabled(s, AcceptStep(t))
    ensures Accounted(Next(s, AcceptStep(t)))
  {
    if !Duplicate(s.hub, t) {
      AcceptWatchers(s.hub, t);
      hide HubInv, Accept;
      forall w | w in s.hub.info ensures OfferedRight(s.hub, t, Accept(s.hub, t), w) {
      }
    }
  }

  lemma AccountedAct(s: System, w: WatcherId, a: Action)
    requires Accounted(s) && CanAct(s, w, a)
    ensures Accounted(Next(s, Act(w, a)))
  {
    var r := Next(s, Act(w, a));
    assert s.programs[w].place.Returning? ==> r.programs[w].place.Finished?;
    hide ActOnProgram, CanAct;
  }

  lemma AccountedStep(s: System, l: Step)
    requires HubInv(s.hub) && Accounted(s) && Enabled(s, l)
    ensures Accounted(Next(s, l))
  {
    hide HubInv, Accept, ActOnProgram, ActOnHub;
    match l
    case AcceptStep(t) => AccountedAccept(s, t);
    case Act(w, a) => AccountedAct(s, w, a);
    case _ =>
  }

  lemma {:induction false} AccountedRun(maxReplay: nat, queueSize: nat, steps: seq<Step>)
    requires maxReplay >= 1 && queueSize >= 1 && IsRun(Initial(maxReplay, queueSize), steps)
    ensures Accounted(Reached(Initial(maxReplay, queueSize), steps))
  {
    if steps != [] {
      var n := |steps| - 1;
      hide Accounted, Next, Enabled, HubInv;
      AccountedRun(maxReplay, queueSize, steps[..n]);
      InitialInv(maxReplay, queueSize);
      RunKeeps(Initial(maxReplay, queueSize), steps[..n]);
      AccountedStep(Reached(Initial(maxReplay, queueSize), steps[..n]), steps[n]);
    }
  }

  lemma ReachableAccounted(s: System)
    requires Reachable(s)
    ensures Accounted(s)
  {
    var maxReplay: nat, queueSize: nat, steps :|
      && maxReplay >= 1 && queueSize >= 1
      && IsRun(Initial(maxReplay, queueSize), steps) && Reached(Initial(maxReplay, queueSize), steps) == s;
    hide Accounted;
    AccountedRun(maxReplay, queueSize, steps);
  }

  // Where snapshot clears its table's stale mark, that is justified when the table
  // has not changed shape since the watcher registered. It is while the watcher is
  // registered; never once the hub ended it for a schema change; and, once ended as
  // slow, exactly when no later transaction has reported the table. A watch that has
  // not returned is in one of these three.
  lemma ClearStaleJustified(s: System, w: WatcherId)
    requires Reachable(s) && w in s.programs && s.programs[w].joined
    ensures var pr, log := s.programs[w], s.hub.accepted;
            var table, joined := pr.projection.table, pr.past.joinedAt;
            && w in s.hub.info
            && var overflow := s.hub.info[w].overflow;
               && (w in s.hub.watchers ==> Unreported(log, table, joined))
               && (overflow == Some(SchemaChanged) ==> !Unreported(log, table, joined))
               && (overflow == Some(SlowWatcher) ==>
                     (Unreported(log, table, joined) <==> Unreported(log, table, pr.past.seenTo + 1)))
               && (!pr.place.Finished? ==>
                     w in s.hub.watchers || overflow == Some(SchemaChanged) || overflow == Some(SlowWatcher))
  {
    hide SystemInv, Reachable, HubInv, SentInv, LiveInv, ProgressInv, StartInv, WakeInv, Items, Accounted;
    ReachableInv(s);
    JoinedWatch(s, w);
    ReachableAccounted(s);
    var pr, log := s.programs[w], s.hub.accepted;
    var overflow := s.hub.info[w].overflow;
    assert !pr.place.Finished? ==> w in s.hub.watchers || overflow.Some? by { AccountedFor(s, w); }
    if overflow == Some(SchemaChanged) {
      assert pr.projection.table in log[pr.past.seenTo].incompatible;
    }
  }

  lemma AccountedFor(s: System, w: WatcherId)
    requires Accounted(s) && w in s.programs && s.programs[w].joined && w in s.hub.info
    ensures w in s.hub.watchers || s.hub.info[w].overflow.Some? || s.programs[w].place.Finished?
  {
  }

  // The replay floor never falls along a run, and once set it stays at or past
  // every schema change it has reached.
  lemma {:induction false} FloorNeverFalls(s: System, steps: seq<Step>)
    requires SystemInv(s) && IsRun(s, steps)
    ensures FloorMonotone(s.hub, Reached(s, steps).hub)
    ensures s.hub.floor.Some? && FloorCoversSchema(s.hub) ==> FloorCoversSchema(Reached(s, steps).hub)
    decreases |steps|
  {
    if steps != [] {
      var n := |steps| - 1;
      FloorNeverFalls(s, steps[..n]);
      RunKeeps(s, steps[..n]);
      hide SystemInv, Next, Enabled, FloorCoversSchema;
      FloorStep(Reached(s, steps[..n]), steps[n]);
    }
  }

  // No watcher step moves a floor that is set.
  lemma ActKeepsFloor(s: System, w: WatcherId, a: Action)
    requires HubInv(s.hub) && CanAct(s, w, a)
    ensures var h := ActOnHub(s.hub, w, s.programs[w], a);
            h.accepted == s.hub.accepted && (s.hub.floor.Some? ==> h.floor == s.hub.floor)
  {
    HubInvForm(s.hub);
    ActWellFormed(s.hub, w, s.programs[w], a);
    hide ActOnHub, HubInv, CanAct;
  }

  lemma FloorStep(s: System, l: Step)
    requires SystemInv(s) && Enabled(s, l)
    ensures FloorMonotone(s.hub, Next(s, l).hub)
    ensures s.hub.floor.Some? && FloorCoversSchema(s.hub) ==> FloorCoversSchema(Next(s, l).hub)
  {
    hide HubInv, ProgramInv, ActOnHub, ActOnProgram, Accept, CanAct;
    match l
    case AcceptStep(t) => AcceptStepFloor(s, t);
    case Act(w, a) => ActKeepsFloor(s, w, a);
    case _ =>
  }

  lemma AcceptStepFloor(s: System, t: Transaction)
    requires HubInv(s.hub) && Enabled(s, AcceptStep(t))
    ensures FloorMonotone(s.hub, Accept(s.hub, t))
    ensures FloorCoversSchema(s.hub) ==> FloorCoversSchema(Accept(s.hub, t))
  {
    if !Duplicate(s.hub, t) { AcceptKeepsInv(s.hub, t); }
  }
}
