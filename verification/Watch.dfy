// Watch, resume, snapshot and live (internal/watch/hub.go), as the steps each
// watcher takes between and inside the hub's critical sections. A run is any
// interleaving of those steps with Accept, its deferred tick close, and Stop.
module Watch {
  import opened Cdc
  import opened HubSpec
  import opened Visibility

  datatype Event =
    | SnapshotBegin
    | SnapshotRows(rows: seq<Row>)
    | SnapshotEnd
    | Batch(cursor: LSN, changes: seq<Change>)
    | Progress(cursor: LSN)
    | Resync(reason: ResyncReason)

  // Which transactions a live watcher still has to be sent.
  datatype Need = AfterCursor(cursor: LSN) | NotCovered(snapshot: Snapshot)

  predicate Needs(n: Need, t: Transaction) {
    match n
    case AfterCursor(cursor) => After(t, cursor)
    case NotCovered(snapshot) => !Covers(snapshot, t)
  }

  function BatchOf(p: Projection, scope: string, t: Transaction): Event {
    Batch(t.cursor, Changes(p, scope, t.changes))
  }

  // The batches a log owes a watcher: one per relevant transaction it needs.
  function Deliver(p: Projection, scope: string, need: Need, log: seq<Transaction>): seq<Event> {
    if log == [] then []
    else
      var t := log[|log| - 1];
      Deliver(p, scope, need, log[..|log| - 1]) +
        if Relevant(p, scope, t) && Needs(need, t) then [BatchOf(p, scope, t)] else []
  }

  // Where a Watch call stands. `pending` is what a send loop has left to send.
  datatype Place =
    | BeginningSnapshot
    | ReadingRows
    | RowsRead
    | ClearingStale
    | RecordingSnapshot
    | EndingSnapshot
    | SendingOwed(pending: seq<Event>)
    | Sampling
    | Draining
    | Reporting
    | Waiting
    | Returning
    | Finished

  // live's parameters, fixed once a resume registers or a snapshot is read.
  datatype Start = Start(base: LSN, baseSafe: bool, need: Need)

  // What a registered watcher has had from the hub: the log length and the ring
  // when it registered, how much of the log has been offered to its queue, and
  // what it has received from the queue.
  datatype Past = Past(joinedAt: nat, ringAt: seq<Transaction>, seenTo: nat, taken: seq<Queued>)

  // What it learned when it last sampled the hub: the position it will report,
  // the tick, the log length and its own registration at that moment, and how far
  // it had been offered the log when it then found its queue empty.
  datatype Sample = Sample(position: LSN, tick: nat, at: nat, registered: bool, drainedAt: nat)

  // One Watch call: its place in the code, its local variables, its history.
  datatype Program = Program(
    projection: Projection,
    scope: string,
    joined: bool,
    place: Place,
    start: Option<Start>,
    first: bool,
    progressed: LSN,
    sent: seq<Event>,
    past: Past,
    sample: Sample)

  // The batches owed from the ring as it was at registration.
  function Owed(p: Projection, scope: string, start: Start, past: Past): seq<Event> {
    Deliver(p, scope, start.need, past.ringAt)
  }

  datatype ReadResult = Read(snapshot: Snapshot) | WindowClosed | Stopped | OtherError

  datatype Wakeup = ContextDone | Overflow | SourceStop | Tick

  // One step of a watcher. `ok` says whether the step's send succeeded.
  datatype Action =
    | Go(ok: bool)
    | SendRows(rows: seq<Row>, ok: bool)
    | FinishRead(result: ReadResult, ok: bool)
    | Take(ok: bool)
    | Drained
    | Wake(wakeup: Wakeup, ok: bool)

  datatype System = System(hub: HubState, programs: map<WatcherId, Program>, stopped: bool,
                           owed: Option<nat>, closed: set<nat>)

  datatype Step =
    | AcceptStep(t: Transaction)
    | CloseTick
    | Stop
    | Enter(w: WatcherId, p: Projection, scope: string, cursor: Option<LSN>, sawStopped: bool, ok: bool)
    | Act(w: WatcherId, action: Action)

  function Send(pr: Program, e: Event, ok: bool, next: Place): Program {
    if ok then pr.(sent := pr.sent + [e], place := next) else pr.(place := Returning)
  }

  // A send whose outcome ends the watch either way.
  function SendLast(pr: Program, e: Event, ok: bool): Program {
    Send(pr, e, ok, Returning)
  }

  function NewProgram(h: HubState, p: Projection, scope: string): Program {
    Program(p, scope, false, Finished, None, true, 0, [],
            Past(|h.accepted|, h.ring, |h.accepted|, []), Sample(0, 0, 0, false, 0))
  }

  function Refused(pr: Program, reason: ResyncReason, ok: bool): Program {
    Send(pr, Resync(reason), ok, Finished).(place := Finished)
  }

  // Watch up to its first registration: the stopped check, then resume's or
  // snapshot's first critical section.
  function EnterHub(h: HubState, w: WatcherId, p: Projection, scope: string,
                    cursor: Option<LSN>, sawStopped: bool, ok: bool): (HubState, Program)
  {
    var pr := NewProgram(h, p, scope);
    if sawStopped then (h, Refused(pr, SourceStopped, ok))
    else if cursor.None? then
      (Register(h, w, p, scope), pr.(joined := true, place := BeginningSnapshot))
    else if p.table in h.stale then (h, Refused(pr, SchemaChanged, ok))
    else if !Replayable(h, cursor.value) then (h, Refused(pr, CursorUnavailable, ok))
    else
      var start := Start(cursor.value, true, AfterCursor(cursor.value));
      (Register(h, w, p, scope),
       pr.(joined := true, start := Some(start), place := SendingOwed(Owed(p, scope, start, pr.past))))
  }

  // snapshot, once the snapshotter has returned.
  function AfterRead(pr: Program, result: ReadResult, ok: bool): Program {
    match result
    case Read(snapshot) =>
      pr.(place := RowsRead, start := Some(Start(snapshot.cursor, false, NotCovered(snapshot))))
    case WindowClosed => SendLast(pr, Resync(SnapshotWindowClosed), ok)
    case Stopped => SendLast(pr, Resync(SourceStopped), ok)
    case OtherError => pr.(place := Returning)
  }

  // The loop that sends the batches owed from the ring.
  function SendOwed(pr: Program, pending: seq<Event>, ok: bool): Program {
    if pending == [] then pr.(place := Sampling)
    else Send(pr, pending[0], ok, SendingOwed(pending[1..]))
  }

  // live's choice of the position it will report.
  function SamplePosition(received: Option<LSN>, start: Start): LSN {
    if received.None? || (start.baseSafe && start.base > received.value)
    then start.base else received.value
  }

  function TakeSample(h: HubState, w: WatcherId, pr: Program): Program
    requires pr.start.Some?
  {
    pr.(place := Draining,
        sample := Sample(SamplePosition(h.received, pr.start.value), h.tick, |h.accepted|, w in h.watchers, 0))
  }

  function Max(a: nat, b: nat): nat {
    if a > b then a else b
  }

  // live's receive from the queue: send the item if it is needed, and move the
  // position past it.
  function TakeItem(pr: Program, item: Queued, ok: bool): Program
    requires pr.start.Some?
  {
    var took := pr.(past := pr.past.(taken := pr.past.taken + [item]));
    if Needs(pr.start.value.need, item.transaction) && !ok then took.(place := Returning)
    else
      took.(sample := pr.sample.(position := Max(item.transaction.cursor, pr.sample.position)),
            sent := if Needs(pr.start.value.need, item.transaction)
                    then pr.sent + [Batch(item.transaction.cursor, item.changes)] else pr.sent)
  }

  function FoundEmpty(pr: Program): Program {
    pr.(place := Reporting, sample := pr.sample.(drainedAt := pr.past.seenTo))
  }

  // Progress is sent the first time round, and then only when it has advanced.
  function Report(pr: Program, ok: bool): Program {
    if !pr.first && pr.sample.position <= pr.progressed then pr.(place := Waiting)
    else if ok then
      pr.(sent := pr.sent + [Progress(pr.sample.position)], progressed := pr.sample.position,
          first := false, place := Waiting)
    else pr.(place := Returning)
  }

  function WakeUp(pr: Program, wakeup: Wakeup, overflow: Option<ResyncReason>, ok: bool): Program
    requires wakeup.Overflow? ==> overflow.Some?
  {
    match wakeup
    case ContextDone => pr.(place := Returning)
    case Overflow => SendLast(pr, Resync(overflow.value), ok)
    case SourceStop => SendLast(pr, Resync(SourceStopped), ok)
    case Tick => pr.(place := Sampling)
  }

  // live's select may take any case that is ready, also a closed tick when the
  // overflow channel is closed too.
  predicate CanAct(s: System, w: WatcherId, a: Action) {
    && w in s.programs && w in s.hub.info
    && var pr := s.programs[w];
       match pr.place
       case ReadingRows => a.SendRows? || a.FinishRead?
       case Draining => pr.start.Some? && if s.hub.info[w].queue == [] then a.Drained? else a.Take?
       case Waiting =>
         && a.Wake?
         && (a.wakeup.Overflow? ==> s.hub.info[w].overflow.Some?)
         && (a.wakeup.SourceStop? ==> s.stopped)
         && (a.wakeup.Tick? ==> pr.sample.tick in s.closed)
       case Finished => false
       case BeginningSnapshot => a.Go?
       case _ => a.Go? && (pr.place.Returning? || pr.start.Some?)
  }

  // What one step of watcher w does to the hub.
  function ActOnHub(h: HubState, w: WatcherId, pr: Program, a: Action): HubState
    requires w in h.info
  {
    match pr.place
    case ClearingStale => h.(stale := h.stale - {pr.projection.table})
    case RecordingSnapshot => if pr.start.Some? then RecordSnapshot(h, pr.start.value.base) else h
    case Sampling => TakeTick(h)
    case Draining => if h.info[w].queue == [] then h else Dequeue(h, w)
    case Returning => Remove(h, w)
    case _ => h
  }

  // What it does to the watcher itself.
  function ActOnProgram(s: System, w: WatcherId, a: Action): Program
    requires CanAct(s, w, a)
  {
    var h, pr := s.hub, s.programs[w];
    match pr.place
    case BeginningSnapshot => Send(pr, SnapshotBegin, a.ok, ReadingRows)
    case ReadingRows =>
      if a.SendRows? then Send(pr, SnapshotRows(a.rows), a.ok, ReadingRows)
      else AfterRead(pr, a.result, a.ok)
    case RowsRead =>
      if h.info[w].overflow.Some? then SendLast(pr, Resync(h.info[w].overflow.value), a.ok)
      else pr.(place := ClearingStale)
    case ClearingStale => pr.(place := RecordingSnapshot)
    case RecordingSnapshot => pr.(place := EndingSnapshot)
    case EndingSnapshot =>
      Send(pr, SnapshotEnd, a.ok, SendingOwed(Owed(pr.projection, pr.scope, pr.start.value, pr.past)))
    case SendingOwed(pending) => SendOwed(pr, pending, a.ok)
    case Sampling => TakeSample(h, w, pr)
    case Draining => if a.Drained? then FoundEmpty(pr) else TakeItem(pr, h.info[w].queue[0], a.ok)
    case Reporting => Report(pr, a.ok)
    case Waiting => WakeUp(pr, a.wakeup, h.info[w].overflow, a.ok)
    case Returning => pr.(place := Finished)
  }

  // What the source may hand to Accept: a resend of something already received,
  // or the next commit in source order.
  predicate SourceStep(h: HubState, t: Transaction) {
    Duplicate(h, t) ||
    (t.commitLSN < t.cursor && (h.received.Some? ==> h.received.value <= t.commitLSN))
  }

  predicate Enabled(s: System, l: Step) {
    match l
    // Accept returns only after its tick is closed, and one reader calls it.
    case AcceptStep(t) => s.owed.None? && SourceStep(s.hub, t) && s.hub.watchers <= s.hub.info.Keys
    case CloseTick => s.owed.Some?
    case Stop => true
    case Enter(w, _, _, _, sawStopped, _) =>
      w !in s.programs && w !in s.hub.info && (sawStopped ==> s.stopped)
    case Act(w, a) => CanAct(s, w, a)
  }

  // Where an Accept leaves a watcher's history.
  function Offer(h: HubState, r: HubState, w: WatcherId, pr: Program): Program {
    if w in h.watchers && w in r.watchers then pr.(past := pr.past.(seenTo := |r.accepted|)) else pr
  }

  function AfterAccept(s: System, hub: HubState, owed: Option<nat>): System {
    s.(hub := hub, owed := owed,
       programs := map w | w in s.programs :: Offer(s.hub, hub, w, s.programs[w]))
  }

  function Next(s: System, l: Step): System
    requires Enabled(s, l)
  {
    match l
    case AcceptStep(t) => AfterAccept(s, Accept(s.hub, t), TickToClose(s.hub, t))
    case CloseTick => s.(owed := None, closed := s.closed + {s.owed.value})
    case Stop => s.(stopped := true)
    case Enter(w, p, scope, cursor, sawStopped, ok) =>
      var (hub, pr) := EnterHub(s.hub, w, p, scope, cursor, sawStopped, ok);
      s.(hub := hub, programs := s.programs[w := pr])
    case Act(w, a) =>
      s.(hub := ActOnHub(s.hub, w, s.programs[w], a),
         programs := s.programs[w := ActOnProgram(s, w, a)])
  }

  function Initial(maxReplay: nat, queueSize: nat): System {
    System(HubState(maxReplay, queueSize, [], [], None, None, None, {}, map[], {}, 0, false),
           map[], false, None, {})
  }

  // A run: every step is enabled where it is taken.
  ghost predicate IsRun(s: System, steps: seq<Step>)
    decreases |steps|, 0
  {
    steps == [] ||
    (IsRun(s, steps[..|steps| - 1])
     && Enabled(Reached(s, steps[..|steps| - 1]), steps[|steps| - 1]))
  }

  ghost function Reached(s: System, steps: seq<Step>): System
    requires IsRun(s, steps)
    decreases |steps|, 1
  {
    if steps == [] then s
    else Next(Reached(s, steps[..|steps| - 1]), steps[|steps| - 1])
  }
}
