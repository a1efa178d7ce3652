// Runs that show where an unconditional claim about the hub would be false.
module Witness {
  import opened Cdc
  import opened HubSpec
  import opened HubInvariant
  import opened Visibility
  import opened Watch
  import opened WatchInvariant

  // A run from s to t.
  ghost predicate Leads(s: System, steps: seq<Step>, t: System) {
    IsRun(s, steps) && Reached(s, steps) == t
  }

  // One more step.
  lemma Extend(s: System, steps: seq<Step>, t: System, l: Step, u: System)
    requires Leads(s, steps, t) && Enabled(t, l) && Next(t, l) == u
    ensures Leads(s, steps + [l], u)
  {
    assert (steps + [l])[..|steps|] == steps;
  }

  // A snapshot read: what it covers, and what its watcher sent while it was read.
  datatype Scan = Scan(snapshot: Snapshot, sent: seq<Event>)

  ghost predicate IsScan(seen: Scan) {
    seen.sent != [] && seen.sent[0] == SnapshotBegin && forall i :: 1 <= i < |seen.sent| ==> seen.sent[i].SnapshotRows?
  }

  const NOTHING_SEEN := Scan(Snapshot(0, None), [SnapshotBegin])

  // One watcher, on a hub that has accepted nothing.
  function Alone(maxReplay: nat, queueSize: nat, pr: Program): System {
    var hub := Initial(maxReplay, queueSize).hub;
    System(Register(hub, 0, pr.projection, pr.scope), map[0 := pr], false, None, {})
  }

  function Fresh(p: Projection, scope: string): Program {
    NewProgram(Initial(1, 1).hub, p, scope).(joined := true, place := BeginningSnapshot)
  }

  // A snapshot watcher that has passed its overflow check.
  function Checked(p: Projection, scope: string, seen: Scan): Program {
    Fresh(p, scope).(place := ClearingStale, sent := seen.sent,
                     start := Some(Start(seen.snapshot.cursor, false, NotCovered(seen.snapshot))))
  }

  // Reading, it has sent the first n events.
  function Reading(p: Projection, scope: string, seen: Scan, n: nat): Program
    requires n <= |seen.sent|
  {
    Fresh(p, scope).(place := ReadingRows, sent := seen.sent[..n])
  }

  lemma {:induction false} UpToRows(p: Projection, scope: string, seen: Scan, maxReplay: nat, queueSize: nat, n: nat)
    returns (steps: seq<Step>)
    requires IsScan(seen) && 1 <= n <= |seen.sent|
    ensures Leads(Initial(maxReplay, queueSize), steps, Alone(maxReplay, queueSize, Reading(p, scope, seen, n)))
  {
    hide IsRun, Reached;
    var init, now := Initial(maxReplay, queueSize), Alone(maxReplay, queueSize, Reading(p, scope, seen, n));
    if n == 1 {
      var pr0 := Fresh(p, scope);
      assert pr0.sent + [SnapshotBegin] == seen.sent[..1];
      LeadsNowhere(init);
      Extend(init, [], init, Enter(0, p, scope, None, false, true), Alone(maxReplay, queueSize, pr0));
      steps := [] + [Enter(0, p, scope, None, false, true)];
      Extend(init, steps, Alone(maxReplay, queueSize, pr0), Act(0, Go(true)), now);
      steps := steps + [Act(0, Go(true))];
    } else {
      steps := UpToRows(p, scope, seen, maxReplay, queueSize, n - 1);
      var send := Act(0, SendRows(seen.sent[n - 1].rows, true));
      assert seen.sent[..n - 1] + [seen.sent[n - 1]] == seen.sent[..n];
      Extend(init, steps, Alone(maxReplay, queueSize, Reading(p, scope, seen, n - 1)), send, now);
      steps := steps + [send];
    }
  }

  lemma UpToCheck(p: Projection, scope: string, seen: Scan, maxReplay: nat, queueSize: nat)
    returns (steps: seq<Step>)
    requires IsScan(seen)
    ensures Leads(Initial(maxReplay, queueSize), steps, Alone(maxReplay, queueSize, Checked(p, scope, seen)))
  {
    hide IsRun, Reached;
    var init, n := Initial(maxReplay, queueSize), |seen.sent|;
    var pr1, pr2 := Reading(p, scope, seen, n), Checked(p, scope, seen).(place := RowsRead);
    assert seen.sent[..n] == seen.sent;
    steps := UpToRows(p, scope, seen, maxReplay, queueSize, n);
    Extend(init, steps, Alone(maxReplay, queueSize, pr1), Act(0, FinishRead(Read(seen.snapshot), true)),
           Alone(maxReplay, queueSize, pr2));
    steps := steps + [Act(0, FinishRead(Read(seen.snapshot), true))];
    Extend(init, steps, Alone(maxReplay, queueSize, pr2), Act(0, Go(true)),
           Alone(maxReplay, queueSize, Checked(p, scope, seen)));
    steps := steps + [Act(0, Go(true))];
  }

  lemma LeadsNowhere(s: System)
    ensures Leads(s, [], s)
  {
  }

  // The overflow check and the clearing of the stale mark are separate critical
  // sections. A schema change accepted between them ends the watcher, and its
  // table is then unmarked although the change came after it registered.
  lemma StaleRace(p: Projection, scope: string) returns (steps: seq<Step>, s: System)
    ensures Leads(Initial(1, 1), steps, s)
    ensures 0 in s.programs && p.table !in s.hub.stale && s.programs[0].place.RecordingSnapshot?
    ensures s.programs[0].past.joinedAt == 0 && |s.hub.accepted| == 1
    ensures p.table in s.hub.accepted[0].incompatible
  {
    hide IsRun, Reached, Accept;
    var t, s0 := Transaction(2, 1, 0, [], [p.table]), Alone(1, 1, Checked(p, scope, NOTHING_SEEN));
    var s1 := Next(s0, AcceptStep(t));
    steps := UpToCheck(p, scope, NOTHING_SEEN, 1, 1);
    ChangeAccepted(p, scope);
    Extend(Initial(1, 1), steps, s0, AcceptStep(t), s1);
    steps := steps + [AcceptStep(t)];
    hide AfterAccept;
    s := Next(s1, Act(0, Go(true)));
    Extend(Initial(1, 1), steps, s1, Act(0, Go(true)), s);
    steps := steps + [Act(0, Go(true))];
  }

  // The schema change, accepted while the watcher is about to clear the mark.
  lemma ChangeAccepted(p: Projection, scope: string)
    ensures var t, s0 := Transaction(2, 1, 0, [], [p.table]), Alone(1, 1, Checked(p, scope, NOTHING_SEEN));
            && Enabled(s0, AcceptStep(t))
            && var s1 := Next(s0, AcceptStep(t));
               && s1.hub.accepted == [t] && 0 in s1.hub.info && s1.programs == map[0 := Checked(p, scope, NOTHING_SEEN)]
  {
    var t, s0 := Transaction(2, 1, 0, [], [p.table]), Alone(1, 1, Checked(p, scope, NOTHING_SEEN));
    RegisteredInv(p, scope);
    AcceptLog(s0.hub, t);
    AcceptWatchers(s0.hub, t);
    assert OfferedRight(s0.hub, t, Accept(s0.hub, t), 0);
    hide HubInv, Accept;
  }

  lemma RegisteredInv(p: Projection, scope: string)
    ensures HubInv(Alone(1, 1, Checked(p, scope, NOTHING_SEEN)).hub)
  {
  }

  // Alone, once its snapshot is recorded.
  function Idle(pr: Program, tickTaken: bool): System
    requires pr.start.Some?
  {
    var s := Alone(1, 1, pr);
    s.(hub := s.hub.(floor := Some(pr.start.value.base), tickTaken := tickTaken))
  }

  lemma UpToEnding(p: Projection, scope: string, seen: Scan) returns (steps: seq<Step>)
    requires IsScan(seen)
    ensures Leads(Initial(1, 1), steps, Idle(Checked(p, scope, seen).(place := EndingSnapshot), false))
  {
    hide IsRun, Reached;
    var init, go := Initial(1, 1), Act(0, Go(true));
    var pr := Checked(p, scope, seen);
    steps := UpToCheck(p, scope, seen, 1, 1);
    Extend(init, steps, Alone(1, 1, pr), go, Alone(1, 1, pr.(place := RecordingSnapshot)));
    steps := steps + [go];
    Extend(init, steps, Alone(1, 1, pr.(place := RecordingSnapshot)), go, Idle(pr.(place := EndingSnapshot), false));
    steps := steps + [go];
  }

  // Its snapshot ended, and then sampled.
  function Ended(p: Projection, scope: string, seen: Scan): Program {
    Checked(p, scope, seen).(sent := seen.sent + [SnapshotEnd])
  }

  function FirstSample(p: Projection, scope: string, seen: Scan): Program {
    Ended(p, scope, seen).(sample := Sample(seen.snapshot.cursor, 0, 0, true, 0))
  }

  // The same watcher live: it has reported its snapshot's cursor and waits.
  function Live(p: Projection, scope: string, seen: Scan): Program {
    FirstSample(p, scope, seen).(place := Waiting, first := false, progressed := seen.snapshot.cursor,
                                 sent := seen.sent + [SnapshotEnd] + [Progress(seen.snapshot.cursor)])
  }

  lemma UpToSampling(p: Projection, scope: string, seen: Scan) returns (steps: seq<Step>)
    requires IsScan(seen)
    ensures Leads(Initial(1, 1), steps, Idle(Ended(p, scope, seen).(place := Sampling), false))
  {
    hide IsRun, Reached;
    var init, go := Initial(1, 1), Act(0, Go(true));
    var pr, ended := Checked(p, scope, seen), Ended(p, scope, seen);
    assert Owed(p, scope, pr.start.value, pr.past) == [];
    steps := UpToEnding(p, scope, seen);
    Extend(init, steps, Idle(pr.(place := EndingSnapshot), false), go, Idle(ended.(place := SendingOwed([])), false));
    steps := steps + [go];
    Extend(init, steps, Idle(ended.(place := SendingOwed([])), false), go, Idle(ended.(place := Sampling), false));
    steps := steps + [go];
  }

  lemma UpToReporting(p: Projection, scope: string, seen: Scan) returns (steps: seq<Step>)
    requires IsScan(seen)
    ensures Leads(Initial(1, 1), steps, Idle(FirstSample(p, scope, seen).(place := Reporting), true))
  {
    hide IsRun, Reached;
    var init, go := Initial(1, 1), Act(0, Go(true));
    var ended, sampled := Ended(p, scope, seen), FirstSample(p, scope, seen);
    steps := UpToSampling(p, scope, seen);
    Extend(init, steps, Idle(ended.(place := Sampling), false), go, Idle(sampled.(place := Draining), true));
    steps := steps + [go];
    Extend(init, steps, Idle(sampled.(place := Draining), true), Act(0, Drained),
           Idle(sampled.(place := Reporting), true));
    steps := steps + [Act(0, Drained)];
  }

  lemma UpToLive(p: Projection, scope: string, seen: Scan) returns (steps: seq<Step>)
    requires IsScan(seen)
    ensures Leads(Initial(1, 1), steps, Idle(Live(p, scope, seen), true))
  {
    hide IsRun, Reached;
    var init, go, sampled := Initial(1, 1), Act(0, Go(true)), FirstSample(p, scope, seen);
    steps := UpToReporting(p, scope, seen);
    Extend(init, steps, Idle(sampled.(place := Reporting), true), go, Idle(Live(p, scope, seen), true));
    steps := steps + [go];
  }

  // A transaction with one change in the watched scope.
  function Relevant1(p: Projection, scope: string, commitLSN: LSN): Transaction {
    Transaction(commitLSN + 1, commitLSN, 0,
                [Change(Insert, p.table, map[p.scopeColumn := scope], [], [])], [])
  }

  lemma Relevant1Is(p: Projection, scope: string, commitLSN: LSN)
    ensures Changes(p, scope, Relevant1(p, scope, commitLSN).changes) == Relevant1(p, scope, commitLSN).changes
  {
    var cs := Relevant1(p, scope, commitLSN).changes;
    assert cs[..0] == [];
  }

  // What is known of the system after two transactions the watcher needs, the
  // second of which found its queue full.
  ghost predicate Dropped(s: System, p: Projection, scope: string) {
    var t1, t2 := Relevant1(p, scope, 1), Relevant1(p, scope, 3);
    && s.hub.accepted == [t1, t2] && s.hub.received == Some(4)
    && 0 in s.hub.info && 0 !in s.hub.watchers && s.hub.info[0].queue == [Queued(t1, t1.changes)]
    && s.owed.None? && s.closed == {0}
    && s.programs == map[0 := Live(p, scope, NOTHING_SEEN).(past := Past(0, [], 1, []))]
  }

  // After the first: queued, and its tick closed.
  ghost predicate QueuedFirst(s: System, p: Projection, scope: string) {
    var t1 := Relevant1(p, scope, 1);
    && s.hub.accepted == [t1] && s.hub.queueSize == 1 && !s.hub.tickTaken
    && s.hub.watchers == {0}
    && s.hub.info == map[0 := Watcher(p, scope, [Queued(t1, t1.changes)], None)]
    && s.programs == map[0 := Live(p, scope, NOTHING_SEEN).(past := Past(0, [], 1, []))]
  }

  lemma QueueFirst(init: System, steps: seq<Step>, p: Projection, scope: string) returns (s: System)
    requires Leads(init, steps, Idle(Live(p, scope, NOTHING_SEEN), true))
    ensures Leads(init, steps + [AcceptStep(Relevant1(p, scope, 1))], s) && QueuedFirst(s, p, scope)
    ensures s.owed == Some(0) && s.closed == {}
  {
    var s0, t1 := Idle(Live(p, scope, NOTHING_SEEN), true), Relevant1(p, scope, 1);
    Relevant1Is(p, scope, 1);
    assert HubInv(s0.hub);
    AcceptSummary(s0.hub, t1);
    AcceptLog(s0.hub, t1);
    s := Next(s0, AcceptStep(t1));
    assert OfferedRight(s0.hub, t1, s.hub, 0);
    hide IsRun, Reached, Accept, HubInv;
    Extend(init, steps, s0, AcceptStep(t1), s);
    assert s.hub.watchers == {0};
    assert [] + [Queued(t1, t1.changes)] == [Queued(t1, t1.changes)];
    assert s.hub.info == map[0 := s.hub.info[0]];
    assert s.programs == map[0 := s.programs[0]];
  }

  lemma DropSecond(init: System, steps: seq<Step>, s2: System, p: Projection, scope: string) returns (s: System)
    requires Leads(init, steps, s2) && HubInv(s2.hub) && QueuedFirst(s2, p, scope)
    requires s2.owed.None? && s2.closed == {0}
    ensures Leads(init, steps + [AcceptStep(Relevant1(p, scope, 3))], s) && Dropped(s, p, scope)
  {
    var t2 := Relevant1(p, scope, 3);
    Relevant1Is(p, scope, 3);
    AcceptSummary(s2.hub, t2);
    AcceptLog(s2.hub, t2);
    s := Next(s2, AcceptStep(t2));
    assert OfferedRight(s2.hub, t2, s.hub, 0);
    hide IsRun, Reached, Accept, HubInv;
    Extend(init, steps, s2, AcceptStep(t2), s);
  }

  lemma UpToDropped(p: Projection, scope: string) returns (steps: seq<Step>, s: System)
    ensures Leads(Initial(1, 1), steps, s) && Dropped(s, p, scope)
  {
    hide IsRun, Reached, SystemInv, QueuedFirst, Dropped, Idle, Live;
    var init := Initial(1, 1);
    steps := UpToLive(p, scope, NOTHING_SEEN);
    var s1 := QueueFirst(init, steps, p, scope);
    steps := steps + [AcceptStep(Relevant1(p, scope, 1))];
    var s2 := Next(s1, CloseTick);
    CloseKeepsQueued(s1, p, scope);
    Extend(init, steps, s1, CloseTick, s2);
    steps := steps + [CloseTick];
    LeadsToInv(1, steps, s2);
    s := DropSecond(init, steps, s2, p, scope);
    steps := steps + [AcceptStep(Relevant1(p, scope, 3))];
  }

  lemma CloseKeepsQueued(s: System, p: Projection, scope: string)
    requires QueuedFirst(s, p, scope) && s.owed == Some(0) && s.closed == {}
    ensures QueuedFirst(Next(s, CloseTick), p, scope)
    ensures Next(s, CloseTick).owed.None? && Next(s, CloseTick).closed == {0}
  {
  }

  lemma LeadsToInv(queueSize: nat, steps: seq<Step>, s: System)
    requires queueSize >= 1 && Leads(Initial(1, queueSize), steps, s)
    ensures SystemInv(s) && HubInv(s.hub)
  {
    InitialInv(1, queueSize);
    RunKeeps(Initial(1, queueSize), steps);
    hide HubInv;
  }

  // Its end: having taken the closed tick over the closed overflow channel, it
  // reports progress past the transaction it was never given.
  lemma UnsoundProgress(p: Projection, scope: string) returns (steps: seq<Step>, s: System)
    ensures Leads(Initial(1, 1), steps, s) && 0 in s.programs
    ensures var lost, sent := Relevant1(p, scope, 3), s.programs[0].sent;
            && lost in s.hub.accepted && Relevant(p, scope, lost) && !Covers(NOTHING_SEEN.snapshot, lost)
            && sent != [] && sent[|sent| - 1] == Progress(lost.cursor)
            && (forall e :: e in sent ==> e != BatchOf(p, scope, lost))
  {
    hide IsRun, Reached, Next, Enabled;
    var init := Initial(1, 1);
    Relevant1Is(p, scope, 3);
    var s0: System;
    steps, s0 := UpToDropped(p, scope);
    var s2: System;
    steps, s2 := SampleAt(init, steps, s0, p, scope);
    TakeAt(s2, p, scope);
    var s3 := Next(s2, Act(0, Take(true)));
    Extend(init, steps, s2, Act(0, Take(true)), s3);
    steps, s := ReportAt(init, steps + [Act(0, Take(true))], s3, p, scope);
  }

  lemma SampleAt(init: System, steps0: seq<Step>, s0: System, p: Projection, scope: string)
    returns (steps: seq<Step>, s: System)
    requires Leads(init, steps0, s0) && Dropped(s0, p, scope)
    ensures Leads(init, steps, s) && Sampled(s, p, scope)
  {
    hide IsRun, Reached;
    var s1 := Next(s0, Act(0, Wake(Tick, true)));
    Extend(init, steps0, s0, Act(0, Wake(Tick, true)), s1);
    steps := steps0 + [Act(0, Wake(Tick, true))];
    s := Next(s1, Act(0, Go(true)));
    Extend(init, steps, s1, Act(0, Go(true)), s);
    steps := steps + [Act(0, Go(true))];
  }

  ghost predicate Sampled(s: System, p: Projection, scope: string) {
    var t1, t2 := Relevant1(p, scope, 1), Relevant1(p, scope, 3);
    && s.hub.accepted == [t1, t2]
    && 0 in s.hub.info && s.hub.info[0].queue == [Queued(t1, t1.changes)] && 0 in s.programs
    && s.programs[0] == Live(p, scope, NOTHING_SEEN).(past := Past(0, [], 1, []), place := Draining,
                                        sample := Sample(4, s.programs[0].sample.tick, 2, false, 0))
  }

  lemma TakeAt(s: System, p: Projection, scope: string)
    requires Sampled(s, p, scope)
    ensures Enabled(s, Act(0, Take(true)))
    ensures var r := Next(s, Act(0, Take(true)));
            && 0 in r.programs && 0 in r.hub.info && r.hub.info[0].queue == [] && r.hub.accepted == s.hub.accepted
            && r.programs[0].place.Draining? && r.programs[0].start.Some? && !r.programs[0].first
            && r.programs[0].sample.position == 4 && r.programs[0].progressed == 0
            && r.programs[0].sent == Live(p, scope, NOTHING_SEEN).sent + [Batch(2, Relevant1(p, scope, 1).changes)]
  {
  }

  lemma ReportAt(init: System, steps0: seq<Step>, s3: System, p: Projection, scope: string)
    returns (steps: seq<Step>, s: System)
    requires Leads(init, steps0, s3) && 0 in s3.programs && 0 in s3.hub.info
    requires s3.programs[0].place.Draining? && s3.hub.info[0].queue == [] && s3.programs[0].start.Some?
    requires s3.programs[0].sample.position == 4 && !s3.programs[0].first && s3.programs[0].progressed == 0
    ensures Leads(init, steps, s) && s.hub == s3.hub && 0 in s.programs
    ensures s.programs[0].sent == s3.programs[0].sent + [Progress(4)]
  {
    hide IsRun, Reached;
    var s4 := Next(s3, Act(0, Drained));
    Extend(init, steps0, s3, Act(0, Drained), s4);
    steps := steps0 + [Act(0, Drained)];
    s := Next(s4, Act(0, Go(true)));
    Extend(init, steps, s4, Act(0, Go(true)), s);
    steps := steps + [Act(0, Go(true))];
  }

  // The floor and a schema change

  const U := Projection("u", "s")
  const T := Projection("t", "s")

  // The middle one changes table t's schema.
  const BEFORE := Transaction(2, 1, 0, [], [])
  const CHANGE := Transaction(4, 3, 0, [], ["t"])
  const AFTER := Transaction(6, 5, 0, [], [])

  // The watch of table u has read its snapshot and not recorded it; the hub has
  // since accepted a log that concerns it not.
  ghost predicate EarlyHub(h: HubState, log: seq<Transaction>) {
    && HubInv(h) && h.accepted == log && h.maxReplay == 2 && h.floor.None? && !h.tickTaken
    && h.received == (if log == [] then None else Some(log[|log| - 1].cursor))
    && h.info.Keys == {0}
  }

  ghost predicate Early(s: System, log: seq<Transaction>) {
    && EarlyHub(s.hub, log) && s.programs.Keys == {0} && s.owed.None?
    && s.programs[0].place.RecordingSnapshot? && s.programs[0].start.Some? && s.programs[0].start.value.base == 0
  }

  lemma UpToEarly() returns (steps: seq<Step>, s: System)
    ensures Leads(Initial(2, 1), steps, s) && Early(s, [])
  {
    hide Leads;
    var s0 := Alone(2, 1, Checked(U, "a", NOTHING_SEEN));
    steps := UpToCheck(U, "a", NOTHING_SEEN, 2, 1);
    s := Next(s0, Act(0, Go(true)));
    Extend(Initial(2, 1), steps, s0, Act(0, Go(true)), s);
    steps := steps + [Act(0, Go(true))];
  }

  lemma EarlyHubNext(h: HubState, log: seq<Transaction>, t: Transaction)
    requires EarlyHub(h, log) && t.commitLSN < t.cursor && (log != [] ==> log[|log| - 1].cursor <= t.commitLSN)
    ensures h.watchers <= h.info.Keys && SourceStep(h, t) && TickToClose(h, t).None?
    ensures EarlyHub(Accept(h, t), log + [t])
  {
    hide Accept, LastEvictedOf, SourceOrdered, Evicted;
    AcceptedNext(h, t);
    AcceptWatchers(h, t);
    AcceptLog(h, t);
    hide HubInv;
  }

  lemma EarlyNext(s: System, log: seq<Transaction>, t: Transaction)
    requires Early(s, log) && t.commitLSN < t.cursor && (log != [] ==> log[|log| - 1].cursor <= t.commitLSN)
    ensures Enabled(s, AcceptStep(t)) && Early(Next(s, AcceptStep(t)), log + [t])
  {
    EarlyHubNext(s.hub, log, t);
    hide Accept, HubInv, EarlyHub, SourceStep;
  }

  lemma EarlyAccepts(steps: seq<Step>, s: System, log: seq<Transaction>, t: Transaction)
    requires Leads(Initial(2, 1), steps, s) && Early(s, log)
    requires t.commitLSN < t.cursor && (log != [] ==> log[|log| - 1].cursor <= t.commitLSN)
    ensures Enabled(s, AcceptStep(t))
    ensures Leads(Initial(2, 1), steps + [AcceptStep(t)], Next(s, AcceptStep(t)))
    ensures Early(Next(s, AcceptStep(t)), log + [t])
  {
    hide Leads, Early, Next, Enabled;
    EarlyNext(s, log, t);
    Extend(Initial(2, 1), steps, s, AcceptStep(t), Next(s, AcceptStep(t)));
  }

  // In a ring of two, AFTER evicts BEFORE and forgets CHANGE, and the first snapshot
  // recorded then sets the floor at BEFORE.
  ghost predicate Floored(s: System) {
    && s.hub.accepted == [BEFORE, CHANGE, AFTER] && s.hub.floor == Some(BEFORE.cursor) && !FloorCoversSchema(s.hub)
    && s.hub.info.Keys <= {0, 1} && s.programs.Keys <= {0, 1}
  }

  lemma UpToFloored() returns (steps: seq<Step>, s: System)
    ensures Leads(Initial(2, 1), steps, s) && Floored(s) && s.hub.info.Keys == {0} && s.programs.Keys == {0}
  {
    hide Leads, Next, Enabled, Early, Floored;
    var s0: System;
    steps, s0 := UpToEarly();
    EarlyAccepts(steps, s0, [], BEFORE);
    var s1 := Next(s0, AcceptStep(BEFORE));
    steps := steps + [AcceptStep(BEFORE)];
    assert [] + [BEFORE] == [BEFORE];
    EarlyAccepts(steps, s1, [BEFORE], CHANGE);
    var s2 := Next(s1, AcceptStep(CHANGE));
    steps := steps + [AcceptStep(CHANGE)];
    assert [BEFORE] + [CHANGE] == [BEFORE, CHANGE];
    EarlyAccepts(steps, s2, [BEFORE, CHANGE], AFTER);
    var s3 := Next(s2, AcceptStep(AFTER));
    steps := steps + [AcceptStep(AFTER)];
    assert [BEFORE, CHANGE] + [AFTER] == [BEFORE, CHANGE, AFTER];
    EarlyRecords(s3);
    s := Next(s3, Act(0, Go(true)));
    Extend(Initial(2, 1), steps, s3, Act(0, Go(true)), s);
    steps := steps + [Act(0, Go(true))];
  }

  lemma EarlyRecords(s: System)
    requires Early(s, [BEFORE, CHANGE, AFTER])
    ensures Enabled(s, Act(0, Go(true)))
    ensures var r := Next(s, Act(0, Go(true)));
            Floored(r) && r.hub.info.Keys == {0} && r.programs.Keys == {0}
  {
    SchemaForgotten(BEFORE, CHANGE, AFTER);
    hide LastSchema, LastEvictedOf;
    var r := Next(s, Act(0, Go(true)));
    assert r.programs.Keys == {0};
  }

  // A watch of table t then reads a later snapshot and clears the mark.
  ghost predicate LaterRead(s: System, place: Place) {
    && Floored(s) && 1 in s.hub.info && s.hub.info[1].overflow.None? && 1 in s.programs
    && s.programs[1].projection == T && s.programs[1].place == place
    && (!place.BeginningSnapshot? ==> place.ReadingRows? || s.programs[1].start.Some?)
  }

  lemma Reads(steps: seq<Step>, s: System, place: Place, a: Action, next: Place)
    requires Leads(Initial(2, 1), steps, s) && LaterRead(s, place)
    requires match place
             case BeginningSnapshot => a == Go(true) && next == ReadingRows
             case ReadingRows => a.FinishRead? && a.result.Read? && next == RowsRead
             case RowsRead => a == Go(true) && next == ClearingStale
             case ClearingStale => a == Go(true) && next == RecordingSnapshot
             case _ => false
    ensures Enabled(s, Act(1, a)) && Leads(Initial(2, 1), steps + [Act(1, a)], Next(s, Act(1, a)))
    ensures LaterRead(Next(s, Act(1, a)), next)
    ensures place.ClearingStale? ==> T.table !in Next(s, Act(1, a)).hub.stale
  {
    hide Leads;
    Extend(Initial(2, 1), steps, s, Act(1, a), Next(s, Act(1, a)));
    hide LastSchema;
  }

  lemma UpToCleared() returns (steps: seq<Step>, s: System)
    ensures Leads(Initial(2, 1), steps, s) && Floored(s) && T.table !in s.hub.stale
  {
    var s0: System;
    steps, s0 := UpToFloored();
    var enter, go, finish := Enter(1, T, "a", None, false, true), Act(1, Go(true)),
                             Act(1, FinishRead(Read(Snapshot(6, None)), true));
    var s1 := Next(s0, enter);
    assert LaterRead(s1, BeginningSnapshot);
    Extend(Initial(2, 1), steps, s0, enter, s1);
    hide Leads, Floored, Enabled, Next, LaterRead;
    steps := steps + [enter];
    Reads(steps, s1, BeginningSnapshot, Go(true), ReadingRows);
    var s2 := Next(s1, go);
    Reads(steps + [go], s2, ReadingRows, finish.action, RowsRead);
    var s3 := Next(s2, finish);
    Reads(steps + [go] + [finish], s3, RowsRead, Go(true), ClearingStale);
    var s4 := Next(s3, go);
    Reads(steps + [go] + [finish] + [go], s4, ClearingStale, Go(true), RecordingSnapshot);
    steps, s := steps + [go] + [finish] + [go] + [go], Next(s4, go);
    LaterReadFloored(s, RecordingSnapshot);
  }

  lemma LaterReadFloored(s: System, place: Place)
    requires LaterRead(s, place)
    ensures Floored(s)
  {
  }

  // A cursor from before a change of its own table's schema is admitted, and the
  // watch is sent what follows across the change.
  lemma FirstFloorMissesSchema() returns (steps: seq<Step>, s: System)
    ensures Leads(Initial(2, 1), steps, s)
    ensures s.hub.accepted == [BEFORE, CHANGE, AFTER] && T.table in CHANGE.incompatible
    ensures 2 in s.programs && s.programs[2].joined && 2 in s.hub.watchers && s.programs[2].projection == T
    ensures s.programs[2].start == Some(Start(BEFORE.cursor, true, AfterCursor(BEFORE.cursor)))
    ensures After(CHANGE, BEFORE.cursor) && !FloorCoversSchema(s.hub)
  {
    var s0: System;
    steps, s0 := UpToCleared();
    var enter := Enter(2, T, "a", Some(BEFORE.cursor), false, true);
    s := Next(s0, enter);
    hide Leads, LastSchema, Owed;
    Extend(Initial(2, 1), steps, s0, enter, s);
    steps := steps + [enter];
  }

  // In a ring of two, a change between two other transactions is no longer what
  // lastEvicted holds.
  lemma SchemaForgotten(a: Transaction, b: Transaction, c: Transaction)
    requires a.incompatible == [] && b.incompatible != [] && c.incompatible == []
    ensures LastSchema([a, b, c]) == 1 && LastEvictedOf([a, b, c], 2) == Some(a.cursor)
  {
    assert [a, b, c][..2] == [a, b];
    assert LastSchema([a, b]) == 1;
  }

  lemma AcceptedNext(h: HubState, t: Transaction)
    requires HubInv(h) && t.commitLSN < t.cursor && (h.received.Some? ==> h.received.value <= t.commitLSN)
    requires h.floor.None?
    ensures var r := Accept(h, t);
            && HubInv(r) && r.accepted == h.accepted + [t] && r.maxReplay == h.maxReplay && r.received == Some(t.cursor)
            && r.watchers <= r.info.Keys && r.floor.None? && r.lastEvicted == LastEvictedOf(r.accepted, r.maxReplay)
  {
    AcceptLog(h, t);
    AcceptKeepsInv(h, t);
    assert SourceOrdered(h.accepted + [t]);
    AcceptFloor(h, t);
  }
}
