// What a Progress event means (internal/watch/hub.go, live). These theorems are
// about any state that satisfies SystemInv, hence about every state of every run.
module Progress {
  import opened Cdc
  import opened HubSpec
  import opened HubInvariant
  import opened Visibility
  import opened Watch
  import opened WatchInvariant

  // The part of an ordered log that ends at or before `cursor`.
  function Through(log: seq<Transaction>, cursor: LSN): (r: seq<Transaction>)
    ensures r <= log
  {
    if log == [] || log[|log| - 1].cursor <= cursor then log
    else Through(log[..|log| - 1], cursor)
  }

  lemma {:induction false} ThroughIs(log: seq<Transaction>, cursor: LSN)
    requires SourceOrdered(log)
    ensures forall i :: 0 <= i < |log| ==> (i < |Through(log, cursor)| <==> log[i].cursor <= cursor)
  {
    if log != [] && log[|log| - 1].cursor > cursor {
      ThroughIs(log[..|log| - 1], cursor);
    }
  }

  lemma {:induction false} DeliverNothing(p: Projection, scope: string, need: Need, log: seq<Transaction>)
    requires forall i :: 0 <= i < |log| ==> !(Relevant(p, scope, log[i]) && Needs(need, log[i]))
    ensures Deliver(p, scope, need, log) == []
  {
    if log != [] { DeliverNothing(p, scope, need, log[..|log| - 1]); }
  }

  // Nothing the watcher needs had left the ring before it registered. For a
  // resumed watcher the replay floor guarantees it; for a snapshot it is what the
  // snapshot must cover.
  ghost predicate HeadCovered(log: seq<Transaction>, pr: Program)
    requires pr.start.Some?
  {
    forall i :: 0 <= i < pr.past.joinedAt - |pr.past.ringAt| && i < |log| ==>
      !(Relevant(pr.projection, pr.scope, log[i]) && Needs(pr.start.value.need, log[i]))
  }

  // About a position sampled before the hub had received anything, which is the
  // snapshot's own cursor: what the snapshot does not cover commits at or after it.
  ghost predicate BaseOk(log: seq<Transaction>, pr: Program)
    requires pr.start.Some?
  {
    pr.start.value.need.NotCovered? && pr.sample.at == 0 ==>
      forall i :: 0 <= i < |log| && Relevant(pr.projection, pr.scope, log[i]) && Needs(pr.start.value.need, log[i]) ==>
        log[i].commitLSN >= pr.start.value.base
  }

  lemma ResumeHeadCovered(s: System, w: WatcherId)
    requires Reachable(s) && w in s.programs && s.programs[w].joined && s.programs[w].start.Some?
    requires s.programs[w].start.value.need.AfterCursor?
    ensures HeadCovered(s.hub.accepted, s.programs[w])
    ensures forall log :: BaseOk(log, s.programs[w])
  {
    hide SystemInv, HubInv, SentInv, LiveInv, ProgressInv;
    ReachableInv(s);
    JoinedWatch(s, w);
  }

  // What the invariant says of a watcher about to report.
  ghost predicate AboutToReport(log: seq<Transaction>, pr: Program) {
    && SourceOrdered(log)
    && pr.start.Some? && Batches(pr.sent) == Due(pr)
    && |pr.past.ringAt| <= pr.past.joinedAt <= pr.sample.drainedAt <= |log|
    && pr.past.ringAt == log[pr.past.joinedAt - |pr.past.ringAt|..pr.past.joinedAt]
    && PositionInv(log, false, pr.start, pr.past, pr.sample, pr.sample.drainedAt)
    && pr.past.taken == Items(pr.projection, pr.scope, log[pr.past.joinedAt..pr.sample.drainedAt])
    && (match pr.start.value.need
        case AfterCursor(cursor) => pr.start.value.base == cursor && pr.start.value.baseSafe
        case NotCovered(_) => !pr.start.value.baseSafe)
  }

  lemma Reports(s: System, w: WatcherId)
    requires SystemInv(s) && w in s.programs && s.programs[w].joined && s.programs[w].place.Reporting?
    ensures AboutToReport(s.hub.accepted, s.programs[w])
  {
    hide SystemInv, ProgressInv, Due, Items, Batches, PositionAt, WakeInv, EndedFor;
    JoinedWatch(s, w);
  }

  // Once drained, the batches sent are exactly what the log owes up to the point
  // the queue was found empty.
  lemma SentIsOwed(log: seq<Transaction>, pr: Program)
    requires AboutToReport(log, pr) && HeadCovered(log, pr)
    ensures Batches(pr.sent) == Deliver(pr.projection, pr.scope, pr.start.value.need, log[..pr.sample.drainedAt])
  {
    hide Deliver, DeliverItems, Items, Batches, PositionInv, SourceOrdered;
    var need, past, d := pr.start.value.need, pr.past, pr.sample.drainedAt;
    var cut := past.joinedAt - |past.ringAt|;
    DeliverOfItems(pr.projection, pr.scope, need, log[past.joinedAt..d]);
    DeliverNothing(pr.projection, pr.scope, need, log[..cut]);
    DeliverConcat(pr.projection, pr.scope, need, log[..cut], past.ringAt);
    assert log[..cut] + past.ringAt == log[..past.joinedAt];
    DeliverConcat(pr.projection, pr.scope, need, log[..past.joinedAt], log[past.joinedAt..d]);
    assert log[..past.joinedAt] + log[past.joinedAt..d] == log[..d];
  }

  // Every relevant transaction of a stretch of the log is among its items.
  lemma {:induction false} ItemsHold(p: Projection, scope: string, log: seq<Transaction>, i: nat)
    requires i < |log| && Relevant(p, scope, log[i])
    ensures Queued(log[i], Changes(p, scope, log[i].changes)) in Items(p, scope, log)
  {
    if i < |log| - 1 { ItemsHold(p, scope, log[..|log| - 1], i); }
  }

  // Before the point where it found its queue empty, nothing relevant lies past
  // the reported position.
  lemma NothingPast(log: seq<Transaction>, pr: Program, i: nat)
    requires AboutToReport(log, pr) && i < pr.sample.drainedAt && log[i].cursor > pr.sample.position
    ensures !Relevant(pr.projection, pr.scope, log[i])
  {
    hide Due, Items, Batches;
    var past := pr.past;
    if i >= past.joinedAt && Relevant(pr.projection, pr.scope, log[i]) {
      var stretch := log[past.joinedAt..pr.sample.drainedAt];
      assert stretch[i - past.joinedAt] == log[i];
      ItemsHold(pr.projection, pr.scope, stretch, i - past.joinedAt);
    }
  }

  // After everything the hub had accepted at the sample and everything drained,
  // nothing needed lies at or before the reported position, now or ever.
  lemma NothingMissed(log: seq<Transaction>, future: seq<Transaction>, pr: Program, i: nat)
    requires AboutToReport(log, pr) && SourceOrdered(log + future) && BaseOk(log + future, pr)
    requires pr.sample.drainedAt <= i < |log + future| && pr.sample.at <= i
    requires (log + future)[i].cursor <= pr.sample.position
    ensures !(Relevant(pr.projection, pr.scope, (log + future)[i]) && Needs(pr.start.value.need, (log + future)[i]))
  {
    hide Due, Items, Batches;
    assert forall j :: 0 <= j < |log| ==> (log + future)[j] == log[j];
  }

  // The watcher was registered when it sampled, or nothing it needs was accepted
  // between the hub ending it and the sample.
  ghost predicate NothingSkipped(log: seq<Transaction>, pr: Program)
    requires pr.start.Some?
  {
    pr.sample.registered ||
    forall i :: pr.past.seenTo <= i < pr.sample.at && i < |log| ==>
      !(Relevant(pr.projection, pr.scope, log[i]) && Needs(pr.start.value.need, log[i]))
  }

  // The batches sent are one for each relevant transaction the watcher needs that
  // ends at or before the position it is about to report, in order.
  ghost predicate Exact(all: seq<Transaction>, pr: Program)
    requires pr.start.Some?
  {
    Batches(pr.sent) ==
      Deliver(pr.projection, pr.scope, pr.start.value.need, Through(all, pr.sample.position))
  }

  // Progress soundness, exactly. When a watcher reports p it has been sent one batch
  // for each relevant transaction it needs that ends at or before p, no more and no
  // less, counting every transaction the hub has accepted or ever will, if and only
  // if nothing was skipped before its sample.
  lemma ProgressExactIff(s: System, w: WatcherId, future: seq<Transaction>)
    requires Reachable(s) && w in s.programs && s.programs[w].joined && s.programs[w].place.Reporting?
    requires s.programs[w].start.Some? && HeadCovered(s.hub.accepted, s.programs[w])
    requires SourceOrdered(s.hub.accepted + future) && BaseOk(s.hub.accepted + future, s.programs[w])
    ensures Exact(s.hub.accepted + future, s.programs[w]) <==> NothingSkipped(s.hub.accepted, s.programs[w])
  {
    hide SystemInv, Reachable, Exact, NothingSkipped, AboutToReport, HeadCovered, BaseOk, SourceOrdered;
    ReachableInv(s);
    Reports(s, w);
    EndedBeforeSample(s, w);
    var pr, log := s.programs[w], s.hub.accepted;
    if NothingSkipped(log, pr) {
      ExactPoint(log, future, pr);
    } else if Exact(log + future, pr) {
      ExactIsSound(log, future, pr);
      assert BaseOk(log, pr) by { BaseOkPrefix(log, future, pr); }
      ProgressSoundIff(s, w);
    }
  }

  // In particular for a watcher registered at its sample.
  lemma ProgressExact(s: System, w: WatcherId, future: seq<Transaction>)
    requires Reachable(s) && w in s.programs && s.programs[w].joined && s.programs[w].place.Reporting?
    requires s.programs[w].sample.registered && s.programs[w].start.Some?
    requires HeadCovered(s.hub.accepted, s.programs[w])
    requires SourceOrdered(s.hub.accepted + future) && BaseOk(s.hub.accepted + future, s.programs[w])
    ensures var pr := s.programs[w];
            Batches(pr.sent) == Deliver(pr.projection, pr.scope, pr.start.value.need,
                                        Through(s.hub.accepted + future, pr.sample.position))
  {
    hide Reachable, HeadCovered, BaseOk, SourceOrdered;
    ProgressExactIff(s, w, future);
  }

  lemma BaseOkPrefix(log: seq<Transaction>, future: seq<Transaction>, pr: Program)
    requires pr.start.Some? && BaseOk(log + future, pr)
    ensures BaseOk(log, pr)
  {
    hide Relevant, Needs;
    assert forall i :: 0 <= i < |log| ==> (log + future)[i] == log[i];
  }

  lemma ExactIsSound(log: seq<Transaction>, future: seq<Transaction>, pr: Program)
    requires pr.start.Some? && SourceOrdered(log + future) && Exact(log + future, pr)
    ensures Sound(log, pr)
  {
    var all, through := log + future, Through(log + future, pr.sample.position);
    ThroughIs(all, pr.sample.position);
    hide Deliver, Batches, Through, SourceOrdered, Relevant, Needs;
    forall i | 0 <= i < |log| && log[i].cursor <= pr.sample.position
               && Relevant(pr.projection, pr.scope, log[i]) && Needs(pr.start.value.need, log[i])
      ensures BatchOf(pr.projection, pr.scope, log[i]) in Batches(pr.sent)
    {
      assert all[i] == log[i] && through[i] == log[i];
      DeliverHolds(pr.projection, pr.scope, pr.start.value.need, through, i);
    }
  }

  lemma ExactPoint(log: seq<Transaction>, future: seq<Transaction>, pr: Program)
    requires AboutToReport(log, pr) && HeadCovered(log, pr)
    requires !pr.sample.registered ==> pr.sample.drainedAt == pr.past.seenTo
    requires NothingSkipped(log, pr) && SourceOrdered(log + future) && BaseOk(log + future, pr)
    ensures Exact(log + future, pr)
  {
    hide AboutToReport, HeadCovered, BaseOk, Deliver, Batches, SourceOrdered, Through, Needs, Relevant;
    var all, d := log + future, pr.sample.drainedAt;
    var k := |Through(all, pr.sample.position)|;
    SampledBeforeDrained(log, pr);
    SentIsOwed(log, pr);
    ThroughIs(all, pr.sample.position);
    assert all[..d] == log[..d] && Through(all, pr.sample.position) == all[..k];
    if d <= k {
      forall i | d <= i < k ensures !(Relevant(pr.projection, pr.scope, all[i]) && Needs(pr.start.value.need, all[i])) {
        if pr.sample.at <= i {
          NothingMissed(log, future, pr, i);
        } else {
          assert all[i] == log[i];
        }
      }
      DeliverSame(pr.projection, pr.scope, pr.start.value.need, all, d, k);
    } else {
      forall i | k <= i < d ensures !(Relevant(pr.projection, pr.scope, all[i]) && Needs(pr.start.value.need, all[i])) {
        assert all[i] == log[i];
        NothingPast(log, pr, i);
      }
      DeliverSame(pr.projection, pr.scope, pr.start.value.need, all, k, d);
    }
  }

  lemma SampledBeforeDrained(log: seq<Transaction>, pr: Program)
    requires AboutToReport(log, pr)
    ensures pr.start.Some? && pr.sample.drainedAt <= |log| && pr.sample.at <= |log|
    ensures pr.sample.registered ==> pr.sample.at <= pr.sample.drainedAt
  {
    hide PositionAt, Due, Items, Batches;
  }

  lemma DeliverSame(p: Projection, scope: string, need: Need, log: seq<Transaction>, a: nat, b: nat)
    requires a <= b <= |log|
    requires forall i :: a <= i < b ==> !(Relevant(p, scope, log[i]) && Needs(need, log[i]))
    ensures Deliver(p, scope, need, log[..a]) == Deliver(p, scope, need, log[..b])
  {
    DeliverNothing(p, scope, need, log[a..b]);
    DeliverConcat(p, scope, need, log[..a], log[a..b]);
    assert log[..a] + log[a..b] == log[..b];
  }

  // Nothing the watcher needs at or before the position it is about to report
  // was left unsent.
  ghost predicate Sound(log: seq<Transaction>, pr: Program)
    requires pr.start.Some?
  {
    forall i :: 0 <= i < |log| && log[i].cursor <= pr.sample.position
                && Relevant(pr.projection, pr.scope, log[i]) && Needs(pr.start.value.need, log[i]) ==>
      BatchOf(pr.projection, pr.scope, log[i]) in Batches(pr.sent)
  }

  // live can take a closed tick although its overflow channel is closed too, and
  // then samples a position past transactions it was never given. Its Progress
  // is sound exactly when it was registered at the sample, or nothing it needs
  // was accepted between the hub ending it and the sample.
  lemma ProgressSoundIff(s: System, w: WatcherId)
    requires Reachable(s) && w in s.programs && s.programs[w].joined && s.programs[w].place.Reporting?
    requires s.programs[w].start.Some?
    requires HeadCovered(s.hub.accepted, s.programs[w]) && BaseOk(s.hub.accepted, s.programs[w])
    ensures Sound(s.hub.accepted, s.programs[w]) <==> NothingSkipped(s.hub.accepted, s.programs[w])
  {
    hide AboutToReport, HeadCovered, BaseOk, Sound, Deliver, Batches, Needs, Relevant, Reachable;
    ReachableInv(s);
    Reports(s, w);
    EndedBeforeSample(s, w);
    var pr, log := s.programs[w], s.hub.accepted;
    SampledBeforeDrained(log, pr);
    assert SourceOrdered(log);
    hide SystemInv, SourceOrdered;
    SentIsOwed(log, pr);
    assert log + [] == log;
    forall i | pr.sample.drainedAt <= i < |log| && pr.sample.at <= i && log[i].cursor <= pr.sample.position
      ensures !(Relevant(pr.projection, pr.scope, log[i]) && Needs(pr.start.value.need, log[i]))
    {
      NothingMissed(log, [], pr, i);
    }
    SoundIffOf(log, pr);
  }

  lemma EndedBeforeSample(s: System, w: WatcherId)
    requires SystemInv(s) && w in s.programs && s.programs[w].joined && s.programs[w].place.Reporting?
    ensures var pr := s.programs[w];
            !pr.sample.registered ==> pr.sample.drainedAt == pr.past.seenTo
  {
    assert ProgramInv(s, w, s.programs[w]);
    hide HubInv, QueueInv, SentInv, PositionInv, ProgressInv;
  }

  lemma {:induction false} DeliverHolds(p: Projection, scope: string, need: Need, log: seq<Transaction>, i: nat)
    requires i < |log| && Relevant(p, scope, log[i]) && Needs(need, log[i])
    ensures BatchOf(p, scope, log[i]) in Deliver(p, scope, need, log)
  {
    if i < |log| - 1 { DeliverHolds(p, scope, need, log[..|log| - 1], i); }
  }

  lemma {:induction false} DeliverFrom(p: Projection, scope: string, need: Need, log: seq<Transaction>, e: Event)
    returns (i: nat)
    requires e in Deliver(p, scope, need, log)
    ensures i < |log| && e == BatchOf(p, scope, log[i]) && Needs(need, log[i])
  {
    var n := |log| - 1;
    if e in Deliver(p, scope, need, log[..n]) {
      i := DeliverFrom(p, scope, need, log[..n], e);
    } else {
      i := n;
    }
  }

  lemma SoundIffOf(log: seq<Transaction>, pr: Program)
    requires AboutToReport(log, pr)
    requires Batches(pr.sent) == Deliver(pr.projection, pr.scope, pr.start.value.need, log[..pr.sample.drainedAt])
    requires forall i :: pr.sample.drainedAt <= i < |log| && pr.sample.at <= i
                         && log[i].cursor <= pr.sample.position ==>
               !(Relevant(pr.projection, pr.scope, log[i]) && Needs(pr.start.value.need, log[i]))
    ensures Sound(log, pr) <==>
              (pr.sample.registered ||
               forall i :: pr.sample.drainedAt <= i < pr.sample.at && i < |log| ==>
                 !(Relevant(pr.projection, pr.scope, log[i]) && Needs(pr.start.value.need, log[i])))
  {
    hide Deliver, Batches, Due, Items, PositionAt;
    var d, need := pr.sample.drainedAt, pr.start.value.need;
    forall i | 0 <= i < d && Relevant(pr.projection, pr.scope, log[i]) && Needs(need, log[i])
      ensures BatchOf(pr.projection, pr.scope, log[i]) in Batches(pr.sent)
    {
      assert log[..d][i] == log[i];
      DeliverHolds(pr.projection, pr.scope, need, log[..d], i);
    }
    forall i | d <= i < |log| && BatchOf(pr.projection, pr.scope, log[i]) in Batches(pr.sent) ensures false {
      var j := DeliverFrom(pr.projection, pr.scope, need, log[..d], BatchOf(pr.projection, pr.scope, log[i]));
    }
    forall i | d <= i < pr.sample.at && i < |log| ensures log[i].cursor <= pr.sample.position {
      assert log[i].cursor <= log[pr.sample.at - 1].cursor;
    }
  }
}
