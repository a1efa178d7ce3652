// Which reports of an incompatible table reach the hub (internal/cdc/decoder.go,
// internal/cdc/stream.go, internal/watch/hub.go). A decoder reports with its next
// COMMIT; the hub takes no notice of a transaction it already has.
module AcceptedReports {
  import opened Cdc
  import opened Tuple
  import opened Decoder
  import opened DecoderRuns
  import opened SchemaGate
  import opened Delivery

  // Connections and their histories

  // One connection handed over all accepted transactions from the first the hub did
  // not know on: each history goes on from the one before it, past its COMMIT.
  ghost predicate SourceOk(sources: seq<Origin>, i: nat)
    requires i < |sources|
  {
    var o := sources[i];
    && o.known <= i && o.resent <= |o.inputs|
    && Since(o.inputs) == (if i == o.known then o.resent else |sources[i - 1].inputs| + 1)
    && (i > o.known ==>
          && sources[i - 1].known == o.known && sources[i - 1].resent == o.resent
          && sources[i - 1].inputs < o.inputs)
  }

  ghost predicate LinkOk(link: Link, sources: seq<Origin>) {
    var o, n := link.origin, |sources|;
    && n == (if link.next > o.known then link.next else o.known)
    && link.offset <= |o.inputs| && Since(o.inputs) == |o.inputs| - link.offset
    && (link.next < o.known ==> o.resent == |o.inputs|)
    && (link.next == o.known ==> o.resent == |o.inputs| - link.offset)
    && (link.next > o.known ==>
          && sources[n - 1].known == o.known && sources[n - 1].resent == o.resent
          && sources[n - 1].inputs < o.inputs && |sources[n - 1].inputs| + 1 == |o.inputs| - link.offset)
  }

  ghost predicate OriginInv(s: System) {
    && |s.sources| == |s.accepted|
    && (forall i :: 0 <= i < |s.sources| ==> SourceOk(s.sources, i))
    && (s.link.Some? ==> LinkOk(s.link.value, s.sources))
  }

  lemma SinceNone()
    ensures Since([]) == 0
  {
  }

  lemma SinceNext(inputs: seq<Input>, x: Input)
    ensures Since(inputs + [x]) == if x.message.Commit? && Open(inputs) then |inputs| + 1 else Since(inputs)
  {
    assert (inputs + [x])[..|inputs|] == inputs;
  }

  // The message sent next, for the link's history.
  lemma ReceivedSince(log: seq<Published>, limits: Limits, link: Link, l: Move, n: nat)
    requires PublishedLog(log) && LinkInv(log, limits, link, n) && l.Message? && link.next < |log|
    ensures Since(Received(log, link, l).inputs) ==
            if link.offset == |log[link.next].body| + 1 then |link.origin.inputs| + 1 else Since(link.origin.inputs)
  {
    var p, k, inputs := log[link.next], link.offset, link.origin.inputs;
    var x := Input(Wire(p, k), l.answers.look);
    PendingFollows(limits, inputs);
    SinceNext(inputs, x);
    hide Fed, Kept, Since, EndsWith, Clear, TotalBytes;
    assert x.message.Commit? <==> k == |p.body| + 1;
  }

  // A link's history after one more message, which may end its transaction.
  lemma HistoryGrows(link: Link, now: Link, x: Input, ended: bool, sources: seq<Origin>, more: seq<Origin>)
    requires LinkOk(link, sources) && now.origin.known == link.origin.known
    requires now.origin.inputs == link.origin.inputs + [x]
    requires now.origin.resent == (if link.next < link.origin.known then |now.origin.inputs| else link.origin.resent)
    requires now.next == (if ended then link.next + 1 else link.next)
    requires now.offset == (if ended then 0 else link.offset + 1)
    requires Since(now.origin.inputs) == (if ended then |link.origin.inputs| + 1 else Since(link.origin.inputs))
    requires more == (if ended && link.next == |sources| then sources + [link.origin] else sources)
    ensures LinkOk(now, more)
  {
    hide Since;
    assert link.origin.inputs < now.origin.inputs;
  }

  // The link after a message that did not end the connection.
  lemma LinkStays(log: seq<Published>, limits: Limits, link: Link, l: Move, sources: seq<Origin>, more: seq<Origin>)
    requires PublishedLog(log) && LinkInv(log, limits, link, |sources|) && l.Message? && link.next < |log|
    requires LinkOk(link, sources) && NextLink(log, limits, link, l).Some?
    requires more == (if link.offset == |log[link.next].body| + 1 && link.next == |sources|
                      then sources + [link.origin] else sources)
    ensures LinkOk(NextLink(log, limits, link, l).value, more)
  {
    hide Since, ConsumedAt, NextLink, PublishedLog, LinkOk;
    ReceivedSince(log, limits, link, l, |sources|);
    LinkMoves(log, limits, link, l);
    hide LinkInv;
    HistoryGrows(link, NextLink(log, limits, link, l).value, Input(Wire(log[link.next], link.offset), l.answers.look),
                 link.offset == |log[link.next].body| + 1, sources, more);
  }

  lemma LinkMoves(log: seq<Published>, limits: Limits, link: Link, l: Move)
    requires l.Message? && WellFormedState(link.decoder)
    requires link.next < |log| && link.offset <= |log[link.next].body| + 1
    requires NextLink(log, limits, link, l).Some?
    ensures var now := NextLink(log, limits, link, l).value;
            now.origin == Received(log, link, l) && (now.next, now.offset) == Advanced(log, link)
  {
    hide ConsumedAt, WellFormedState;
  }

  lemma SourcesGrow(link: Link, sources: seq<Origin>)
    requires LinkOk(link, sources) && link.next == |sources|
    requires forall i :: 0 <= i < |sources| ==> SourceOk(sources, i)
    ensures forall i :: 0 <= i <= |sources| ==> SourceOk(sources + [link.origin], i)
  {
    hide Since;
    var more, n := sources + [link.origin], |sources|;
    forall i | 0 <= i <= n ensures SourceOk(more, i) {
      if i < n { assert SourceOk(sources, i); }
      if i == n > link.origin.known { assert SourceOk(sources, n - 1); }
    }
  }

  // The hub knows a transaction by its position.
  lemma KnownIff(log: seq<Published>, s: System, next: nat)
    requires PublishedLog(log) && AcceptedPrefix(log, s.accepted, s.received)
    requires next <= |s.accepted| && next < |log|
    ensures s.received.Some? && log[next].endLSN <= s.received.value <==> next < |s.accepted|
  {
    var n := |s.accepted|;
    if next < n - 1 {
      assert log[next].endLSN <= log[n - 1].commitLSN;
    } else if next == n > 0 {
      assert log[n - 1].endLSN <= log[n].commitLSN;
    }
  }

  // What a message does to the accepted log.
  lemma MessageSources(log: seq<Published>, limits: Limits, s: System, l: Move)
    requires PublishedLog(log) && Inv(log, limits, s) && l.Message? && CanStep(log, s, l) && OriginInv(s)
    ensures var link, s' := s.link.value, Next(log, limits, s, l);
            var ended := link.offset == |log[link.next].body| + 1;
            && |s'.sources| == |s'.accepted|
            && (s'.sources == s.sources
                || (ended && link.next == |s.sources| && s'.sources == s.sources + [link.origin]))
            && (s'.link.Some? && ended && link.next == |s.sources| ==> s'.sources == s.sources + [link.origin])
  {
    var link, n := s.link.value, |s.accepted|;
    assert |s.sources| == n && link.next <= n;
    hide OriginInv, PublishedLog, ConsumedAt, WellFormedState, ContentOf, PositionsClear, ContentIs;
    ConsumedMessage(log, limits, link, l, n);
    hide LinkInv;
    KnownIff(log, s, link.next);
    hide AcceptedPrefix;
  }

  lemma OriginStep(log: seq<Published>, limits: Limits, s: System, l: Move)
    requires PublishedLog(log) && Inv(log, limits, s) && CanStep(log, s, l) && OriginInv(s)
    ensures OriginInv(Next(log, limits, s, l))
  {
    hide PublishedLog, Inv, OriginInv, Next, CanStep;
    if l.Message? {
      OriginMessage(log, limits, s, l);
    } else {
      OriginOther(log, limits, s, l);
    }
  }

  lemma OriginConnect(log: seq<Published>, limits: Limits, s: System)
    requires PublishedLog(log) && Inv(log, limits, s) && CanStep(log, s, Connect) && OriginInv(s)
    ensures OriginInv(Next(log, limits, s, Connect))
  {
    StartsClear(log, limits, s);
    SinceNone();
    hide PublishedLog, Inv, SourceOk, FirstFrom, Since;
  }

  lemma OriginOther(log: seq<Published>, limits: Limits, s: System, l: Move)
    requires PublishedLog(log) && Inv(log, limits, s) && !l.Message? && CanStep(log, s, l) && OriginInv(s)
    ensures OriginInv(Next(log, limits, s, l))
  {
    hide PublishedLog, Inv, SourceOk, ConsumedAt, NextLink, Outside, FirstFrom, WellFormedState, Since;
    match l
    case Connect => OriginConnect(log, limits, s);
    case KeepAlive(_, _, _) => OutsideAlone(log, limits, s, l);
    case Corrupt(_) => OutsideAlone(log, limits, s, l);
    case _ =>
  }

  // Neither a keepalive nor corrupt data hands anything over, or moves the link on.
  lemma OutsideAlone(log: seq<Published>, limits: Limits, s: System, l: Move)
    requires s.link.Some? && WellFormedState(s.link.value.decoder)
    requires l.KeepAlive? || (l.Corrupt? && IsCorrupt(l.data))
    ensures var link := s.link.value;
            var s' := Outside(s, ConsumedAt(log, limits, link, l).2, link.origin);
            && s'.accepted == s.accepted && s'.sources == s.sources
            && (NextLink(log, limits, link, l).Some? ==>
                  var now := NextLink(log, limits, link, l).value;
                  now.origin == link.origin && now.next == link.next && now.offset == link.offset)
  {
    hide WellFormedState;
  }

  lemma OriginMessage(log: seq<Published>, limits: Limits, s: System, l: Move)
    requires PublishedLog(log) && Inv(log, limits, s) && l.Message? && CanStep(log, s, l) && OriginInv(s)
    ensures OriginInv(Next(log, limits, s, l))
  {
    MessageSources(log, limits, s, l);
    var link, s' := s.link.value, Next(log, limits, s, l);
    assert s'.link == NextLink(log, limits, link, l);
    hide Next, NextLink, ConsumedAt, SourceOk, LinkOk, ContentIs, AcceptedPrefix, PositionsClear, PublishedLog;
    if s'.link.Some? { LinkStays(log, limits, link, l, s.sources, s'.sources); }
    if s'.sources != s.sources { SourcesGrow(link, s.sources); }
  }

  lemma {:induction false} OriginRun(log: seq<Published>, limits: Limits, s: System, steps: seq<Move>)
    requires PublishedLog(log) && Initial(log, s) && IsRun(log, limits, s, steps)
    ensures Inv(log, limits, Reached(log, limits, s, steps)) && OriginInv(Reached(log, limits, s, steps))
  {
    if steps == [] {
    } else {
      var n := |steps| - 1;
      OriginRun(log, limits, s, steps[..n]);
      hide PublishedLog, Inv, OriginInv, Next, CanStep;
      OriginStep(log, limits, Reached(log, limits, s, steps[..n]), steps[n]);
      NextKeeps(log, limits, Reached(log, limits, s, steps[..n]), steps[n]);
    }
  }

  // Which reports the hub takes

  // An accepted transaction, handed over by the connection of accepted[i] no later
  // than it and after that connection's input d, reports the table.
  ghost predicate Taken(s: System, i: nat, d: nat, table: string)
    requires |s.sources| == |s.accepted| && i < |s.accepted|
  {
    exists k :: s.sources[i].known <= k <= i && d < |s.sources[k].inputs| && table in s.accepted[k].incompatible
  }

  lemma {:induction false} EarlierSource(s: System, i: nat, k: nat)
    requires OriginInv(s) && i < |s.sources| && s.sources[i].known <= k <= i
    ensures s.sources[k].known == s.sources[i].known && s.sources[k].resent == s.sources[i].resent
    ensures s.sources[k].inputs <= s.sources[i].inputs
  {
    hide Since;
    if k < i {
      assert SourceOk(s.sources, i);
      EarlierSource(s, i - 1, k);
    }
  }

  // A check is made by a message that is not a COMMIT.
  lemma ReportsBefore(inputs: seq<Input>, j: nat, table: string)
    requires j < |inputs| && ReportsAt(inputs, j, table) && j < Since(inputs)
    ensures j < Since(inputs) - 1
  {
    hide Since;
  }

  // A report found once the connection had stopped resending is taken.
  lemma {:induction false} FreshIsTaken(log: seq<Published>, limits: Limits, s: System, i: nat, j: nat, table: string)
    returns (k: nat)
    requires Inv(log, limits, s) && OriginInv(s) && i < |s.accepted|
    requires s.sources[i].resent <= j < |s.sources[i].inputs| && ReportsAt(s.sources[i].inputs, j, table)
    ensures s.sources[i].known <= k <= i && j < |s.sources[k].inputs| && table in s.accepted[k].incompatible
  {
    hide Since, Reports, Kept, EndsWith, ReportsAt, Tables;
    var o := s.sources[i];
    assert SourceOk(s.sources, i);
    if Since(o.inputs) <= j {
      k := i;
      assert ContentOf(log[i], limits, s.accepted[i], o.inputs);
      ReportsHold(o.inputs, table);
    } else {
      var before := s.sources[i - 1];
      ReportsBefore(o.inputs, j, table);
      assert before.inputs == o.inputs[..|before.inputs|];
      ReportsAtPrefix(o.inputs, |before.inputs|, j, table);
      k := FreshIsTaken(log, limits, s, i - 1, j, table);
    }
  }

  // The tables reported by an accepted transaction were found by checks that came
  // after the connection had stopped resending.
  lemma TakenIsFresh(log: seq<Published>, limits: Limits, s: System, i: nat, k: nat, table: string) returns (j: nat)
    requires Inv(log, limits, s) && OriginInv(s) && i < |s.accepted| && s.sources[i].known <= k <= i
    requires table in s.accepted[k].incompatible
    ensures Since(s.sources[k].inputs) <= j < |s.sources[k].inputs|
    ensures s.sources[i].resent <= Since(s.sources[k].inputs)
    ensures j < |s.sources[i].inputs| && ReportsAt(s.sources[i].inputs, j, table)
  {
    var inputs := s.sources[k].inputs;
    EarlierSource(s, i, k);
    SinceResent(s, k);
    assert ContentOf(log[k], limits, s.accepted[k], inputs);
    hide OriginInv, Inv, Since, Reports, Kept, EndsWith, ReportsAt;
    ReportsHold(inputs, table);
    j :| Since(inputs) <= j < |inputs| && ReportsAt(inputs, j, table);
    assert inputs == s.sources[i].inputs[..|inputs|];
    ReportsAtPrefix(s.sources[i].inputs, |inputs|, j, table);
  }

  // An accepted transaction began after its connection had stopped resending.
  lemma SinceResent(s: System, k: nat)
    requires OriginInv(s) && k < |s.sources|
    ensures s.sources[k].resent <= Since(s.sources[k].inputs)
  {
    hide Since;
    assert SourceOk(s.sources, k);
    if k > s.sources[k].known { assert SourceOk(s.sources, k - 1); }
  }

  // Exactly when the hub is told of a table found incompatible at input d: some
  // check at or after d found it once the connection had stopped resending
  // transactions the hub already had.
  lemma TakenIff(log: seq<Published>, limits: Limits, s: System, i: nat, d: nat, table: string)
    requires Inv(log, limits, s) && OriginInv(s) && i < |s.accepted|
    requires d < |s.sources[i].inputs| && ReportsAt(s.sources[i].inputs, d, table)
    ensures Taken(s, i, d, table) <==>
            exists j :: d <= j < |s.sources[i].inputs| && s.sources[i].resent <= j
                        && ReportsAt(s.sources[i].inputs, j, table)
  {
    hide Inv, OriginInv, ReportsAt, Since;
    assert |s.sources| == |s.accepted| by { SourcesMatch(s); }
    var inputs, resent := s.sources[i].inputs, s.sources[i].resent;
    if j :| d <= j < |inputs| && resent <= j && ReportsAt(inputs, j, table) {
      var k := FreshIsTaken(log, limits, s, i, j, table);
    }
    if k :| s.sources[i].known <= k <= i && d < |s.sources[k].inputs| && table in s.accepted[k].incompatible {
      var j := TakenIsFresh(log, limits, s, i, k, table);
      if j < d { assert resent <= d; }
    }
  }

  lemma SourcesMatch(s: System)
    requires OriginInv(s)
    ensures |s.sources| == |s.accepted|
  {
  }

  // No silent schema drop, as the hub sees it. Over any run, a row dropped from an
  // accepted transaction has its table reported by an accepted transaction, at or
  // after the check that decided the drop and no later than its own, if and only if
  // that check, or a later one that finds the table again, was made after the
  // connection had stopped resending what the hub already had.
  lemma DropIsTakenIff(log: seq<Published>, limits: Limits, s: System, steps: seq<Move>, i: nat, r: nat)
    requires PublishedLog(log) && Initial(log, s) && IsRun(log, limits, s, steps)
    requires i < |Reached(log, limits, s, steps).accepted|
    requires i < |Reached(log, limits, s, steps).sources|
    requires IsDropped(Reached(log, limits, s, steps).sources[i].inputs, r)
    ensures var now := Reached(log, limits, s, steps);
            var o := now.sources[i];
            var d, table := Decider(o.inputs, r), TableOf(o.inputs, r);
            && |now.sources| == |now.accepted|
            && (Taken(now, i, d, table) <==>
                  exists j :: d <= j < |o.inputs| && o.resent <= j && ReportsAt(o.inputs, j, table))
            && (o.resent <= d ==> Taken(now, i, d, table))
  {
    hide PublishedLog, Initial, IsRun, Reached, Inv, OriginInv, ReportsAt, Decider, TableOf, Taken;
    OriginRun(log, limits, s, steps);
    var now := Reached(log, limits, s, steps);
    SourcesMatch(now);
    DropIsReported(now.sources[i].inputs, r);
    TakenIff(log, limits, now, i, Decider(now.sources[i].inputs, r), TableOf(now.sources[i].inputs, r));
  }
}
