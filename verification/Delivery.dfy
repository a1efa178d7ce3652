// Exactly-once delivery (internal/cdc/stream.go, internal/watch/hub.go): the
// reader's connections, one after another, against a PostgreSQL walsender that
// resends from the slot's confirmed position, and the hub as the sink.
module Delivery {
  import opened Cdc
  import opened Decoder
  import DecoderRuns
  import HubSpec
  import opened Stream
  import Watch

  // One transaction of the publication: what the walsender sends between its
  // BEGIN and its COMMIT.
  datatype Published = Published(commitLSN: LSN, endLSN: LSN, xid: uint32, body: seq<Message>)

  // Commits are strictly ordered, and a body holds no BEGIN or COMMIT.
  ghost predicate PublishedLog(log: seq<Published>) {
    && (forall i :: 0 <= i < |log| ==> log[i].commitLSN < log[i].endLSN)
    && (forall i, j :: 0 <= i < j < |log| ==> log[i].endLSN <= log[j].commitLSN)
    && (forall i, k :: 0 <= i < |log| && 0 <= k < |log[i].body| ==>
          !log[i].body[k].Begin? && !log[i].body[k].Commit?)
  }

  // A transaction's messages on the wire.
  function Wire(p: Published, k: nat): Message
    requires k <= |p.body| + 1
  {
    if k == 0 then Begin(p.xid) else if k <= |p.body| then p.body[k - 1] else Commit(p.commitLSN, p.endLSN)
  }

  // A connection's history: what its decoder has consumed, how many transactions
  // the hub had accepted when it was made, and how many of the messages belonged to
  // those.
  datatype Origin = Origin(inputs: seq<DecoderRuns.Input>, known: nat, resent: nat)

  // One connection: how far the walsender has sent, the reader's variables, and
  // its history.
  datatype Link = Link(next: nat, offset: nat, decoder: State, safe: LSN, origin: Origin)

  // `confirmed` is the slot's confirmed position, `sent` every position a standby
  // status has carried, `accepted` and `received` the hub's, and `sources[i]` the
  // history of the connection that handed over accepted[i], up to its COMMIT.
  datatype System = System(confirmed: LSN, sent: set<LSN>, link: Option<Link>, accepted: seq<Transaction>,
                           received: Option<LSN>, sources: seq<Origin>)

  datatype Move =
    | Connect
    | Message(walBytes: nat, answers: Answers)
    | Corrupt(data: CopyData)
    | KeepAlive(serverWALEnd: LSN, replyRequested: bool, answers: Answers)
    | Status(ok: bool)
    | Disconnect
    | Confirm(position: LSN)

  // The first transaction a connection starting at `start` is sent: those that
  // commit before it are skipped.
  function FirstFrom(log: seq<Published>, start: LSN): (n: nat)
    ensures n <= |log|
    ensures n < |log| ==> log[n].commitLSN >= start
    ensures forall i :: 0 <= i < n ==> log[i].commitLSN < start
  {
    if log == [] || log[0].commitLSN >= start then 0 else 1 + FirstFrom(log[1..], start)
  }

  // The first transaction of which nothing has been sent.
  function FirstUnsent(link: Link): nat {
    if link.offset > 0 then link.next + 1 else link.next
  }

  predicate IsCorrupt(data: CopyData) {
    !data.Keepalive? && (data.XLog? ==> data.message.None?)
  }

  ghost predicate CanStep(log: seq<Published>, s: System, l: Move) {
    match l
    case Connect => s.link.None?
    case Message(_, _) =>
      && s.link.Some? && s.link.value.next < |log| && s.link.value.offset <= |log[s.link.value.next].body| + 1
      && WellFormedState(s.link.value.decoder)
    case Corrupt(data) => s.link.Some? && WellFormedState(s.link.value.decoder) && IsCorrupt(data)
    // A keepalive's position never passes a transaction of which nothing was sent.
    case KeepAlive(serverWALEnd, _, _) =>
      && s.link.Some? && WellFormedState(s.link.value.decoder)
      && (forall i :: FirstUnsent(s.link.value) <= i < |log| ==> serverWALEnd <= log[i].commitLSN)
    case Status(_) => s.link.Some?
    case Disconnect => s.link.Some?
    // The slot may take any status it was sent, early or late, or miss it.
    case Confirm(position) => position in s.sent
  }

  // The hub's acceptance rule, on its log and its newest position alone.
  function Sunk(s: System, t: Transaction, source: Origin): System {
    if s.received.Some? && t.cursor <= s.received.value then s
    else s.(accepted := s.accepted + [t], received := Some(t.cursor), sources := s.sources + [source])
  }

  // What a consumed message does outside the connection.
  function Outside(s: System, effect: Effect, source: Origin): System {
    var sunk := if effect.accepted && effect.handed.Some? then Sunk(s, effect.handed.value, source) else s;
    if effect.sent.Some? then sunk.(sent := sunk.sent + {effect.sent.value}) else sunk
  }

  function Advanced(log: seq<Published>, link: Link): (nat, nat)
    requires link.next < |log| && link.offset <= |log[link.next].body| + 1
  {
    if link.offset <= |log[link.next].body| then (link.next, link.offset + 1) else (link.next + 1, 0)
  }

  ghost function ConsumedAt(log: seq<Published>, limits: Limits, link: Link, l: Move): (State, LSN, Effect)
    requires WellFormedState(link.decoder) && (l.Message? || l.Corrupt? || l.KeepAlive?)
    requires l.Message? ==> link.next < |log| && link.offset <= |log[link.next].body| + 1
  {
    match l
    case Message(walBytes, answers) =>
      Consumed(link.decoder, link.safe, XLog(walBytes, Some(Wire(log[link.next], link.offset))), answers, limits)
    case Corrupt(data) => Consumed(link.decoder, link.safe, data, Answers(NoShapes, false, false), limits)
    case KeepAlive(serverWALEnd, replyRequested, answers) =>
      Consumed(link.decoder, link.safe, Keepalive(serverWALEnd, replyRequested), answers, limits)
  }

  // The history after one more message.
  function Received(log: seq<Published>, link: Link, l: Move): Origin
    requires l.Message? && link.next < |log| && link.offset <= |log[link.next].body| + 1
  {
    var inputs := link.origin.inputs + [DecoderRuns.Input(Wire(log[link.next], link.offset), l.answers.look)];
    link.origin.(inputs := inputs,
                 resent := if link.next < link.origin.known then |inputs| else link.origin.resent)
  }

  ghost function NextLink(log: seq<Published>, limits: Limits, link: Link, l: Move): Option<Link>
    requires WellFormedState(link.decoder) && (l.Message? || l.Corrupt? || l.KeepAlive?)
    requires l.Message? ==> link.next < |log| && link.offset <= |log[link.next].body| + 1
  {
    var (decoder, safe, effect) := ConsumedAt(log, limits, link, l);
    if effect.error.Some? then None
    else if !l.Message? then Some(link.(decoder := decoder, safe := safe))
    else
      var (next, offset) := Advanced(log, link);
      Some(Link(next, offset, decoder, safe, Received(log, link, l)))
  }

  ghost function Next(log: seq<Published>, limits: Limits, s: System, l: Move): System
    requires CanStep(log, s, l)
  {
    match l
    // requireSlot: a connection starts where the slot is, with a new decoder.
    case Connect =>
      s.(link := Some(Link(FirstFrom(log, s.confirmed), 0, EMPTY, s.confirmed, Origin([], |s.accepted|, 0))))
    case Status(ok) =>
      s.(sent := s.sent + {s.link.value.safe}, link := if ok then s.link else None)
    case Disconnect => s.(link := None)
    case Confirm(position) => s.(confirmed := position)
    case _ =>
      var link := s.link.value;
      Outside(s, ConsumedAt(log, limits, link, l).2, link.origin).(link := NextLink(log, limits, link, l))
  }

  ghost predicate IsRun(log: seq<Published>, limits: Limits, s: System, steps: seq<Move>)
    decreases |steps|, 0
  {
    steps == [] ||
    (IsRun(log, limits, s, steps[..|steps| - 1])
     && CanStep(log, Reached(log, limits, s, steps[..|steps| - 1]), steps[|steps| - 1]))
  }

  ghost function Reached(log: seq<Published>, limits: Limits, s: System, steps: seq<Move>): System
    requires IsRun(log, limits, s, steps)
    decreases |steps|, 1
  {
    if steps == [] then s
    else Next(log, limits, Reached(log, limits, s, steps[..|steps| - 1]), steps[|steps| - 1])
  }

  // A new hub and a slot created before the log's first commit.
  ghost predicate Initial(log: seq<Published>, s: System) {
    && s.sent == {} && s.link.None? && s.accepted == [] && s.received.None? && s.sources == []
    && forall i :: 0 <= i < |log| ==> s.confirmed <= log[i].commitLSN
  }

  // The invariant

  ghost predicate Matches(t: Transaction, p: Published) {
    t.cursor == p.endLSN && t.commitLSN == p.commitLSN && t.xid == p.xid
  }

  // No transaction from the n-th on commits before the position.
  ghost predicate Clear(log: seq<Published>, position: LSN, n: nat) {
    forall i :: n <= i < |log| ==> position <= log[i].commitLSN
  }

  // The decoder's latest messages are the transaction's own, up to message k.
  ghost predicate EndsWith(inputs: seq<DecoderRuns.Input>, p: Published, k: nat) {
    && k <= |p.body| + 1 && k <= |inputs|
    && forall j :: 0 <= j < k ==> inputs[|inputs| - k + j].message == Wire(p, j)
  }

  // Each accepted transaction holds exactly what the decoder's reference kept of
  // the published transaction's messages, and reports exactly what it found.
  ghost predicate ContentIs(log: seq<Published>, limits: Limits, accepted: seq<Transaction>,
                            sources: seq<Origin>)
    requires |accepted| <= |log|
  {
    && |sources| == |accepted|
    && forall i :: 0 <= i < |accepted| ==> ContentOf(log[i], limits, accepted[i], sources[i].inputs)
  }

  ghost predicate ContentOf(p: Published, limits: Limits, t: Transaction, inputs: seq<DecoderRuns.Input>) {
    && EndsWith(inputs, p, |p.body| + 1) && t.changes == DecoderRuns.Kept(limits, inputs)
    && t.incompatible == Tables(DecoderRuns.Reports(inputs))
  }

  ghost predicate AcceptedPrefix(log: seq<Published>, accepted: seq<Transaction>, received: Option<LSN>) {
    && |accepted| <= |log|
    && (forall i :: 0 <= i < |accepted| ==> Matches(accepted[i], log[i]))
    && received == (if accepted == [] then None else Some(log[|accepted| - 1].endLSN))
  }

  ghost predicate LinkInv(log: seq<Published>, limits: Limits, link: Link, n: nat) {
    && link.next <= n && link.next <= |log|
    && (link.next == |log| ==> link.offset == 0)
    && (link.next < |log| ==> link.offset <= |log[link.next].body| + 1)
    && link.decoder == DecoderRuns.Fed(limits, link.origin.inputs)
    && (link.next < |log| ==> EndsWith(link.origin.inputs, log[link.next], link.offset))
    && (link.decoder.pending.Some? <==> link.offset > 0)
    && (link.offset > 0 ==> link.next < |log| && link.decoder.xid == log[link.next].xid)
    && Clear(log, link.safe, link.next)
  }

  ghost predicate Inv(log: seq<Published>, limits: Limits, s: System) {
    && AcceptedPrefix(log, s.accepted, s.received)
    && ContentIs(log, limits, s.accepted, s.sources)
    && PositionsClear(log, s)
    && (s.link.Some? ==> LinkInv(log, limits, s.link.value, |s.accepted|))
  }

  // What the decoder does with a transaction's messages in order.
  lemma WireStep(s: State, p: Published, k: nat, look: Look, limits: Limits)
    requires WellFormedState(s) && k <= |p.body| + 1 && (s.pending.Some? <==> k > 0) && (k > 0 ==> s.xid == p.xid)
    requires forall j :: 0 <= j < |p.body| ==> !p.body[j].Begin? && !p.body[j].Commit?
    ensures var (s', outcome) := Step(s, Wire(p, k), look, limits);
            && WellFormedState(s')
            && (k <= |p.body| ==> !outcome.Emitted? && (outcome.Quiet? ==> s'.pending.Some? && s'.xid == p.xid))
            && (k == |p.body| + 1 ==>
                  && outcome.Emitted? && Matches(outcome.transaction, p) && s'.pending.None?
                  && outcome.transaction.changes == s.pending.value
                  && outcome.transaction.incompatible == Tables(s.events))
  {
    DecoderRuns.StepWellFormed(s, Wire(p, k), look, limits);
    hide RowChange, ChangeBytes, CheckedEvents, CheckedInfo, WellFormedState;
  }

  // Handing over transaction k keeps the hub's log the published prefix: it is the
  // next one, or one the hub already has and ignores.
  lemma SunkKeeps(log: seq<Published>, limits: Limits, s: System, t: Transaction, k: nat, source: Origin)
    requires PublishedLog(log) && AcceptedPrefix(log, s.accepted, s.received)
    requires ContentIs(log, limits, s.accepted, s.sources)
    requires k < |log| && k <= |s.accepted| && Matches(t, log[k])
    requires ContentOf(log[k], limits, t, source.inputs)
    ensures var s' := Sunk(s, t, source);
            && AcceptedPrefix(log, s'.accepted, s'.received) && ContentIs(log, limits, s'.accepted, s'.sources)
            && s'.sent == s.sent && s'.confirmed == s.confirmed
            && |s'.accepted| == (if k == |s.accepted| then |s.accepted| + 1 else |s.accepted|)
  {
    hide ContentOf;
    if k < |s.accepted| - 1 {
      assert log[k].endLSN <= log[|s.accepted| - 1].commitLSN;
    } else if k == |s.accepted| && k > 0 {
      assert log[k - 1].endLSN <= log[k].commitLSN;
    }
  }

  lemma ConsumedMessage(log: seq<Published>, limits: Limits, link: Link, l: Move, n: nat)
    requires PublishedLog(log) && LinkInv(log, limits, link, n) && l.Message? && link.next < |log|
    ensures var (decoder, safe, effect) := ConsumedAt(log, limits, link, l);
            var p := log[link.next];
            && WellFormedState(decoder)
            && (link.offset <= |p.body| ==>
                  && safe == link.safe && !effect.accepted && effect.sent.None?
                  && (effect.error.None? ==> decoder.pending.Some? && decoder.xid == p.xid))
            && (link.offset == |p.body| + 1 ==>
                  if effect.accepted
                  then && effect.handed.Some? && Matches(effect.handed.value, p)
                       && ContentOf(p, limits, effect.handed.value, link.origin.inputs)
                       && safe == p.endLSN && effect.sent == Some(p.endLSN) && decoder.pending.None?
                  else safe == link.safe && effect.sent.None? && effect.error.Some?)
  {
    var p := log[link.next];
    WireStep(link.decoder, p, link.offset, l.answers.look, limits);
    DecoderRuns.PendingFollows(limits, link.origin.inputs);
    DecoderRuns.EventsFollow(limits, link.origin.inputs);
    hide Step, WellFormedState, Clear, EndsWith, DecoderRuns.Fed, DecoderRuns.Kept, DecoderRuns.Reports;
  }

  // The decoder after one more message of the transaction being sent.
  lemma FedNext(log: seq<Published>, limits: Limits, link: Link, l: Move, n: nat)
    requires PublishedLog(log) && LinkInv(log, limits, link, n) && l.Message? && link.next < |log|
    requires NextLink(log, limits, link, l).Some?
    ensures var now := NextLink(log, limits, link, l).value;
            && now.decoder == DecoderRuns.Fed(limits, now.origin.inputs)
            && (now.next < |log| ==> EndsWith(now.origin.inputs, log[now.next], now.offset))
  {
    hide EndsWith, Clear, Step, WellFormedState, DecoderRuns.Fed, ConsumedAt;
    var p, k, inputs := log[link.next], link.offset, link.origin.inputs;
    var x := DecoderRuns.Input(Wire(p, k), l.answers.look);
    DecoderStepped(log, limits, link, l);
    FedOneMore(limits, inputs, x);
    var now := NextLink(log, limits, link, l).value;
    assert now.origin.inputs == inputs + [x] && now.decoder == Step(link.decoder, x.message, x.look, limits).0;
    if k <= |p.body| {
      EndsWithNext(inputs, p, k, x);
    } else if link.next + 1 < |log| {
      EndsWithNone(inputs + [x], log[link.next + 1]);
    }
  }

  lemma DecoderStepped(log: seq<Published>, limits: Limits, link: Link, l: Move)
    requires l.Message? && WellFormedState(link.decoder)
    requires link.next < |log| && link.offset <= |log[link.next].body| + 1
    ensures NextLink(log, limits, link, l).Some? ==>
              NextLink(log, limits, link, l).value.decoder ==
              Step(link.decoder, Wire(log[link.next], link.offset), l.answers.look, limits).0
  {
    hide Step, WellFormedState;
  }

  lemma FedOneMore(limits: Limits, inputs: seq<DecoderRuns.Input>, x: DecoderRuns.Input)
    ensures DecoderRuns.Fed(limits, inputs + [x]) ==
            Step(DecoderRuns.Fed(limits, inputs), x.message, x.look, limits).0
  {
    assert (inputs + [x])[..|inputs|] == inputs;
  }

  lemma EndsWithNext(inputs: seq<DecoderRuns.Input>, p: Published, k: nat, x: DecoderRuns.Input)
    requires EndsWith(inputs, p, k) && k <= |p.body| && x.message == Wire(p, k)
    ensures EndsWith(inputs + [x], p, k + 1)
  {
  }

  lemma EndsWithNone(inputs: seq<DecoderRuns.Input>, p: Published)
    ensures EndsWith(inputs, p, 0)
  {
  }

  // What every position a status carried, and the slot, must satisfy.
  ghost predicate PositionsClear(log: seq<Published>, s: System) {
    Clear(log, s.confirmed, |s.accepted|) && forall a :: a in s.sent ==> Clear(log, a, |s.accepted|)
  }

  lemma MessageOutside(log: seq<Published>, limits: Limits, s: System, l: Move)
    requires PublishedLog(log) && Inv(log, limits, s) && l.Message? && CanStep(log, s, l)
    ensures var link, effect := s.link.value, ConsumedAt(log, limits, s.link.value, l).2;
            var s' := Outside(s, effect, link.origin);
            && AcceptedPrefix(log, s'.accepted, s'.received) && ContentIs(log, limits, s'.accepted, s'.sources)
            && PositionsClear(log, s')
            && |s'.accepted| >= |s.accepted| && (effect.accepted ==> |s'.accepted| >= link.next + 1)
  {
    var link, n := s.link.value, |s.accepted|;
    ConsumedMessage(log, limits, link, l, n);
    var p := log[link.next];
    var effect := ConsumedAt(log, limits, link, l).2;
    hide ConsumedAt, WellFormedState, EndsWith, DecoderRuns.Fed, DecoderRuns.Kept;
    if effect.accepted {
      SunkKeeps(log, limits, s, effect.handed.value, link.next, link.origin);
      hide AcceptedPrefix, ContentIs, Sunk;
      assert Clear(log, p.endLSN, link.next + 1);
    }
  }

  lemma MessageLink(log: seq<Published>, limits: Limits, link: Link, l: Move, n: nat, m: nat)
    requires PublishedLog(log) && LinkInv(log, limits, link, n) && l.Message? && link.next < |log|
    requires m >= n && (ConsumedAt(log, limits, link, l).2.accepted ==> m >= link.next + 1)
    requires NextLink(log, limits, link, l).Some?
    ensures LinkInv(log, limits, NextLink(log, limits, link, l).value, m)
  {
    ConsumedMessage(log, limits, link, l, n);
    FedNext(log, limits, link, l, n);
    var p := log[link.next];
    var effect := ConsumedAt(log, limits, link, l).2;
    if effect.accepted { assert Clear(log, p.endLSN, link.next + 1); }
    hide ConsumedAt, EndsWith, DecoderRuns.Fed, DecoderRuns.Kept, WellFormedState, PublishedLog;
  }

  lemma MessageKeeps(log: seq<Published>, limits: Limits, s: System, l: Move)
    requires PublishedLog(log) && Inv(log, limits, s) && l.Message? && CanStep(log, s, l)
    ensures Inv(log, limits, Next(log, limits, s, l))
  {
    hide ConsumedAt, NextLink, Outside, LinkInv, AcceptedPrefix, ContentIs, PublishedLog;
    MessageOutside(log, limits, s, l);
    var link, effect := s.link.value, ConsumedAt(log, limits, s.link.value, l).2;
    if NextLink(log, limits, link, l).Some? {
      MessageLink(log, limits, link, l, |s.accepted|, |Outside(s, effect, link.origin).accepted|);
    }
  }

  lemma KeepAliveKeeps(log: seq<Published>, limits: Limits, s: System, l: Move)
    requires PublishedLog(log) && Inv(log, limits, s) && l.KeepAlive? && CanStep(log, s, l)
    ensures Inv(log, limits, Next(log, limits, s, l))
  {
    hide AcceptedPrefix, ContentIs, EndsWith, WellFormedState, DecoderRuns.Fed;
  }

  lemma ConnectKeeps(log: seq<Published>, limits: Limits, s: System)
    requires PublishedLog(log) && Inv(log, limits, s) && CanStep(log, s, Connect)
    ensures Inv(log, limits, Next(log, limits, s, Connect))
  {
    StartsClear(log, limits, s);
    hide AcceptedPrefix, ContentIs, Clear, PublishedLog, FirstFrom;
  }

  lemma OtherKeeps(log: seq<Published>, limits: Limits, s: System, l: Move)
    requires Inv(log, limits, s) && CanStep(log, s, l)
    requires l.Corrupt? || l.Status? || l.Disconnect? || l.Confirm?
    ensures Inv(log, limits, Next(log, limits, s, l))
  {
    if l.Corrupt? { CorruptEnds(log, limits, s.link.value, l); }
    if l.Status? { SafeIsClear(log, limits, s.link.value, |s.accepted|); }
    hide AcceptedPrefix, ContentIs, Clear, LinkInv, ConsumedAt;
  }

  lemma SafeIsClear(log: seq<Published>, limits: Limits, link: Link, n: nat)
    requires LinkInv(log, limits, link, n)
    ensures Clear(log, link.safe, n)
  {
    hide EndsWith, DecoderRuns.Fed;
  }

  lemma CorruptEnds(log: seq<Published>, limits: Limits, link: Link, l: Move)
    requires l.Corrupt? && IsCorrupt(l.data) && WellFormedState(link.decoder)
    ensures var effect := ConsumedAt(log, limits, link, l).2;
            effect.error.Some? && !effect.accepted && effect.sent.None? && NextLink(log, limits, link, l).None?
  {
    hide WellFormedState;
  }

  // A connection starts at or before the first transaction the hub still needs.
  lemma StartsClear(log: seq<Published>, limits: Limits, s: System)
    requires PublishedLog(log) && Inv(log, limits, s)
    ensures FirstFrom(log, s.confirmed) <= |s.accepted|
    ensures Clear(log, s.confirmed, FirstFrom(log, s.confirmed))
  {
    var first, n := FirstFrom(log, s.confirmed), |s.accepted|;
    if n < |log| { assert s.confirmed <= log[n].commitLSN; }
    forall i | first <= i < |log| ensures s.confirmed <= log[i].commitLSN {
      if first < i { assert log[first].endLSN <= log[i].commitLSN; }
    }
  }

  lemma NextKeeps(log: seq<Published>, limits: Limits, s: System, l: Move)
    requires PublishedLog(log) && Inv(log, limits, s) && CanStep(log, s, l)
    ensures Inv(log, limits, Next(log, limits, s, l))
  {
    hide PublishedLog, Inv, CanStep, Next;
    match l
    case Message(_, _) => MessageKeeps(log, limits, s, l);
    case KeepAlive(_, _, _) => KeepAliveKeeps(log, limits, s, l);
    case Connect => ConnectKeeps(log, limits, s);
    case _ => OtherKeeps(log, limits, s, l);
  }

  lemma {:induction false} RunKeeps(log: seq<Published>, limits: Limits, s: System, steps: seq<Move>)
    requires PublishedLog(log) && Inv(log, limits, s) && IsRun(log, limits, s, steps)
    ensures Inv(log, limits, Reached(log, limits, s, steps))
  {
    if steps != [] {
      RunKeeps(log, limits, s, steps[..|steps| - 1]);
      NextKeeps(log, limits, Reached(log, limits, s, steps[..|steps| - 1]), steps[|steps| - 1]);
    }
  }

  // Exactly once: after any run of connections, messages, resends, failures and
  // confirmations, the hub's log is a gap-free, duplicate-free prefix of the
  // published log, each entry holding exactly what the decoder's reference keeps of
  // that transaction's messages and reporting what it found, and no position ever
  // sent in a status, nor the slot's own, lies past the commit of a published
  // transaction the hub has not accepted.
  lemma ExactlyOnce(log: seq<Published>, limits: Limits, s: System, steps: seq<Move>)
    requires PublishedLog(log) && Initial(log, s) && IsRun(log, limits, s, steps)
    ensures var r := Reached(log, limits, s, steps);
            && |r.accepted| <= |log|
            && (forall i :: 0 <= i < |r.accepted| ==> Matches(r.accepted[i], log[i]))
            && ContentIs(log, limits, r.accepted, r.sources)
            && (forall a, i :: (a in r.sent || a == r.confirmed) && |r.accepted| <= i < |log| ==>
                  a <= log[i].commitLSN)
  {
    RunKeeps(log, limits, s, steps);
  }

  // Within a connection the acknowledged position never falls.
  lemma SafeNeverFalls(log: seq<Published>, limits: Limits, s: System, l: Move)
    requires PublishedLog(log) && Inv(log, limits, s) && CanStep(log, s, l)
    requires s.link.Some? && Next(log, limits, s, l).link.Some?
    ensures s.link.value.safe <= Next(log, limits, s, l).link.value.safe
  {
    if l.Message? { ConsumedMessage(log, limits, s.link.value, l, |s.accepted|); }
    hide Inv, PublishedLog, WellFormedState;
  }

  // What the reader hands its sink is what the hub's own machine assumes of its
  // source: something it already received, or the next commit in order.
  lemma HandsInOrder(log: seq<Published>, limits: Limits, s: System, l: Move, h: HubSpec.HubState)
    requires PublishedLog(log) && Inv(log, limits, s) && l.Message? && CanStep(log, s, l)
    requires h.accepted == s.accepted && h.received == s.received
    requires ConsumedAt(log, limits, s.link.value, l).2.accepted
    ensures var t := ConsumedAt(log, limits, s.link.value, l).2.handed;
            t.Some? && Watch.SourceStep(h, t.value)
            && (HubSpec.Duplicate(h, t.value) <==> Sunk(s, t.value, s.link.value.origin) == s)
  {
    var link, n := s.link.value, |s.accepted|;
    ConsumedMessage(log, limits, link, l, n);
    assert link.next <= n && link.next < |log| && AcceptedPrefix(log, s.accepted, s.received);
    hide ConsumedAt, WellFormedState, ContentIs, ContentOf, EndsWith, LinkInv, PositionsClear, DecoderRuns.Fed;
    if link.next < n - 1 {
      assert log[link.next].endLSN <= log[n - 1].commitLSN;
    } else if link.next == n > 0 {
      assert log[n - 1].endLSN <= log[n].commitLSN;
    }
  }
}
