// The reader and the hub together (internal/cdc/stream.go, internal/watch/hub.go):
// connections against the walsender on one side, watchers on the other, and between
// them the sink, through which the reader calls Accept.
module Joint {
  import opened Cdc
  import opened Decoder
  import opened HubSpec
  import opened HubInvariant
  import D = Delivery
  import W = Watch
  import I = WatchInvariant

  datatype World = World(reader: D.System, hub: W.System)

  // A move of the reader, with the Accept it may make, or any other step of the hub.
  datatype Turn = Reads(move: D.Move) | Steps(step: W.Step)

  // What a move hands to the hub, and the hub takes.
  ghost function Handed(log: seq<D.Published>, limits: Limits, r: D.System, l: D.Move): Option<Transaction>
    requires D.CanStep(log, r, l)
  {
    if !l.Message? then None
    else
      var effect := D.ConsumedAt(log, limits, r.link.value, l).2;
      if effect.accepted then effect.handed else None
  }

  // The reader is one goroutine: it hands nothing over while its last Accept has a
  // tick to close.
  ghost predicate CanTurn(log: seq<D.Published>, limits: Limits, w: World, t: Turn) {
    match t
    case Reads(l) => D.CanStep(log, w.reader, l) && (Handed(log, limits, w.reader, l).Some? ==> w.hub.owed.None?)
    case Steps(l) => !l.AcceptStep? && W.Enabled(w.hub, l)
  }

  // The hub's own machine assumes an order of what it is handed. That it always is
  // so is proved below.
  ghost function Taken(s: W.System, t: Option<Transaction>): W.System {
    if t.Some? && W.Enabled(s, W.AcceptStep(t.value)) then W.Next(s, W.AcceptStep(t.value)) else s
  }

  ghost function Turned(log: seq<D.Published>, limits: Limits, w: World, t: Turn): World
    requires CanTurn(log, limits, w, t)
  {
    match t
    case Reads(l) => World(D.Next(log, limits, w.reader, l), Taken(w.hub, Handed(log, limits, w.reader, l)))
    case Steps(l) => w.(hub := W.Next(w.hub, l))
  }

  ghost predicate IsRun(log: seq<D.Published>, limits: Limits, w: World, run: seq<Turn>)
    decreases |run|, 0
  {
    run == [] ||
    (IsRun(log, limits, w, run[..|run| - 1])
     && CanTurn(log, limits, Reached(log, limits, w, run[..|run| - 1]), run[|run| - 1]))
  }

  ghost function Reached(log: seq<D.Published>, limits: Limits, w: World, run: seq<Turn>): World
    requires IsRun(log, limits, w, run)
    decreases |run|, 1
  {
    if run == [] then w
    else Turned(log, limits, Reached(log, limits, w, run[..|run| - 1]), run[|run| - 1])
  }

  ghost predicate Starts(log: seq<D.Published>, w: World, maxReplay: nat, queueSize: nat) {
    D.PublishedLog(log) && D.Initial(log, w.reader) && maxReplay >= 1 && queueSize >= 1
    && w.hub == W.Initial(maxReplay, queueSize)
  }

  // Both sides agree on the log.
  ghost predicate Agree(log: seq<D.Published>, limits: Limits, w: World) {
    && D.Inv(log, limits, w.reader) && I.Reachable(w.hub)
    && w.hub.hub.accepted == w.reader.accepted && w.hub.hub.received == w.reader.received
  }

  lemma AcceptLogs(h: HubState, t: Transaction)
    requires HubInv(h)
    ensures var r := Accept(h, t);
            if Duplicate(h, t) then r == h else r.accepted == h.accepted + [t] && r.received == Some(t.cursor)
  {
    if !Duplicate(h, t) { AcceptLog(h, t); }
    hide HubInv, Accept;
  }

  // The hub's side of a hand-over is always enabled, and logs what the reader's does.
  lemma HandOver(log: seq<D.Published>, limits: Limits, w: World, l: D.Move)
    requires D.PublishedLog(log) && Agree(log, limits, w) && CanTurn(log, limits, w, Reads(l))
    requires Handed(log, limits, w.reader, l).Some?
    ensures W.Enabled(w.hub, W.AcceptStep(Handed(log, limits, w.reader, l).value))
    ensures var r := Turned(log, limits, w, Reads(l));
            r.hub.hub.accepted == r.reader.accepted && r.hub.hub.received == r.reader.received
  {
    var t := Handed(log, limits, w.reader, l).value;
    D.HandsInOrder(log, limits, w.reader, l, w.hub.hub);
    I.ReachableInv(w.hub);
    AcceptLogs(w.hub.hub, t);
    assert w.hub.hub.watchers <= w.hub.hub.info.Keys;
    hide D.PublishedLog, D.Inv, I.Reachable, I.SystemInv, HubInv, Accept, D.ConsumedAt, D.NextLink, W.AfterAccept;
    assert W.Next(w.hub, W.AcceptStep(t)).hub == Accept(w.hub.hub, t) by { AfterIs(w.hub, t); }
  }

  lemma AfterIs(s: W.System, t: Transaction)
    requires W.Enabled(s, W.AcceptStep(t))
    ensures W.Next(s, W.AcceptStep(t)).hub == Accept(s.hub, t)
  {
    hide Accept;
  }

  // A move that hands nothing over leaves the reader's log.
  lemma NothingHanded(log: seq<D.Published>, limits: Limits, r: D.System, l: D.Move)
    requires D.CanStep(log, r, l) && Handed(log, limits, r, l).None?
    ensures D.Next(log, limits, r, l).accepted == r.accepted && D.Next(log, limits, r, l).received == r.received
  {
    hide D.NextLink, D.FirstFrom, WellFormedState;
  }

  // No step but Accept touches the log.
  lemma OtherStep(s: W.System, l: W.Step)
    requires W.Enabled(s, l) && !l.AcceptStep?
    ensures W.Next(s, l).hub.accepted == s.hub.accepted && W.Next(s, l).hub.received == s.hub.received
  {
    hide W.ActOnProgram, W.CanAct, Accept;
    if l.Act? { assert W.CanAct(s, l.w, l.action); }
  }

  lemma TurnKeeps(log: seq<D.Published>, limits: Limits, w: World, t: Turn)
    requires D.PublishedLog(log) && Agree(log, limits, w) && CanTurn(log, limits, w, t)
    ensures Agree(log, limits, Turned(log, limits, w, t))
    ensures w.hub.hub.accepted <= Turned(log, limits, w, t).hub.hub.accepted
  {
    hide D.PublishedLog, D.Inv, I.Reachable, D.CanStep, D.Next, W.Enabled, W.Next, D.ConsumedAt;
    match t
    case Steps(l) =>
      OtherStep(w.hub, l);
      I.ReachableNext(w.hub, l);
    case Reads(l) =>
      D.NextKeeps(log, limits, w.reader, l);
      var handed := Handed(log, limits, w.reader, l);
      if handed.Some? {
        HandOver(log, limits, w, l);
        I.ReachableNext(w.hub, W.AcceptStep(handed.value));
        I.ReachableInv(w.hub);
        AcceptLogs(w.hub.hub, handed.value);
        AfterIs(w.hub, handed.value);
        hide Accept, HubInv;
      } else {
        NothingHanded(log, limits, w.reader, l);
      }
  }

  lemma {:induction false} RunAgrees(log: seq<D.Published>, limits: Limits, w: World, run: seq<Turn>)
    requires D.PublishedLog(log) && Agree(log, limits, w) && IsRun(log, limits, w, run)
    ensures Agree(log, limits, Reached(log, limits, w, run))
  {
    hide D.PublishedLog, Agree, Turned, CanTurn;
    if run != [] {
      RunAgrees(log, limits, w, run[..|run| - 1]);
      TurnKeeps(log, limits, Reached(log, limits, w, run[..|run| - 1]), run[|run| - 1]);
    }
  }

  // What the hub held at any point of a run stays the beginning of what it holds.
  lemma {:induction false} LogGrows(log: seq<D.Published>, limits: Limits, w: World, run: seq<Turn>, n: nat)
    requires D.PublishedLog(log) && Agree(log, limits, w) && IsRun(log, limits, w, run) && n <= |run|
    ensures IsRun(log, limits, w, run[..n])
    ensures Reached(log, limits, w, run[..n]).hub.hub.accepted <= Reached(log, limits, w, run).hub.hub.accepted
  {
    hide D.PublishedLog, Agree, Turned, CanTurn;
    if n == |run| {
      assert run[..n] == run;
    } else {
      var m := |run| - 1;
      LogGrows(log, limits, w, run[..m], n);
      assert run[..m][..n] == run[..n];
      RunAgrees(log, limits, w, run[..m]);
      TurnKeeps(log, limits, Reached(log, limits, w, run[..m]), run[m]);
    }
  }

  lemma StartsAgree(log: seq<D.Published>, limits: Limits, w: World, maxReplay: nat, queueSize: nat)
    requires Starts(log, w, maxReplay, queueSize)
    ensures Agree(log, limits, w)
  {
    assert I.Reachable(w.hub) by { I.InitialReachable(maxReplay, queueSize); }
    hide D.Inv, I.Reachable;
  }

  // Published and served. In every state of every joint run the hub is one its own
  // machine reaches, so all that is proved of that machine's watchers holds of it, and
  // its log is the beginning of the published log: nothing missing, nothing twice, each
  // transaction with the changes and reports the decoder's reference reads off its
  // messages. No confirmed position lies past a commit the hub does not have.
  lemma HubLogIsPublished(log: seq<D.Published>, limits: Limits, w: World, maxReplay: nat, queueSize: nat,
                          run: seq<Turn>)
    requires Starts(log, w, maxReplay, queueSize) && IsRun(log, limits, w, run)
    ensures var r := Reached(log, limits, w, run);
            var accepted := r.hub.hub.accepted;
            && I.Reachable(r.hub) && SourceOrdered(accepted) && |accepted| <= |log|
            && (forall i :: 0 <= i < |accepted| ==> D.Matches(accepted[i], log[i]))
            && D.ContentIs(log, limits, accepted, r.reader.sources)
            && (forall a, i :: (a in r.reader.sent || a == r.reader.confirmed) && |accepted| <= i < |log| ==>
                  a <= log[i].commitLSN)
  {
    StartsAgree(log, limits, w, maxReplay, queueSize);
    RunAgrees(log, limits, w, run);
    hide IsRun, Reached, I.Reachable, D.ContentIs;
    I.ReachableInv(Reached(log, limits, w, run).hub);
  }
}
