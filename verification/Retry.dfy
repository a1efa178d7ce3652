// Sync's reconnect loop (sdk/go/watchd/client.go). Durations are milliseconds.
module Retry {
  const DEFAULT_MIN: nat := 100
  const DEFAULT_MAX: nat := 5000

  // How one stream ended.
  datatype Ended =
    | Resync
    | StoreFailure
    | InvalidArgument
    | Permanent
    | Lost

  // `progressed`: the stream confirmed progress before it ended.
  datatype Outcome = Outcome(ended: Ended, progressed: bool)

  datatype Decision = Reconnect | Wait(backoff: nat) | Stop

  // Sync's variables between two streams.
  datatype State = State(backoff: nat, snapshot: bool, resyncs: nat)

  // What follows a stream's end.
  function After(minBackoff: nat, maxBackoff: nat, s: State, o: Outcome): (State, Decision) {
    var refused := o.ended.InvalidArgument? && !s.snapshot;
    if o.ended.StoreFailure? || o.ended.Permanent? || (o.ended.InvalidArgument? && s.snapshot) then (s, Stop)
    else
      var resyncs := if o.ended.Resync? then s.resyncs + 1 else s.resyncs;
      var now := refused || (o.ended.Resync? && resyncs == 1);
      var backoff := if o.progressed then minBackoff else s.backoff;
      var next := State(if now then backoff else if backoff * 2 < maxBackoff then backoff * 2 else maxBackoff,
                        o.ended.Resync? || refused,
                        if !o.progressed then resyncs else if o.ended.Resync? then 1 else 0);
      (next, if now then Reconnect else Wait(backoff))
  }

  class Sync {
    const minBackoff: nat
    const maxBackoff: nat
    var backoff: nat
    var snapshot: bool
    var resyncs: nat

    ghost predicate Valid()
      reads this
    {
      0 < minBackoff <= backoff <= maxBackoff
    }

    ghost function Model(): State
      reads this
    {
      State(backoff, snapshot, resyncs)
    }

    // Sync's own defaults keep the two bounds in order.
    constructor (minBackoff: int, maxBackoff: int)
      ensures Valid() && Model() == State(this.minBackoff, false, 0)
      ensures this.minBackoff == if minBackoff <= 0 then DEFAULT_MIN else minBackoff
      ensures this.maxBackoff == if maxBackoff >= this.minBackoff then maxBackoff
                                 else if DEFAULT_MAX > this.minBackoff then DEFAULT_MAX else this.minBackoff
    {
      var least := if minBackoff <= 0 then DEFAULT_MIN else minBackoff;
      this.minBackoff := least;
      this.maxBackoff := if maxBackoff >= least then maxBackoff else if DEFAULT_MAX > least then DEFAULT_MAX else least;
      backoff, snapshot, resyncs := least, false, 0;
    }

    // One turn of the loop, after its stream has ended.
    method Turn(o: Outcome) returns (d: Decision)
      requires Valid()
      modifies this
      ensures Valid() && (Model(), d) == After(minBackoff, maxBackoff, old(Model()), o)
      ensures d.Wait? ==> minBackoff <= d.backoff <= maxBackoff
    {
      var retryNow := false;
      match o.ended {
        case Resync =>
          snapshot := true;
          resyncs := resyncs + 1;
          retryNow := resyncs == 1;
        case StoreFailure =>
          return Stop;
        case InvalidArgument =>
          if snapshot {
            return Stop;
          }
          snapshot, retryNow := true, true;
        case Permanent =>
          return Stop;
        case Lost =>
          snapshot := false;
      }
      if o.progressed {
        backoff := minBackoff;
        if !o.ended.Resync? {
          resyncs := 0;
        } else {
          resyncs := 1;
        }
      }
      if retryNow {
        return Reconnect;
      }
      d := Wait(backoff);
      backoff := if backoff * 2 < maxBackoff then backoff * 2 else maxBackoff;
    }
  }

  // The state after a run of outcomes, none of which stopped Sync before the last.
  function Reached(minBackoff: nat, maxBackoff: nat, s: State, run: seq<Outcome>): State {
    if run == [] then s
    else After(minBackoff, maxBackoff, Reached(minBackoff, maxBackoff, s, run[..|run| - 1]), run[|run| - 1]).0
  }

  function DecisionAt(minBackoff: nat, maxBackoff: nat, s: State, run: seq<Outcome>, i: nat): Decision
    requires i < |run|
  {
    After(minBackoff, maxBackoff, Reached(minBackoff, maxBackoff, s, run[..i]), run[i]).1
  }

  // What a streak of immediate reconnects leaves behind. A second one needs that a
  // resync has been counted, a third is impossible.
  ghost predicate Streak(s: State, k: nat) {
    k == 0 || (k == 1 && s.snapshot) || (k == 2 && s.snapshot && s.resyncs >= 1)
  }

  lemma StreakStep(minBackoff: nat, maxBackoff: nat, s: State, o: Outcome, k: nat)
    requires Streak(s, k) && After(minBackoff, maxBackoff, s, o).1 == Reconnect
    ensures k < 2 && Streak(After(minBackoff, maxBackoff, s, o).0, k + 1)
    ensures o.ended.InvalidArgument? ==> k == 0
  {
  }

  // The outcomes from i on, up to j, all reconnected at once.
  ghost predicate Streaming(minBackoff: nat, maxBackoff: nat, s: State, run: seq<Outcome>, i: nat, j: nat)
    requires i <= j <= |run|
  {
    forall k :: i <= k < j ==> DecisionAt(minBackoff, maxBackoff, s, run, k) == Reconnect
  }

  // Bounded spinning: from any state, over any run, no more than two reconnects
  // follow each other without a wait, and only the first of them can be for a
  // refused cursor.
  lemma {:induction false} BoundedSpinning(minBackoff: nat, maxBackoff: nat, s: State, run: seq<Outcome>,
                                           i: nat, j: nat)
    requires i <= j <= |run| && Streaming(minBackoff, maxBackoff, s, run, i, j)
    ensures j - i <= 2 && Streak(Reached(minBackoff, maxBackoff, s, run[..j]), j - i)
    ensures forall k :: i < k < j ==> !run[k].ended.InvalidArgument?
    decreases j
  {
    if i < j {
      BoundedSpinning(minBackoff, maxBackoff, s, run, i, j - 1);
      assert DecisionAt(minBackoff, maxBackoff, s, run, j - 1) == Reconnect;
      assert run[..j][..j - 1] == run[..j - 1];
      StreakStep(minBackoff, maxBackoff, Reached(minBackoff, maxBackoff, s, run[..j - 1]), run[j - 1], j - 1 - i);
    }
  }

  // Over any run the backoff stays within its bounds, and so does every wait.
  lemma {:induction false} BackoffBounded(minBackoff: nat, maxBackoff: nat, s: State, run: seq<Outcome>)
    requires minBackoff <= s.backoff <= maxBackoff
    ensures minBackoff <= Reached(minBackoff, maxBackoff, s, run).backoff <= maxBackoff
    ensures forall i :: 0 <= i < |run| && DecisionAt(minBackoff, maxBackoff, s, run, i).Wait? ==>
              minBackoff <= DecisionAt(minBackoff, maxBackoff, s, run, i).backoff <= maxBackoff
  {
    if run != [] {
      var n := |run| - 1;
      BackoffBounded(minBackoff, maxBackoff, s, run[..n]);
      forall i | 0 <= i < |run| && DecisionAt(minBackoff, maxBackoff, s, run, i).Wait?
        ensures minBackoff <= DecisionAt(minBackoff, maxBackoff, s, run, i).backoff <= maxBackoff
      {
        if i < n {
          assert run[..n][..i] == run[..i] && run[..n][i] == run[i];
          assert DecisionAt(minBackoff, maxBackoff, s, run, i) == DecisionAt(minBackoff, maxBackoff, s, run[..n], i);
        }
      }
    }
  }

  function Doubled(b: nat, n: nat): nat {
    if n == 0 then b else 2 * Doubled(b, n - 1)
  }

  function Capped(b: nat, most: nat): nat {
    if b < most then b else most
  }

  // A wait without progress doubles the next, up to the bound.
  lemma WaitDoubles(minBackoff: nat, maxBackoff: nat, s: State, o: Outcome, b: nat, n: nat)
    requires After(minBackoff, maxBackoff, s, o).1.Wait? && !o.progressed
    requires s.backoff == Capped(Doubled(b, n), maxBackoff)
    ensures After(minBackoff, maxBackoff, s, o).1 == Wait(s.backoff)
    ensures After(minBackoff, maxBackoff, s, o).0.backoff == Capped(Doubled(b, n + 1), maxBackoff)
  {
  }

  lemma {:induction false} BackoffAfter(minBackoff: nat, maxBackoff: nat, s: State, run: seq<Outcome>, n: nat)
    requires s.backoff <= maxBackoff && n <= |run|
    requires forall i :: 0 <= i < n ==> DecisionAt(minBackoff, maxBackoff, s, run, i).Wait? && !run[i].progressed
    ensures Reached(minBackoff, maxBackoff, s, run[..n]).backoff == Capped(Doubled(s.backoff, n), maxBackoff)
  {
    if n == 0 {
      assert run[..0] == [] && Doubled(s.backoff, 0) == s.backoff;
    } else {
      BackoffAfter(minBackoff, maxBackoff, s, run, n - 1);
      var before := Reached(minBackoff, maxBackoff, s, run[..n - 1]);
      assert DecisionAt(minBackoff, maxBackoff, s, run, n - 1).Wait?;
      WaitDoubles(minBackoff, maxBackoff, before, run[n - 1], s.backoff, n - 1);
      hide After, Doubled, DecisionAt;
      assert run[..n][..n - 1] == run[..n - 1];
    }
  }

  // However the streams of a run ended, if none progressed and each was followed by a
  // wait, the waits double up to the bound.
  lemma BackoffDoubles(minBackoff: nat, maxBackoff: nat, s: State, run: seq<Outcome>)
    requires s.backoff <= maxBackoff
    requires forall i :: 0 <= i < |run| ==>
               DecisionAt(minBackoff, maxBackoff, s, run, i).Wait? && !run[i].progressed
    ensures forall i :: 0 <= i < |run| ==>
              DecisionAt(minBackoff, maxBackoff, s, run, i) == Wait(Capped(Doubled(s.backoff, i), maxBackoff))
  {
    forall i | 0 <= i < |run|
      ensures DecisionAt(minBackoff, maxBackoff, s, run, i) == Wait(Capped(Doubled(s.backoff, i), maxBackoff))
    {
      BackoffAfter(minBackoff, maxBackoff, s, run, i);
      assert DecisionAt(minBackoff, maxBackoff, s, run, i).Wait?;
      WaitDoubles(minBackoff, maxBackoff, Reached(minBackoff, maxBackoff, s, run[..i]), run[i], s.backoff, i);
    }
  }
}
