// The WAL retention policy (internal/cdc/retention_policy.go). Ratios are exact.
module Retention {

  // Ok < Warn < Degrade < Terminal
  type State = s: int | 0 <= s <= 3

  const OK: State := 0
  const WARN: State := 1
  const DEGRADE: State := 2
  const TERMINAL: State := 3

  // How far, as a fraction of the budget, retained WAL must fall below a state's
  // threshold before the state is left.
  const HYSTERESIS: real := 0.05

  datatype Thresholds = Thresholds(warn: real, degrade: real)

  // What configuration accepts.
  predicate Valid(t: Thresholds) {
    0.0 < t.warn < t.degrade < 1.0
  }

  datatype Sample = Sample(retained: int, budget: int)

  predicate Usable(s: Sample) {
    s.budget > 0 && s.retained >= 0
  }

  function Ratio(s: Sample): real
    requires Usable(s)
  {
    s.retained as real / s.budget as real
  }

  function Threshold(t: Thresholds, state: State): real {
    if state == OK then 0.0 else if state == WARN then t.warn else if state == DEGRADE then t.degrade else 1.0
  }

  // The highest state below terminal whose threshold, lowered by `slack`, is met.
  function Level(t: Thresholds, ratio: real, slack: real): State {
    if ratio >= t.degrade - slack then DEGRADE else if ratio >= t.warn - slack then WARN else OK
  }

  function Max(a: State, b: State): State {
    if a > b then a else b
  }

  function Min(a: State, b: State): State {
    if a < b then a else b
  }

  // The policy in closed form: the state the sample calls for, or as much of the
  // current one as hysteresis still holds on to.
  function Next(current: State, s: Sample, t: Thresholds): State {
    if !Usable(s) || current == TERMINAL then current
    else if Ratio(s) >= 1.0 then TERMINAL
    else Max(Level(t, Ratio(s), 0.0), Min(current, Level(t, Ratio(s), HYSTERESIS)))
  }

  // nextRetentionState
  method NextRetentionState(current: State, s: Sample, t: Thresholds) returns (next: State)
    requires Valid(t)
    ensures next == Next(current, s, t)
  {
    if s.budget <= 0 || s.retained < 0 || current == TERMINAL {
      return current;
    }
    var ratio := s.retained as real / s.budget as real;
    if ratio >= 1.0 {
      return TERMINAL;
    }
    var target := OK;
    if ratio >= t.degrade {
      target := DEGRADE;
    } else if ratio >= t.warn {
      target := WARN;
    }
    var state := current;
    while state > target
      invariant OK <= state <= current
      invariant state >= Min(current, Level(t, ratio, HYSTERESIS))
      invariant state > target || Max(state, target) == Next(current, s, t)
    {
      var threshold := t.warn;
      if state == DEGRADE {
        threshold := t.degrade;
      }
      if ratio >= threshold - HYSTERESIS {
        break;
      }
      state := state - 1;
    }
    next := Max(state, target);
  }

  // The state after a run of samples.
  function After(start: State, samples: seq<Sample>, t: Thresholds): State {
    if samples == [] then start
    else Next(After(start, samples[..|samples| - 1], t), samples[|samples| - 1], t)
  }

  lemma Scaled(a: real, b: real, d: real)
    requires a < b && d > 0.0
    ensures a * d < b * d
  {
  }

  lemma RatioTimes(s: Sample)
    requires Usable(s)
    ensures Ratio(s) * s.budget as real == s.retained as real
  {
  }

  lemma RatioMonotone(a: Sample, b: Sample)
    requires Usable(a) && Usable(b) && a.budget == b.budget && a.retained <= b.retained
    ensures Ratio(a) <= Ratio(b)
  {
    RatioTimes(a);
    RatioTimes(b);
    hide Ratio;
    if Ratio(a) > Ratio(b) { Scaled(Ratio(b), Ratio(a), a.budget as real); }
  }

  // The policy is idempotent on one sample, and monotone in the current state and
  // in the retained bytes; terminal is never left.
  lemma NextLaws(current: State, other: State, s: Sample, more: Sample, t: Thresholds)
    requires Valid(t) && Usable(s) && more.budget == s.budget && more.retained >= s.retained
    ensures Next(Next(current, s, t), s, t) == Next(current, s, t)
    ensures current <= other ==> Next(current, s, t) <= Next(other, s, t)
    ensures Next(current, s, t) <= Next(current, more, t)
    ensures Next(TERMINAL, s, t) == TERMINAL
  {
    RatioMonotone(s, more);
  }

  // Raising a whole run of samples never lowers the state it ends in.
  lemma {:induction false} RunMonotone(start: State, samples: seq<Sample>, more: seq<Sample>, t: Thresholds)
    requires Valid(t) && |more| == |samples|
    requires forall i :: 0 <= i < |samples| ==>
               Usable(samples[i]) && more[i].budget == samples[i].budget && more[i].retained >= samples[i].retained
    ensures After(start, samples, t) <= After(start, more, t)
  {
    if samples != [] {
      var n := |samples| - 1;
      RunMonotone(start, samples[..n], more[..n], t);
      var a, b := After(start, samples[..n], t), After(start, more[..n], t);
      NextLaws(a, b, samples[n], more[n], t);
      NextLaws(b, b, samples[n], more[n], t);
    }
  }

  lemma {:induction false} TerminalStays(start: State, samples: seq<Sample>, n: nat, t: Thresholds)
    requires n <= |samples| && After(start, samples[..n], t) == TERMINAL
    ensures After(start, samples, t) == TERMINAL
  {
    if n < |samples| {
      assert samples[..|samples| - 1][..n] == samples[..n];
      TerminalStays(start, samples[..|samples| - 1], n, t);
    } else {
      assert samples[..n] == samples;
    }
  }

  // Sample i takes the policy from `state` or above to below it; or the reverse.
  ghost predicate Leaves(start: State, samples: seq<Sample>, t: Thresholds, i: nat, state: State)
    requires i < |samples|
  {
    After(start, samples[..i], t) >= state > After(start, samples[..i + 1], t)
  }

  ghost predicate Enters(start: State, samples: seq<Sample>, t: Thresholds, i: nat, state: State)
    requires i < |samples|
  {
    After(start, samples[..i], t) < state <= After(start, samples[..i + 1], t)
  }

  // Exactly what a sample must be to leave, or to enter, a state.
  lemma LeavesAt(start: State, samples: seq<Sample>, t: Thresholds, i: nat, state: State)
    requires Valid(t) && i < |samples|
    ensures Leaves(start, samples, t, i, state) <==>
            var s, from := samples[i], After(start, samples[..i], t);
            Usable(s) && state <= from < TERMINAL && state > OK && Ratio(s) < Threshold(t, state) - HYSTERESIS
  {
    assert samples[..i + 1][..i] == samples[..i];
  }

  lemma EntersAt(start: State, samples: seq<Sample>, t: Thresholds, i: nat, state: State)
    requires Valid(t) && i < |samples|
    ensures Enters(start, samples, t, i, state) <==>
            var s, from := samples[i], After(start, samples[..i], t);
            Usable(s) && from < state && Ratio(s) >= Threshold(t, state)
  {
    assert samples[..i + 1][..i] == samples[..i];
  }

  // No flapping: over any run with a fixed budget, re-entering a state after it was
  // left downward takes a rise in retained WAL of more than 5% of the budget.
  lemma ReentryNeedsRise(start: State, samples: seq<Sample>, t: Thresholds, i: nat, j: nat, state: State)
    requires Valid(t) && i < j < |samples| && samples[i].budget == samples[j].budget
    requires Leaves(start, samples, t, i, state) && Enters(start, samples, t, j, state)
    ensures samples[j].retained as real - samples[i].retained as real > HYSTERESIS * samples[i].budget as real
  {
    hide Ratio, After, Leaves, Enters;
    LeavesAt(start, samples, t, i, state);
    EntersAt(start, samples, t, j, state);
    RatioTimes(samples[i]);
    RatioTimes(samples[j]);
    RiseIs(Ratio(samples[i]), Ratio(samples[j]), samples[i].budget as real);
  }

  lemma RiseIs(a: real, b: real, budget: real)
    requires b - a > HYSTERESIS && budget > 0.0
    ensures b * budget - a * budget > HYSTERESIS * budget
  {
    Scaled(HYSTERESIS, b - a, budget);
    assert (b - a) * budget == b * budget - a * budget;
  }
}
