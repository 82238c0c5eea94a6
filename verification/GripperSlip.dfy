/**
 The gripper-slip replan trigger, and the drawdown detector it refines.

 A reading is what the trigger looks at in one call: the policy's requested gripper target, the target
 the embodiment last executed, and the measured position. Calls without a last action or without the
 state key leave the trigger untouched, so a history holds only the calls that had all three.
 */
module GripperSlip {
  import opened Basics

  datatype Reading = Reading(command: real, executed: real, measured: real)

  function Abs(x: real): real {
    if x < 0.0 then -x else x
  }

  /** How much further from the command the gripper is than what was executed. */
  function Lag(r: Reading): real {
    Abs(r.measured - r.command) - Abs(r.executed - r.command)
  }

  datatype Baseline = Baseline(measured: real, executed: real)

  datatype Tracked = Tracked(command: real, executed: real, steady: nat, baseline: Option<Baseline>)

  /** The trigger with the state it keeps in the trial's store. */
  class Trigger {
    const threshold: real
    const settleSteps: nat
    var tracked: Option<Tracked>

    constructor (threshold: real, settleSteps: nat)
      requires threshold > 0.0
      ensures this.threshold == threshold && this.settleSteps == settleSteps && tracked.None?
    {
      this.threshold, this.settleSteps, tracked := threshold, settleSteps, None;
    }

    /** Whether the policy must look again, given this call's reading. */
    method ShouldReplan(r: Option<Reading>) returns (fires: bool)
      modifies this`tracked
      ensures r.None? ==> !fires && tracked == old(tracked)
      ensures r.Some? ==> (tracked, fires) == Next(threshold, settleSteps, old(tracked), r.value)
    {
      fires := false;
      if r.None? {
        return;
      }
      var Reading(command, executed, measured) := r.value;
      if tracked.None? || tracked.value.command != command {
        tracked := Some(Tracked(command, executed, 0, None));
        return;
      }
      var state := tracked.value;
      var moved := Abs(executed - state.executed);
      state := state.(executed := executed);
      if moved > threshold * TOLERANCE {
        tracked := Some(state.(steady := 0, baseline := None));
        return;
      }
      state := state.(steady := state.steady + 1);
      tracked := Some(state);
      if state.steady < settleSteps {
        return;
      }
      if state.baseline.None? {
        tracked := Some(state.(baseline := Some(Baseline(measured, executed))));
        return;
      }
      var base := state.baseline.value;
      var commanded := Abs(base.executed - command) - Abs(executed - command);
      var closer := Abs(base.measured - command) - Abs(measured - command) - commanded;
      if closer < 0.0 {
        tracked := Some(state.(baseline := Some(Baseline(measured, executed))));
        return;
      }
      if closer > threshold {
        tracked := Some(state.(baseline := Some(Baseline(measured, executed))));
        fires := true;
      }
    }
  }

  /** The share of the threshold by which a held executed command may move between calls. */
  const TOLERANCE := 0.1

  predicate Holds(threshold: real, prev: Reading, r: Reading) {
    prev.command == r.command && Abs(r.executed - prev.executed) <= threshold * TOLERANCE
  }

  /** The state after a call with reading `r`, and whether the call fires. */
  function Next(threshold: real, settle: nat, before: Option<Tracked>, r: Reading): (Option<Tracked>, bool) {
    if before.None? || before.value.command != r.command then
      (Some(Tracked(r.command, r.executed, 0, None)), false)
    else if Abs(r.executed - before.value.executed) > threshold * TOLERANCE then
      (Some(Tracked(r.command, r.executed, 0, None)), false)
    else
      var state := Tracked(r.command, r.executed, before.value.steady + 1, before.value.baseline);
      if state.steady < settle then (Some(state), false)
      else if state.baseline.None? then (Some(state.(baseline := Some(Baseline(r.measured, r.executed)))), false)
      else
        var base := Reading(r.command, state.baseline.value.executed, state.baseline.value.measured);
        if Lag(r) > Lag(base) || Lag(base) - Lag(r) > threshold then
          (Some(state.(baseline := Some(Baseline(r.measured, r.executed)))), Lag(base) - Lag(r) > threshold)
        else (Some(state), false)
  }

  // ---------------------------------------------------------------- the detector

  /** How many calls in a row, up to call `k`, held the command of the call before. */
  function Steady(threshold: real, h: seq<Reading>, k: nat): nat
    requires k < |h|
  {
    if k == 0 || !Holds(threshold, h[k - 1], h[k]) then 0 else Steady(threshold, h, k - 1) + 1
  }

  /** The length of hold at which the baseline is taken. */
  function Settled(settle: nat): nat {
    if settle == 0 then 1 else settle
  }

  /** Where the current watch began: the baseline of this hold, or the last firing in it. */
  function WatchStart(threshold: real, settle: nat, h: seq<Reading>, k: nat): (start: nat)
    requires k < |h| && Steady(threshold, h, k) >= Settled(settle)
    ensures start <= k
    decreases k, 1
  {
    if Steady(threshold, h, k) == Settled(settle) || Fires(threshold, settle, h, k) then k
    else WatchStart(threshold, settle, h, k - 1)
  }

  /** The lag at call `k` is more than the threshold below its peak since the watch began. */
  predicate Fires(threshold: real, settle: nat, h: seq<Reading>, k: nat)
    requires k < |h|
    decreases k, 0
  {
    Steady(threshold, h, k) > Settled(settle) &&
    exists j :: WatchStart(threshold, settle, h, k - 1) <= j < k && Lag(h[j]) - Lag(h[k]) > threshold
  }

  /** The state after the calls up to `k`. */
  function State(threshold: real, settle: nat, h: seq<Reading>, k: nat): Option<Tracked>
    requires k <= |h|
  {
    if k == 0 then None else Next(threshold, settle, State(threshold, settle, h, k - 1), h[k - 1]).0
  }

  /** What the stored state stands for. */
  ghost predicate Stands(threshold: real, settle: nat, h: seq<Reading>, k: nat, state: Option<Tracked>)
    requires k < |h|
  {
    && state.Some?
    && state.value.command == h[k].command && state.value.executed == h[k].executed
    && state.value.steady == Steady(threshold, h, k)
    && (state.value.baseline.Some? <==> Steady(threshold, h, k) >= Settled(settle))
    && (state.value.baseline.Some? ==>
          var start := WatchStart(threshold, settle, h, k);
          var base := Reading(h[k].command, state.value.baseline.value.executed, state.value.baseline.value.measured);
          && (exists j :: start <= j <= k && h[j] == base)
          && (forall j :: start <= j <= k ==> Lag(h[j]) <= Lag(base)))
  }

  /** The trigger fires exactly when the detector does, on every history of readings. */
  lemma {:induction false} TriggerIsDrawdown(threshold: real, settle: nat, h: seq<Reading>, k: nat)
    requires threshold > 0.0 && k < |h|
    ensures Stands(threshold, settle, h, k, State(threshold, settle, h, k + 1))
    ensures Next(threshold, settle, State(threshold, settle, h, k), h[k]).1 == Fires(threshold, settle, h, k)
  {
    if k == 0 {
      return;
    }
    TriggerIsDrawdown(threshold, settle, h, k - 1);
    var before := State(threshold, settle, h, k);
    var after := Next(threshold, settle, before, h[k]).0;
    if Steady(threshold, h, k) > Settled(settle) {
      var start := WatchStart(threshold, settle, h, k - 1);
      var b := before.value.baseline.value;
      var base := Reading(h[k].command, b.executed, b.measured);
      var j :| start <= j <= k - 1 && h[j] == base;
      assert Fires(threshold, settle, h, k) <==> Lag(base) - Lag(h[k]) > threshold;
      if Fires(threshold, settle, h, k) {
        assert WatchStart(threshold, settle, h, k) == k;
      } else {
        assert WatchStart(threshold, settle, h, k) == start;
      }
      assert h[k] == Reading(h[k].command, h[k].executed, h[k].measured);
    }
  }

  lemma LagOfClose(r: Reading, bound: real)
    requires Abs(r.measured - r.executed) <= bound
    ensures -bound <= Lag(r) <= bound
  {
  }

  /** A gripper that always tracks what was executed to within half the threshold never fires. */
  lemma TrackingNeverFires(threshold: real, settle: nat, h: seq<Reading>, k: nat)
    requires threshold > 0.0 && k < |h|
    requires forall j :: 0 <= j <= k ==> Abs(h[j].measured - h[j].executed) <= threshold / 2.0
    ensures !Fires(threshold, settle, h, k)
    ensures !Next(threshold, settle, State(threshold, settle, h, k), h[k]).1
  {
    forall j | 0 <= j <= k
      ensures -threshold / 2.0 <= Lag(h[j]) <= threshold / 2.0
    {
      LagOfClose(h[j], threshold / 2.0);
    }
    TriggerIsDrawdown(threshold, settle, h, k);
  }

  /** The bound is tight: any larger tracking error admits a history that fires. */
  lemma TrackingBoundIsTight(threshold: real, settle: nat, excess: real) returns (h: seq<Reading>)
    requires threshold > 0.0 && excess > 0.0
    ensures forall j :: 0 <= j < |h| ==> Abs(h[j].measured - h[j].executed) <= threshold / 2.0 + excess
    ensures |h| > 0 && Fires(threshold, settle, h, |h| - 1)
  {
    var s := Settled(settle);
    var far, near := threshold / 2.0 + excess, -(threshold / 2.0 + excess);
    var command, executed := 0.0, threshold + 2.0 * excess;
    var hold := Reading(command, executed, executed + far);
    h := seq(s + 1, i => hold) + [Reading(command, executed, executed + near)];
    SteadyHold(threshold, h, s);
    assert Steady(threshold, h, s + 1) == s + 1;
    assert WatchStart(threshold, settle, h, s) == s;
    assert Lag(h[s]) - Lag(h[s + 1]) > threshold;
  }

  lemma {:induction false} SteadyHold(threshold: real, h: seq<Reading>, k: nat)
    requires threshold > 0.0 && k < |h|
    requires forall j :: 0 <= j <= k ==> h[j] == h[0]
    ensures Steady(threshold, h, k) == k
  {
    if k > 0 {
      SteadyHold(threshold, h, k - 1);
    }
  }
}
