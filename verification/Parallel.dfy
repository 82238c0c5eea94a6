/**
 Bounded dispatch of tasks to worker threads, and the exit stack that releases their resources.

 Which futures `wait` reports complete, and in which order they are looked at, is a function
 parameter: a statement about every such function covers every completion order. A run returns the
 trace of what the dispatching thread did.
 */
module Parallel {
  import opened Basics
  import Orchestrator

  type Exc = Orchestrator.Exc

  type Hook = Orchestrator.Hook

  // ---------------------------------------------------------------- bounded dispatch

  /** A task handed to a worker, a result collected, a task finished while the executor shut down. */
  datatype Event = Submit(task: nat) | Collect(task: nat, ok: bool) | Drain(task: nat)

  type Wait = (nat, set<nat>) -> seq<nat>

  predicate Distinct(s: seq<nat>) {
    forall i, j :: 0 <= i < j < |s| ==> s[i] != s[j]
  }

  /** Waiting for the first completion reports at least one pending task, and no other tasks. */
  ghost predicate Completes(wait: Wait) {
    forall round: nat, pending: set<nat> :: pending != {}
      ==>
        var done := wait(round, pending);
        done != [] && Distinct(done) && forall i :: i in done ==> i in pending
  }

  function InFlight(trace: seq<Event>): int {
    if trace == [] then 0
    else InFlight(trace[..|trace| - 1]) + (if trace[|trace| - 1].Submit? then 1 else -1)
  }

  /** The tasks submitted, in the order they were. */
  function Submitted(trace: seq<Event>): seq<nat> {
    if trace == [] then []
    else Submitted(trace[..|trace| - 1]) + (if trace[|trace| - 1].Submit? then [trace[|trace| - 1].task] else [])
  }

  function Upto(n: nat): seq<nat> {
    seq(n, i => i)
  }

  ghost predicate Bounded(trace: seq<Event>, limit: nat) {
    forall k :: 0 <= k <= |trace| ==> 0 <= InFlight(trace[..k]) <= limit
  }

  predicate Fails(e: Event) {
    e.Collect? && !e.ok
  }

  ghost predicate StopsAdmission(trace: seq<Event>) {
    forall a, b :: 0 <= a < b < |trace| && Fails(trace[a]) ==> !trace[b].Submit?
  }

  ghost predicate NoneFailed(trace: seq<Event>) {
    forall e :: e in trace ==> !Fails(e)
  }

  lemma Grow(trace: seq<Event>, e: Event, limit: nat)
    requires Bounded(trace, limit) && if e.Submit? then InFlight(trace) < limit else InFlight(trace) > 0
    ensures Bounded(trace + [e], limit)
    ensures InFlight(trace + [e]) == InFlight(trace) + (if e.Submit? then 1 else -1)
    ensures Submitted(trace + [e]) == Submitted(trace) + (if e.Submit? then [e.task] else [])
  {
    var more := trace + [e];
    assert more[..|trace|] == trace && trace[..|trace|] == trace;
    forall k | 0 <= k <= |more|
      ensures 0 <= InFlight(more[..k]) <= limit
    {
      if k == |more| {
        assert more[..k] == more;
      } else {
        assert more[..k] == trace[..k];
      }
    }
  }

  lemma UptoPush(n: nat)
    ensures Upto(n) + [n] == Upto(n + 1)
  {
  }

  /** Every task is ok, and the results are those of the tasks in input order. */
  ghost predicate MapsTo<T, R, E>(tasks: seq<T>, run: T -> Result<R, E>, results: seq<R>) {
    |results| == |tasks| && forall i :: 0 <= i < |tasks| ==> run(tasks[i]) == Ok(results[i])
  }

  /** The results collected so far are those of the collected tasks. */
  ghost predicate Collected<T, R, E>(tasks: seq<T>, run: T -> Result<R, E>, results: map<nat, R>, next: nat,
                                     pending: set<nat>)
  {
    && (forall i :: i in results ==> i < |tasks| && run(tasks[i]) == Ok(results[i]))
    && (forall i: nat :: i in results || i in pending <==> i < next)
    && (forall i :: i in results ==> i !in pending)
  }

  /** Observes every completed task before another one is admitted; stops at the first failure. */
  method CollectBatch<T, R, E>(tasks: seq<T>, run: T -> Result<R, E>, done: seq<nat>, results: map<nat, R>,
                               ghost next: nat, pending: set<nat>, trace: seq<Event>, ghost limit: nat)
    returns (results': map<nat, R>, pending': set<nat>, trace': seq<Event>, failed: Option<E>)
    requires Distinct(done) && (forall i :: i in done ==> i in pending) && next <= |tasks|
    requires Collected(tasks, run, results, next, pending) && Running(trace, next, |pending|, limit)
    ensures
      failed.None?
      ==>
        && |pending'| + |done| == |pending| <= limit
        && Collected(tasks, run, results', next, pending') && Running(trace', next, |pending'|, limit)
    ensures failed.Some? ==> Stopping(trace', next, |pending'|, limit) && FailureOf(tasks, run, failed.value, trace')
  {
    hide Running, Collected, Stopping, FailureOf;
    AtMost(trace, next, |pending|, limit);
    results', pending', trace', failed := results, pending, trace, None;
    for k := 0 to |done|
      invariant |pending'| == |pending| - k && Collected(tasks, run, results', next, pending')
      invariant forall j :: k <= j < |done| ==> done[j] in pending'
      invariant Running(trace', next, |pending'|, limit)
    {
      var i := done[k];
      CollectedOne(tasks, run, results', next, pending', i);
      var reply := run(tasks[i]);
      GrowCollect(trace', i, reply.Ok?, next, |pending'|, limit);
      pending', trace' := pending' - {i}, trace' + [Collect(i, reply.Ok?)];
      if reply.Err? {
        IsFailure(tasks, run, i, trace');
        return results', pending', trace', Some(reply.error);
      }
      results' := results'[i := reply.value];
    }
  }

  /** As many new tasks as were completed, if that many are left. */
  method Admit<T, R, E>(tasks: seq<T>, ghost run: T -> Result<R, E>, slots: nat, ghost results: map<nat, R>,
                        next: nat, pending: set<nat>, trace: seq<Event>, ghost limit: nat)
    returns (next': nat, pending': set<nat>, trace': seq<Event>)
    requires next <= |tasks| && |pending| + slots <= limit
    requires Collected(tasks, run, results, next, pending) && Running(trace, next, |pending|, limit)
    ensures next' <= |tasks| && |pending'| - next' == |pending| - next
    ensures slots > 0 ==> pending' != {} || next' == |tasks|
    ensures Collected(tasks, run, results, next', pending') && Running(trace', next', |pending'|, limit)
  {
    hide Running, Collected;
    next', pending', trace' := next, pending, trace;
    for k := 0 to slots
      invariant next' <= |tasks| && |pending'| <= |pending| + k && |pending'| - next' == |pending| - next
      invariant k > 0 ==> pending' != {} || next' == |tasks|
      invariant Collected(tasks, run, results, next', pending') && Running(trace', next', |pending'|, limit)
    {
      if next' < |tasks| {
        GrowSubmit(trace', next', |pending'|, limit);
        CollectedSubmit(tasks, run, results, next', pending');
        next', pending', trace' := next' + 1, pending' + {next'}, trace' + [Submit(next')];
      }
    }
  }

  /** A task failed, and its exception is what the run raises. */
  ghost predicate FailureOf<T, R, E>(tasks: seq<T>, run: T -> Result<R, E>, error: E, trace: seq<Event>) {
    exists i :: 0 <= i < |tasks| && Collect(i, false) in trace && run(tasks[i]) == Err(error)
  }

  lemma IsFailure<T, R, E>(tasks: seq<T>, run: T -> Result<R, E>, i: nat, trace: seq<Event>)
    requires i < |tasks| && run(tasks[i]).Err? && trace != [] && trace[|trace| - 1] == Collect(i, false)
    ensures FailureOf(tasks, run, run(tasks[i]).error, trace)
  {
  }

  lemma FailureStays<T, R, E>(tasks: seq<T>, run: T -> Result<R, E>, error: E, trace: seq<Event>, more: seq<Event>)
    requires FailureOf(tasks, run, error, trace) && trace <= more
    ensures FailureOf(tasks, run, error, more) && exists t :: t in tasks && run(t).Err?
  {
    var i :| 0 <= i < |tasks| && Collect(i, false) in trace && run(tasks[i]) == Err(error);
    assert tasks[i] in tasks;
  }

  method RunParallel<T, R, E>(tasks: seq<T>, run: T -> Result<R, E>, maxWorkers: nat, wait: Wait)
    returns (outcome: Result<seq<R>, E>, trace: seq<Event>)
    requires maxWorkers >= 1 && Completes(wait)
    ensures Bounded(trace, maxWorkers) && InFlight(trace) == 0
    ensures |Submitted(trace)| <= |tasks| && Submitted(trace) == Upto(|Submitted(trace)|)
    ensures StopsAdmission(trace)
    ensures outcome.Ok? <==> forall t :: t in tasks ==> run(t).Ok?
    ensures
      outcome.Ok? ==> MapsTo(tasks, run, outcome.value) && NoneFailed(trace) && |Submitted(trace)| == |tasks|
    ensures outcome.Err? ==> FailureOf(tasks, run, outcome.error, trace)
  {
    var results: map<nat, R> := map[];
    var next: nat := 0;
    var pending: set<nat> := {};
    trace := [];
    NothingYet(tasks, run, maxWorkers);
    hide InFlight, Submitted, Bounded, Running, Collected, NoneFailed, StopsAdmission, Stopping, MapsTo, FailureOf;
    while next < maxWorkers && next < |tasks|
      invariant next <= maxWorkers && next <= |tasks|
      invariant |pending| == next && Collected(tasks, run, results, next, pending)
      invariant Running(trace, next, |pending|, maxWorkers)
    {
      GrowSubmit(trace, next, |pending|, maxWorkers);
      CollectedSubmit(tasks, run, results, next, pending);
      next, pending, trace := next + 1, pending + {next}, trace + [Submit(next)];
    }
    var round := 0;
    while pending != {}
      invariant next <= |tasks| && (pending == {} ==> next == |tasks|)
      invariant Collected(tasks, run, results, next, pending)
      invariant Running(trace, next, |pending|, maxWorkers)
      decreases |tasks| - next + |pending|
    {
      var done := wait(round, pending);
      round := round + 1;
      var failed;
      results, pending, trace, failed := CollectBatch(tasks, run, done, results, next, pending, trace, maxWorkers);
      if failed.Some? {
        ghost var atFailure := trace;
        trace := Shutdown(pending, trace, next, maxWorkers);
        FailureStays(tasks, run, failed.value, atFailure, trace);
        return Err(failed.value), trace;
      }
      next, pending, trace := Admit(tasks, run, |done|, results, next, pending, trace, maxWorkers);
    }
    CollectedAll(tasks, run, results);
    outcome := Ok(seq(|tasks|, i requires 0 <= i < |tasks| && i in results => results[i]));
    MapsToAll(tasks, run, outcome.value, results);
    Finished(trace, next, maxWorkers);
  }

  lemma AtMost(trace: seq<Event>, next: nat, inFlight: nat, limit: nat)
    requires Running(trace, next, inFlight, limit)
    ensures inFlight <= limit
  {
  }

  lemma CollectedSubmit<T, R, E>(tasks: seq<T>, run: T -> Result<R, E>, results: map<nat, R>, next: nat,
                                 pending: set<nat>)
    requires Collected(tasks, run, results, next, pending)
    ensures next !in pending && Collected(tasks, run, results, next + 1, pending + {next})
  {
  }

  lemma CollectedOne<T, R, E>(tasks: seq<T>, run: T -> Result<R, E>, results: map<nat, R>, next: nat,
                              pending: set<nat>, i: nat)
    requires Collected(tasks, run, results, next, pending) && i in pending && next <= |tasks|
    ensures i < |tasks|
    ensures run(tasks[i]).Ok? ==> Collected(tasks, run, results[i := run(tasks[i]).value], next, pending - {i})
  {
  }

  lemma CollectedAll<T, R, E>(tasks: seq<T>, run: T -> Result<R, E>, results: map<nat, R>)
    requires Collected(tasks, run, results, |tasks|, {})
    ensures forall i :: 0 <= i < |tasks| ==> i in results
  {
  }

  lemma MapsToAll<T, R, E>(tasks: seq<T>, run: T -> Result<R, E>, values: seq<R>, results: map<nat, R>)
    requires Collected(tasks, run, results, |tasks|, {}) && |values| == |tasks|
    requires forall i :: 0 <= i < |tasks| ==> i in results && values[i] == results[i]
    ensures MapsTo(tasks, run, values) && forall t :: t in tasks ==> run(t).Ok?
  {
  }

  /** While the dispatcher runs: nothing failed yet, and the trace agrees with its counters. */
  ghost predicate Running(trace: seq<Event>, next: nat, inFlight: nat, limit: nat) {
    && Bounded(trace, limit) && InFlight(trace) == inFlight <= limit
    && Submitted(trace) == Upto(next) && NoneFailed(trace)
  }

  lemma NothingYet<T, R, E>(tasks: seq<T>, run: T -> Result<R, E>, limit: nat)
    ensures Running([], 0, 0, limit) && Collected(tasks, run, map[], 0, {})
  {
  }

  lemma GrowSubmit(trace: seq<Event>, next: nat, inFlight: nat, limit: nat)
    requires Running(trace, next, inFlight, limit) && inFlight < limit
    ensures Running(trace + [Submit(next)], next + 1, inFlight + 1, limit)
  {
    Grow(trace, Submit(next), limit);
    UptoPush(next);
  }

  lemma GrowCollect(trace: seq<Event>, i: nat, ok: bool, next: nat, inFlight: nat, limit: nat)
    requires Running(trace, next, inFlight, limit) && inFlight > 0
    ensures ok ==> Running(trace + [Collect(i, ok)], next, inFlight - 1, limit)
    ensures Stopping(trace + [Collect(i, ok)], next, inFlight - 1, limit)
  {
    Grow(trace, Collect(i, ok), limit);
    assert Submitted(trace) + [] == Submitted(trace);
    var more := trace + [Collect(i, ok)];
    assert forall a :: 0 <= a < |trace| ==> more[a] == trace[a] && trace[a] in trace;
  }

  /** Once the dispatcher is leaving: */
  ghost predicate Stopping(trace: seq<Event>, next: nat, inFlight: nat, limit: nat) {
    && Bounded(trace, limit) && InFlight(trace) == inFlight
    && Submitted(trace) == Upto(next) && StopsAdmission(trace)
  }

  lemma Finished(trace: seq<Event>, next: nat, limit: nat)
    requires Running(trace, next, 0, limit)
    ensures NoneFailed(trace) && Bounded(trace, limit) && InFlight(trace) == 0
    ensures Submitted(trace) == Upto(next) && StopsAdmission(trace)
  {
    assert forall e :: e in trace ==> !Fails(e);
  }

  lemma GrowDrain(trace: seq<Event>, i: nat, next: nat, inFlight: nat, limit: nat)
    requires Stopping(trace, next, inFlight, limit) && inFlight > 0
    ensures Stopping(trace + [Drain(i)], next, inFlight - 1, limit)
  {
    hide Submitted, InFlight;
    Grow(trace, Drain(i), limit);
    assert Submitted(trace) + [] == Submitted(trace);
  }

  /** Leaving the executor: the workers still busy finish before the exception propagates. */
  method Shutdown(pending: set<nat>, trace: seq<Event>, ghost next: nat, ghost limit: nat) returns (trace': seq<Event>)
    requires Stopping(trace, next, |pending|, limit)
    ensures trace <= trace' && Bounded(trace', limit) && InFlight(trace') == 0
    ensures Submitted(trace') == Upto(next) && StopsAdmission(trace')
  {
    trace' := trace;
    var left := pending;
    while left != {}
      invariant Stopping(trace', next, |left|, limit) && trace <= trace'
      decreases |left|
    {
      var i :| i in left;
      GrowDrain(trace', i, next, |left|, limit);
      left, trace' := left - {i}, trace' + [Drain(i)];
    }
  }

  // ---------------------------------------------------------------- the exit stack

  /** A stop signal: SafetyAbort, EmbodimentFault or KeyboardInterrupt. */
  predicate Stops(exc: Exc) {
    exc.Halt? || exc.Keyboard()
  }

  /** What leaves a block after these exceptions were raised in it, in this order. */
  function Leaves(raised: seq<Exc>): Option<Exc> {
    if raised == [] then None
    else
      var before := Leaves(raised[..|raised| - 1]);
      if before.Some? && Stops(before.value) then before else Some(raised[|raised| - 1])
  }

  /** Once a stop signal is active it is what leaves, whatever is raised later. */
  lemma {:induction false} StopSurvives(raised: seq<Exc>, later: seq<Exc>)
    requires Leaves(raised).Some? && Stops(Leaves(raised).value)
    ensures Leaves(raised + later) == Leaves(raised)
  {
    if later == [] {
      assert raised + later == raised;
    } else {
      assert (raised + later)[..|raised + later| - 1] == raised + later[..|later| - 1];
      StopSurvives(raised, later[..|later| - 1]);
    }
  }

  /** In full: the first stop signal raised, or without one the last exception raised. */
  lemma {:induction false} LeavesMeans(raised: seq<Exc>)
    ensures Leaves(raised).None? <==> raised == []
    ensures
      forall i :: 0 <= i < |raised| && Stops(raised[i]) && (forall j :: 0 <= j < i ==> !Stops(raised[j]))
        ==> Leaves(raised) == Some(raised[i])
    ensures
      raised != [] && (forall i :: 0 <= i < |raised| ==> !Stops(raised[i]))
      ==>
        Leaves(raised) == Some(raised[|raised| - 1])
  {
    if raised != [] {
      var front := raised[..|raised| - 1];
      LeavesMeans(front);
      assert forall i :: 0 <= i < |front| ==> front[i] == raised[i];
    }
  }

  datatype Callback = Callback(id: nat, outcome: Hook)

  /** The exceptions of a run of callbacks, in order. */
  function RaisedBy(ran: seq<Callback>): seq<Exc> {
    if ran == [] then []
    else
      var last := ran[|ran| - 1].outcome;
      RaisedBy(ran[..|ran| - 1]) + (if last.Raises? then [last.exc] else [])
  }

  function Reverse(s: seq<Callback>): (r: seq<Callback>)
    ensures |r| == |s| && forall i :: 0 <= i < |s| ==> r[i] == s[|s| - 1 - i]
  {
    if s == [] then [] else Reverse(s[1..]) + [s[0]]
  }

  function Given(body: Option<Exc>): seq<Exc> {
    if body.Some? then [body.value] else []
  }

  class HaltPreservingExitStack {
    var callbacks: seq<Callback>

    constructor ()
      ensures callbacks == []
    {
      callbacks := [];
    }

    method Register(c: Callback)
      modifies this
      ensures callbacks == old(callbacks) + [c]
    {
      callbacks := callbacks + [c];
    }

    /** Leaves the block: `body` is what it raised, `leaving` what the stack lets out. */
    method Exit(body: Option<Exc>) returns (leaving: Option<Exc>, ran: seq<Callback>)
      modifies this
      ensures callbacks == [] && ran == Reverse(old(callbacks))
      ensures leaving == Leaves(Given(body) + RaisedBy(ran))
    {
      leaving, ran := body, [];
      LeavesBody(body);
      hide Leaves, RaisedBy, Stops;
      while callbacks != []
        invariant |callbacks| <= |old(callbacks)| && callbacks == old(callbacks)[..|callbacks|]
        invariant |ran| == |old(callbacks)| - |callbacks|
        invariant forall i :: 0 <= i < |ran| ==> ran[i] == old(callbacks)[|old(callbacks)| - 1 - i]
        invariant leaving == Leaves(Given(body) + RaisedBy(ran))
        decreases |callbacks|
      {
        var c := callbacks[|callbacks| - 1];
        callbacks := callbacks[..|callbacks| - 1];
        LeavesGrows(Given(body), ran, c);
        ran := ran + [c];
        if c.outcome.Raises? {
          // While a stop signal is active the callback's own exception is only warned about.
          if leaving.None? || !Stops(leaving.value) {
            leaving := Some(c.outcome.exc);
          }
        }
      }
      assert ran == Reverse(old(callbacks));
    }
  }

  lemma LeavesBody(body: Option<Exc>)
    ensures Leaves(Given(body) + RaisedBy([])) == body
  {
    assert Given(body) + [] == Given(body);
    if body.Some? {
      assert Given(body)[..0] == [];
    }
  }

  lemma LeavesGrows(given: seq<Exc>, ran: seq<Callback>, c: Callback)
    ensures
      var before := Leaves(given + RaisedBy(ran));
      Leaves(given + RaisedBy(ran + [c]))
      == if c.outcome.Raises? && (before.None? || !Stops(before.value)) then Some(c.outcome.exc) else before
  {
    assert (ran + [c])[..|ran|] == ran;
    if c.outcome.Raises? {
      var all := given + RaisedBy(ran + [c]);
      assert all == given + RaisedBy(ran) + [c.outcome.exc];
      assert all[..|all| - 1] == given + RaisedBy(ran);
    } else {
      assert RaisedBy(ran) + [] == RaisedBy(ran);
    }
  }
}
