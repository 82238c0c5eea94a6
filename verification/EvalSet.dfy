/** A set of evaluations, sequential or in worker threads, and the fan-out of one hook to many sinks. */
module EvalSet {
  import opened Basics
  import Orchestrator
  import opened Parallel

  // ---------------------------------------------------------------- one task

  datatype EvalReply = EvalReturns(status: Orchestrator.Status) | EvalRaises(exc: Exc)

  /** What the calls made for one task would do. */
  datatype TaskScript = TaskScript(
    preflight: Hook, makePolicy: Hook, closePolicy: Option<Hook>,
    makeEmbodiment: Hook, closeEmbodiment: Hook, simulated: bool, eval: EvalReply)

  /** A log, or the error log of a task that raised instead of producing one. */
  datatype Log = Log(status: Orchestrator.Status, error: Option<Exc>)

  const NOT_SIMULATED: Exc := Orchestrator.Plain(0)

  function LogFor(eval: EvalReply): Result<Log, Exc> {
    match eval
    case EvalReturns(status) => Ok(Log(status, None))
    case EvalRaises(exc) => if Stops(exc) then Err(exc) else Ok(Log(Orchestrator.Error, Some(exc)))
  }

  /** The components a task opened, in order. */
  function Opened(s: TaskScript): seq<Callback> {
    if s.makePolicy.Raises? then []
    else
      (if s.closePolicy.Some? then [Callback(0, s.closePolicy.value)] else [])
      + (if s.makeEmbodiment.Returns? then [Callback(1, s.closeEmbodiment)] else [])
  }

  /** What the block that owns the components raised. */
  function Body(s: TaskScript): Option<Exc> {
    if s.makePolicy.Raises? then Some(s.makePolicy.exc)
    else if s.makeEmbodiment.Raises? then Some(s.makeEmbodiment.exc)
    else if !s.simulated then Some(NOT_SIMULATED)
    else if s.eval.EvalRaises? then Some(s.eval.exc)
    else None
  }

  function RunTask(s: TaskScript): Result<Log, Exc> {
    if s.preflight.Raises? then Err(s.preflight.exc)
    else
      var leaving := Leaves(Given(Body(s)) + RaisedBy(Reverse(Opened(s))));
      if leaving.None? then LogFor(s.eval) else LogFor(EvalRaises(leaving.value))
  }

  /** The worker: everything opened is closed once, in reverse order, before it returns. */
  method RunTaskInWorker(s: TaskScript) returns (r: Result<Log, Exc>, closed: seq<Callback>)
    ensures r == RunTask(s)
    ensures closed == if s.preflight.Raises? then [] else Reverse(Opened(s))
  {
    closed := [];
    if s.preflight.Raises? {
      return Err(s.preflight.exc), closed;
    }
    var resources := new HaltPreservingExitStack();
    var body := None;
    if s.makePolicy.Raises? {
      body := Some(s.makePolicy.exc);
    } else {
      if s.closePolicy.Some? {
        resources.Register(Callback(0, s.closePolicy.value));
      }
      if s.makeEmbodiment.Raises? {
        body := Some(s.makeEmbodiment.exc);
      } else {
        resources.Register(Callback(1, s.closeEmbodiment));
        if !s.simulated {
          body := Some(NOT_SIMULATED);
        } else if s.eval.EvalRaises? {
          body := Some(s.eval.exc);
        }
      }
    }
    assert resources.callbacks == Opened(s);
    var leaving;
    leaving, closed := resources.Exit(body);
    r := if leaving.None? then LogFor(s.eval) else LogFor(EvalRaises(leaving.value));
  }

  /** A stop signal of the evaluation, or of opening a component, reaches the caller unchanged. */
  lemma StopsReachTheCaller(s: TaskScript)
    requires s.preflight.Returns? && Body(s).Some? && Stops(Body(s).value)
    ensures RunTask(s) == Err(Body(s).value)
  {
    var given := Given(Body(s));
    assert given[..0] == [] && Leaves([]) == None;
    assert Leaves(given) == Body(s);
    StopSurvives(given, RaisedBy(Reverse(Opened(s))));
  }

  /** Only a stop signal, or a rejected preflight, escapes a task. */
  lemma OnlyStopsEscape(s: TaskScript)
    ensures RunTask(s).Err? ==> s.preflight == Orchestrator.Raises(RunTask(s).error) || Stops(RunTask(s).error)
  {
  }

  // ---------------------------------------------------------------- the set

  datatype SetReply = SetReply(success: bool, logs: seq<Log>)

  datatype SetError = Escaped(exc: Exc) | NoTasks

  /** One log per task, in order, each the log its task gives when run alone. */
  ghost predicate LogPerTask(tasks: seq<TaskScript>, reply: SetReply) {
    && |reply.logs| == |tasks| && (forall i :: 0 <= i < |tasks| ==> RunTask(tasks[i]) == Ok(reply.logs[i]))
    && (reply.success <==> forall log :: log in reply.logs ==> log.status == Orchestrator.Success)
  }

  method AllSucceeded(logs: seq<Log>) returns (success: bool)
    ensures success <==> forall log :: log in logs ==> log.status == Orchestrator.Success
  {
    success := true;
    for i := 0 to |logs|
      invariant success <==> forall log :: log in logs[..i] ==> log.status == Orchestrator.Success
    {
      assert logs[..i + 1] == logs[..i] + [logs[i]];
      success := success && logs[i].status == Orchestrator.Success;
    }
    assert logs[..|logs|] == logs;
  }

  /** In worker threads. */
  method EvalSetParallel(tasks: seq<TaskScript>, maxWorkers: nat, wait: Wait)
    returns (r: Result<SetReply, SetError>, trace: seq<Event>)
    requires maxWorkers >= 1 && Completes(wait)
    ensures r.Ok? ==> LogPerTask(tasks, r.value)
    ensures r.Ok? <==> tasks != [] && forall t :: t in tasks ==> RunTask(t).Ok?
    ensures r.Err? && r.error.Escaped? ==> exists t :: t in tasks && RunTask(t) == Err(r.error.exc)
    ensures Bounded(trace, maxWorkers) && InFlight(trace) == 0 && StopsAdmission(trace)
  {
    if tasks == [] {
      return Err(NoTasks), [];
    }
    hide RunTask;
    var outcome;
    outcome, trace := RunParallel(tasks, RunTask, maxWorkers, wait);
    if outcome.Err? {
      return Err(Escaped(outcome.error)), trace;
    }
    var success := AllSucceeded(outcome.value);
    r := Ok(SetReply(success, outcome.value));
  }

  /** One task of the sequential set: the components are shared, so nothing is opened or closed. */
  function Shared(eval: EvalReply): TaskScript {
    TaskScript(Orchestrator.Returns, Orchestrator.Returns, None, Orchestrator.Returns, Orchestrator.Returns, true, eval)
  }

  /** Every component the task opens, opens, and everything it opened closes without raising. */
  predicate Clean(s: TaskScript) {
    && s.preflight.Returns? && s.makePolicy.Returns? && s.makeEmbodiment.Returns? && s.simulated
    && s.closeEmbodiment.Returns? && (s.closePolicy.Some? ==> s.closePolicy.value.Returns?)
  }

  lemma {:induction false} NothingRaised(ran: seq<Callback>)
    requires forall c :: c in ran ==> c.outcome.Returns?
    ensures RaisedBy(ran) == []
  {
    if ran != [] {
      assert ran[|ran| - 1] in ran && forall c :: c in ran[..|ran| - 1] ==> c in ran;
      NothingRaised(ran[..|ran| - 1]);
    }
  }

  /** A clean task has its evaluation's log. */
  lemma CleanRuns(s: TaskScript)
    requires Clean(s)
    ensures RunTask(s) == LogFor(s.eval)
  {
    assert forall c :: c in Opened(s) ==> c.outcome.Returns?;
    assert forall c :: c in Reverse(Opened(s)) ==> c in Opened(s);
    NothingRaised(Reverse(Opened(s)));
    LeavesBody(Body(s));
  }

  function SharedTasks(evals: seq<EvalReply>): seq<TaskScript> {
    seq(|evals|, i requires 0 <= i < |evals| => Shared(evals[i]))
  }

  /** Logs that are the evaluations' own make a reply. */
  lemma LogsGiven(evals: seq<EvalReply>, logs: seq<Log>, success: bool)
    requires |logs| == |evals| && forall i :: 0 <= i < |evals| ==> LogFor(evals[i]) == Ok(logs[i])
    requires success <==> forall log :: log in logs ==> log.status == Orchestrator.Success
    ensures LogPerTask(SharedTasks(evals), SetReply(success, logs))
  {
    var tasks := SharedTasks(evals);
    forall i | 0 <= i < |tasks|
      ensures RunTask(tasks[i]) == Ok(logs[i])
    {
      CleanRuns(tasks[i]);
    }
  }

  /** One task after another: `calls` says how many were run. */
  method EvalSetSequential(evals: seq<EvalReply>, preflight: Hook)
    returns (r: Result<SetReply, SetError>, calls: nat)
    ensures calls <= |evals|
    ensures r.Ok? ==> calls == |evals| > 0 && preflight.Returns?
    ensures r.Ok? ==> LogPerTask(SharedTasks(evals), r.value)
    ensures
      r.Err?
      ==>
        || (r.error == NoTasks && evals == [])
        || (r.error.Escaped? && preflight == Orchestrator.Raises(r.error.exc) && calls == 0)
        || (r.error.Escaped? && calls > 0 && evals[calls - 1] == EvalRaises(r.error.exc) && Stops(r.error.exc))
    ensures forall i :: 0 <= i < calls - 1 ==> LogFor(evals[i]).Ok?
  {
    hide LogPerTask, SharedTasks;
    calls := 0;
    if evals == [] {
      return Err(NoTasks), calls;
    }
    if preflight.Raises? {
      return Err(Escaped(preflight.exc)), calls;
    }
    var logs := [];
    while calls < |evals|
      invariant 0 <= calls == |logs| <= |evals|
      invariant forall i :: 0 <= i < calls ==> LogFor(evals[i]) == Ok(logs[i])
    {
      var reply := evals[calls];
      calls := calls + 1;
      match reply
      case EvalReturns(status) =>
        logs := logs + [Log(status, None)];
      case EvalRaises(exc) =>
        if Stops(exc) {
          return Err(Escaped(exc)), calls;
        }
        logs := logs + [Log(Orchestrator.Error, Some(exc))];
    }
    var success := AllSucceeded(logs);
    LogsGiven(evals, logs, success);
    r := Ok(SetReply(success, logs));
  }

  /** Threads change nothing but time: when its tasks are clean, a parallel set that returns has the reply
      a sequential set of the same evaluations has. */
  lemma WorkersChangeNothing(tasks: seq<TaskScript>, evals: seq<EvalReply>, a: SetReply, b: SetReply)
    requires |evals| == |tasks| && forall i :: 0 <= i < |tasks| ==> Clean(tasks[i]) && tasks[i].eval == evals[i]
    requires LogPerTask(tasks, a) && LogPerTask(SharedTasks(evals), b)
    ensures a == b
  {
    hide RunTask;
    var shared := SharedTasks(evals);
    forall i | 0 <= i < |tasks|
      ensures a.logs[i] == b.logs[i]
    {
      CleanRuns(tasks[i]);
      CleanRuns(shared[i]);
      assert Ok(a.logs[i]) == RunTask(tasks[i]) == RunTask(shared[i]) == Ok(b.logs[i]);
    }
    assert a.logs == b.logs;
  }

  // ---------------------------------------------------------------- the broadcast

  /** A sink: `end` is what its on_eval_end hook would do, `retain` its snapshot-keeping hook. */
  datatype Sink = Sink(id: nat, critical: bool, discards: bool, end: Hook, retain: Option<Hook>)

  /** A sink was offered the hook, or told to keep its snapshot, or passed over. */
  datatype Offer = Offered(sink: Sink) | Retained(sink: Sink) | Skipped(sink: Sink)

  /** Critical sinks first, otherwise in the order given. */
  function Ordered(sinks: seq<Sink>): seq<Sink> {
    Those(sinks, true) + Those(sinks, false)
  }

  function Those(sinks: seq<Sink>, critical: bool): (r: seq<Sink>)
    ensures forall s :: s in r <==> s in sinks && s.critical == critical
  {
    if sinks == [] then []
    else
      var front, last := sinks[..|sinks| - 1], sinks[|sinks| - 1];
      assert sinks == front + [last];
      Those(front, critical) + (if last.critical == critical then [last] else [])
  }

  /** A critical sink lost the record of the run. */
  predicate Lost(s: Sink) {
    s.critical && s.end.Raises? && !Stops(s.end.exc)
  }

  function FirstLoss(served: seq<Sink>): Option<Exc> {
    if served == [] then None
    else
      var earlier := FirstLoss(served[..|served| - 1]);
      var last := served[|served| - 1];
      if earlier.Some? then earlier else if Lost(last) then Some(last.end.exc) else None
  }

  lemma {:induction false} FirstLossMeans(served: seq<Sink>)
    ensures FirstLoss(served).Some? <==> exists s :: s in served && Lost(s)
    ensures FirstLoss(served).Some? ==> !Stops(FirstLoss(served).value)
  {
    if served != [] {
      var front, last := served[..|served| - 1], served[|served| - 1];
      assert served == front + [last];
      FirstLossMeans(front);
    }
  }

  /** The sinks offered so far, and those passed over because the record was already lost. */
  ghost predicate Serving(ordered: seq<Sink>, offers: seq<Offer>) {
    && |offers| <= |ordered|
    && (forall k :: 0 <= k < |offers| ==> offers[k].sink == ordered[k])
    && (forall k :: 0 <= k < |offers|
          ==> (offers[k].Offered? <==> FirstLoss(ordered[..k]).None? || !ordered[k].discards))
  }

  /** The round ended early: a sink raised a stop signal, or keeping a snapshot failed. */
  predicate CutShort(last: Offer, exc: Exc) {
    match last
    case Offered(s) => s.end == Orchestrator.Raises(exc) && Stops(exc)
    case Retained(s) => s.retain == Some(Orchestrator.Raises(exc))
    case Skipped(_) => false
  }

  /**
   The final log is offered to every sink, critical ones first, and an ordinary failure of a critical
   sink is what is raised in the end. Only a stop signal leaves the round early.
   */
  method FanOutEvalEnd(sinks: seq<Sink>) returns (leaving: Option<Exc>, offers: seq<Offer>)
    ensures Serving(Ordered(sinks), offers)
    ensures
      || (|offers| == |sinks| && leaving == FirstLoss(Ordered(sinks)))
      || (|offers| > 0 && leaving.Some? && CutShort(offers[|offers| - 1], leaving.value))
  {
    hide Ordered;
    var ordered := Ordered(sinks);
    OrderedLength(sinks);
    leaving, offers := None, [];
    for k := 0 to |ordered|
      invariant |offers| == k && Serving(ordered, offers) && leaving == FirstLoss(ordered[..k])
      invariant leaving.None? || !Stops(leaving.value)
    {
      var s := ordered[k];
      ServeNext(ordered, offers, s, leaving);
      if leaving.Some? && s.discards {
        if s.retain.Some? {
          offers := offers + [Retained(s)];
          if s.retain.value.Raises? {
            return Some(s.retain.value.exc), offers;
          }
        } else {
          offers := offers + [Skipped(s)];
        }
      } else {
        offers := offers + [Offered(s)];
        if s.end.Raises? {
          if Stops(s.end.exc) {
            return Some(s.end.exc), offers;
          }
          if s.critical && leaving.None? {
            leaving := Some(s.end.exc);
          }
        }
      }
    }
    assert ordered[..|ordered|] == ordered;
  }

  /** The next sink is offered the hook, or passed over, exactly as the record's fate asks. */
  lemma ServeNext(ordered: seq<Sink>, offers: seq<Offer>, s: Sink, lost: Option<Exc>)
    requires Serving(ordered, offers) && |offers| < |ordered| && s == ordered[|offers|]
    requires lost == FirstLoss(ordered[..|offers|])
    ensures lost.None? || !s.discards ==> Serving(ordered, offers + [Offered(s)])
    ensures lost.Some? && s.discards ==> Serving(ordered, offers + [Retained(s)])
    ensures lost.Some? && s.discards ==> Serving(ordered, offers + [Skipped(s)])
    ensures
      FirstLoss(ordered[..|offers| + 1])
      == if lost.Some? then lost else if Lost(s) then Some(s.end.exc) else None
  {
    var n := |offers|;
    assert ordered[..n + 1][..n] == ordered[..n];
  }

  lemma {:induction false} OrderedLength(sinks: seq<Sink>)
    ensures |Ordered(sinks)| == |sinks|
  {
    if sinks != [] {
      OrderedLength(sinks[..|sinks| - 1]);
    }
  }

  predicate NoneLost(sinks: seq<Sink>) {
    forall s :: s in sinks ==> !Lost(s)
  }

  /** The critical sinks among the first `k` sinks in their order. */
  function CriticalBefore(sinks: seq<Sink>, k: nat): seq<Sink> {
    var critical := Those(sinks, true);
    if k <= |critical| then critical[..k] else critical
  }

  lemma OnlyCriticalLose(sinks: seq<Sink>, k: nat)
    requires k <= |Ordered(sinks)|
    ensures NoneLost(Ordered(sinks)[..k]) <==> NoneLost(CriticalBefore(sinks, k))
  {
    var critical, others := Those(sinks, true), Those(sinks, false);
    var rest := if k <= |critical| then [] else others[..k - |critical|];
    assert Ordered(sinks)[..k] == CriticalBefore(sinks, k) + rest;
    assert forall s :: s in rest ==> s in others && !Lost(s);
  }

  /**
   The record survives: a sink that deletes its own snapshot at the end of the run is offered the hook
   if and only if no critical sink before it has lost the log; for one that is not critical itself, no
   critical sink at all.
   */
  lemma SnapshotOutlivesLoss(sinks: seq<Sink>, offers: seq<Offer>, k: nat)
    requires Serving(Ordered(sinks), offers)
    requires k < |offers| && offers[k].sink.discards
    ensures offers[k].Offered? <==> NoneLost(CriticalBefore(sinks, k))
    ensures !offers[k].sink.critical ==> (offers[k].Offered? <==> NoneLost(sinks))
  {
    var critical, ordered := Those(sinks, true), Ordered(sinks);
    FirstLossMeans(ordered[..k]);
    OnlyCriticalLose(sinks, k);
    if !offers[k].sink.critical {
      assert forall j :: 0 <= j < |critical| ==> ordered[j] == critical[j] && critical[j] in critical;
      assert k >= |critical|;
      assert forall s :: s in sinks && Lost(s) ==> s in critical;
    }
  }
}
